/** The AI's greedy move choice (`ai_choose_move`): among the neighbour
    cells of its head that are on the grid and on neither snake, head for
    the one closest to the food, comparing `(distance, direction name)`
    tuples as Python does; with no such cell, keep the current heading. */
module Ai {
  import opened Grid
  import opened State

  /** An option as the source collects it: a distance and a direction. */
  type Choice = (int, Direction)

  /** Python's `<` on `(distance, name)` tuples: distance first, then the
      direction names as strings. */
  predicate ChoiceLess(a: Choice, b: Choice)
  {
    a.0 < b.0 || (a.0 == b.0 && StrLess(Name(a.1), Name(b.1)))
  }

  lemma ChoiceLessIsStrictOrder(a: Choice, b: Choice, c: Choice)
    ensures !ChoiceLess(a, a)
    ensures ChoiceLess(a, b) && ChoiceLess(b, c) ==> ChoiceLess(a, c)
    ensures a.1 != b.1 ==> ChoiceLess(a, b) || ChoiceLess(b, a)
  {
    NameOrder(a.1, a.1);
    NameOrder(a.1, b.1);
    NameOrder(b.1, a.1);
    NameOrder(b.1, c.1);
    NameOrder(a.1, c.1);
  }

  /** Python's `min` over a non-empty list: the first element no other
      element is smaller than, found by keeping the running minimum and
      replacing it only by a strictly smaller item. */
  function MinChoice(options: seq<Choice>): (m: Choice)
    requires |options| > 0
    ensures m in options
    ensures forall o :: o in options ==> !ChoiceLess(o, m)
  {
    if |options| == 1 then
      ChoiceLessIsStrictOrder(options[0], options[0], options[0]);
      options[0]
    else
      var prefix := options[..|options| - 1];
      var x := Last(options);
      var m := MinChoice(prefix);
      assert forall o :: o in options ==> o in prefix || o == x;
      ChoiceLessIsStrictOrder(x, x, x);
      if ChoiceLess(x, m) then
        assert forall o :: o in prefix ==> !ChoiceLess(o, x) by {
          forall o | o in prefix ensures !ChoiceLess(o, x) {
            ChoiceLessIsStrictOrder(o, x, m);
          }
        }
        x
      else m
  }

  function AiHead(s: GameState): Cell
    requires |s.aiSnake| > 0
  {
    Last(s.aiSnake)
  }

  /** Direction `d` leads the AI's head to a cell on the grid and on neither snake. */
  predicate IsCandidate(s: GameState, d: Direction)
    requires |s.aiSnake| > 0
  {
    IsFree(s, Step(AiHead(s), d))
  }

  /** The Manhattan distance from the cell `d` leads to, to the food. */
  function Distance(s: GameState, d: Direction): nat
    requires |s.aiSnake| > 0
  {
    Manhattan(Step(AiHead(s), d), s.food)
  }

  ghost predicate HasCandidate(s: GameState)
    requires |s.aiSnake| > 0
  {
    exists d :: IsCandidate(s, d)
  }

  /** What the AI may answer in state `s`: a candidate at minimum distance
      whose name is alphabetically first among the candidates at that
      distance, or, with no candidate, the current AI heading. */
  ghost predicate IsGreedyChoice(s: GameState, d: Direction)
  {
    |s.aiSnake| > 0 &&
    if HasCandidate(s) then
      IsCandidate(s, d) &&
      forall c :: IsCandidate(s, c) ==>
        Distance(s, d) <= Distance(s, c) &&
        (Distance(s, c) == Distance(s, d) && c != d ==> StrLess(Name(d), Name(c)))
    else
      d == s.aiDirection
  }

  /** The choice of `ai_choose_move` before it is written back: collect the
      candidates in table order, then take the minimum tuple. */
  method ChooseMove(s: GameState) returns (best: Direction)
    requires |s.aiSnake| > 0
    ensures IsGreedyChoice(s, best)
  {
    var head := Last(s.aiSnake);
    var options: seq<Choice> := [];
    var i := 0;
    while i < |DIRECTION_ORDER|
      invariant 0 <= i <= |DIRECTION_ORDER|
      invariant forall o :: o in options ==> IsCandidate(s, o.1) && o.0 == Distance(s, o.1)
      invariant forall d :: d in DIRECTION_ORDER[..i] && IsCandidate(s, d) ==> (Distance(s, d), d) in options
    {
      var d := DIRECTION_ORDER[i];
      var (dx, dy) := Delta(d);
      var nx, ny := head.0 + dx, head.1 + dy;
      if 0 <= nx < GRID_SIZE && 0 <= ny < GRID_SIZE && (nx, ny) !in s.aiSnake && (nx, ny) !in s.playerSnake {
        var distance := Abs(nx - s.food.0) + Abs(ny - s.food.1);
        options := options + [(distance, d)];
      }
      i := i + 1;
    }
    assert DIRECTION_ORDER[..i] == DIRECTION_ORDER;
    if |options| > 0 {
      var m := MinChoice(options);
      best := m.1;
      forall c | IsCandidate(s, c)
        ensures Distance(s, best) <= Distance(s, c)
        ensures Distance(s, c) == Distance(s, best) && c != best ==> StrLess(Name(best), Name(c))
      {
        DirectionOrderComplete(c);
        ChoiceLessIsStrictOrder(m, (Distance(s, c), c), m);
      }
    } else {
      best := s.aiDirection;
      forall c ensures !IsCandidate(s, c) {
        DirectionOrderComplete(c);
      }
    }
  }

  /** The greedy choice is determined by the state. */
  lemma GreedyChoiceUnique(s: GameState, d1: Direction, d2: Direction)
    requires IsGreedyChoice(s, d1) && IsGreedyChoice(s, d2)
    ensures d1 == d2
  {
    if HasCandidate(s) && d1 != d2 {
      NameOrder(d1, d2);
      NameOrder(d2, d1);
    }
  }

  /** With a candidate available, the AI's choice never collides. */
  lemma GreedyChoiceIsSafe(s: GameState, d: Direction)
    requires IsGreedyChoice(s, d) && HasCandidate(s)
    ensures InBounds(Step(AiHead(s), d))
    ensures Step(AiHead(s), d) !in s.aiSnake && Step(AiHead(s), d) !in s.playerSnake
  {
  }

  /** In a fresh layout whose food is the AI's own start cell, all four
      neighbours tie at distance 1 and the AI turns down: the alphabetically
      first name wins, not the first entry of the table (up). */
  lemma FreshLayoutAiTurnsDown(s: GameState)
    requires s.aiSnake == [(10, 10)] && s.food == (10, 10)
    requires forall c :: c in s.playerSnake ==> c.0 < 8
    ensures IsGreedyChoice(s, Down)
  {
    assert IsCandidate(s, Down);
    forall c | IsCandidate(s, c) && c != Down
      ensures StrLess(Name(Down), Name(c))
    {
      NameOrder(Down, c);
    }
  }
}
