/** One step of one snake (`move_snake`): the collision checks in their
    fixed order, and the slide or growth of the body when nothing is hit. */
module Movement {
  import opened Grid
  import opened State

  /** The collision classes, in the order they are tested. */
  datatype Collision = Wall | SelfHit | OpponentHit

  /** What a move does: a crash of some class, or the moving snake's new body. */
  datatype Outcome = Crash(kind: Collision) | Moved(snake: seq<Cell>)

  /** The winner of a game the moving snake loses. */
  function Winner(isPlayer: bool): Party
  {
    if isPlayer then AI else Player
  }

  /** The cell the moving snake's head enters. */
  function NewHead(s: GameState, d: Direction, isPlayer: bool): Cell
    requires |Own(s, isPlayer)| > 0
  {
    Step(Last(Own(s, isPlayer)), d)
  }

  /** The move of the `isPlayer` snake of `s` in direction `d`. The self test
      looks at the whole body before the move, tail included. */
  function Advance(s: GameState, d: Direction, isPlayer: bool): Outcome
    requires |Own(s, isPlayer)| > 0
  {
    var snake := Own(s, isPlayer);
    var head := NewHead(s, d, isPlayer);
    if !InBounds(head) then Crash(Wall)
    else if head in snake then Crash(SelfHit)
    else if head in Opponent(s, isPlayer) then Crash(OpponentHit)
    else if head != s.food then Moved((snake + [head])[1..])
    else Moved(snake + [head])
  }

  /** A state a collision leaves behind: the reset layout, its food drawn
      against the state in which the collision happened. */
  ghost predicate IsResetOf(prev: GameState, r: GameState)
  {
    r == Initial(r.food) && IsFree(prev, r.food)
  }

  /** One `move_snake` call on session state `s`: the new state `t` and the
      winners announced by game over events (none or one). */
  ghost predicate MoveStep(s: GameState, d: Direction, isPlayer: bool, t: GameState, over: seq<Party>)
  {
    |Own(s, isPlayer)| > 0 &&
    match Advance(s, d, isPlayer)
    case Crash(_) => IsResetOf(s, t) && over == [Winner(isPlayer)]
    case Moved(n) => t == WithOwn(s, isPlayer, n) && over == []
  }

  /** Collisions are tested wall first, then self, then opponent: each class
      is reported exactly when its test is the first to fire. */
  lemma CollisionOrder(s: GameState, d: Direction, isPlayer: bool)
    requires |Own(s, isPlayer)| > 0
    ensures var h := NewHead(s, d, isPlayer);
      && (Advance(s, d, isPlayer) == Crash(Wall) <==> !InBounds(h))
      && (Advance(s, d, isPlayer) == Crash(SelfHit) <==> InBounds(h) && h in Own(s, isPlayer))
      && (Advance(s, d, isPlayer) == Crash(OpponentHit) <==>
            InBounds(h) && h !in Own(s, isPlayer) && h in Opponent(s, isPlayer))
      && (Advance(s, d, isPlayer).Moved? <==>
            InBounds(h) && h !in Own(s, isPlayer) && h !in Opponent(s, isPlayer))
  {
  }

  /** A successful move puts the new head one step from the old one, drops
      index 0 unless the head lands on the food, and so keeps the length
      or (on food) adds one. */
  lemma {:induction false} MovedShape(s: GameState, d: Direction, isPlayer: bool)
    requires |Own(s, isPlayer)| > 0 && Advance(s, d, isPlayer).Moved?
    ensures var n := Advance(s, d, isPlayer).snake;
      var body := Own(s, isPlayer);
      var ate := Step(Last(body), d) == s.food;
      && |n| > 0
      && Last(n) == Step(Last(body), d)
      && Manhattan(Last(body), Last(n)) == 1
      && n[..|n| - 1] == (if ate then body else body[1..])
      && |n| == |body| + (if ate then 1 else 0)
  {
    var body := Own(s, isPlayer);
    var n := Advance(s, d, isPlayer).snake;
    StepIsUnitMove(Last(body), d);
    if Step(Last(body), d) == s.food {
      assert n == body + [Step(Last(body), d)];
    } else {
      assert n == body[1..] + [Step(Last(body), d)];
    }
  }

  /** Only the moving snake changes in a successful move. */
  lemma MovedChangesOnlyOwn(s: GameState, d: Direction, isPlayer: bool, t: GameState)
    requires MoveStep(s, d, isPlayer, t, [])
    ensures Opponent(t, isPlayer) == Opponent(s, isPlayer)
    ensures t.food == s.food && t.playerDirection == s.playerDirection
    ensures t.aiDirection == s.aiDirection && t.running == s.running
  {
  }

  /** A one-cell snake cannot hit itself, its only cell being the one it leaves. */
  lemma SingleCellNeverHitsItself(s: GameState, d: Direction, isPlayer: bool)
    requires |Own(s, isPlayer)| == 1
    ensures Advance(s, d, isPlayer) != Crash(SelfHit)
  {
    StepIsUnitMove(Own(s, isPlayer)[0], d);
  }

  /** The tail counts for the self test even though it would move away:
      a four-cell snake curled in a square loses by stepping onto its tail. */
  lemma TailCellIsSelfHit()
    ensures var s := GameState([(5, 5), (6, 5), (6, 6), (5, 6)], [(10, 10)], (0, 0), Up, Left, true);
      Advance(s, Up, true) == Crash(SelfHit)
  {
  }

  /** A head in column 0 moving left hits the wall: the other party is
      announced as the winner and the session is back in the reset layout. */
  lemma LeftEdgeIsWall(s: GameState, isPlayer: bool, t: GameState, over: seq<Party>)
    requires MoveStep(s, Left, isPlayer, t, over) && Last(Own(s, isPlayer)).0 == 0
    ensures Advance(s, Left, isPlayer) == Crash(Wall)
    ensures over == [Winner(isPlayer)] && t == Initial(t.food)
  {
  }

  lemma {:induction false} MovedLinked(snake: seq<Cell>, head: Cell, ate: bool)
    requires |snake| > 0 && Linked(snake) && Manhattan(Last(snake), head) <= 1
    ensures Linked(if ate then snake + [head] else (snake + [head])[1..])
  {
    var grown := snake + [head];
    assert Linked(grown) by {
      forall i | 0 < i < |grown|
        ensures Manhattan(grown[i - 1], grown[i]) <= 1
      {
        if i < |snake| {
          assert grown[i - 1] == snake[i - 1] && grown[i] == snake[i];
        }
      }
    }
    if !ate {
      var slid := grown[1..];
      forall i | 0 < i < |slid|
        ensures Manhattan(slid[i - 1], slid[i]) <= 1
      {
        assert slid[i - 1] == grown[i] && slid[i] == grown[i + 1];
      }
    }
  }

  /** A move keeps the state well formed, whether it slides, grows or resets. */
  lemma {:induction false} MoveStepWellFormed(s: GameState, d: Direction, isPlayer: bool, t: GameState, over: seq<Party>)
    requires WellFormed(s) && MoveStep(s, d, isPlayer, t, over)
    ensures WellFormed(t)
  {
    match Advance(s, d, isPlayer)
    case Crash(_) =>
      InitialWellFormed(t.food);
    case Moved(n) =>
      var snake := Own(s, isPlayer);
      var head := NewHead(s, d, isPlayer);
      StepIsUnitMove(Last(snake), d);
      MovedLinked(snake, head, head == s.food);
      assert n == if head == s.food then snake + [head] else (snake + [head])[1..];
      assert forall c :: c in n ==> c in snake || c == head;
  }

  /** A successful move covers at most one cell more than before. */
  lemma MovedOccupancy(s: GameState, d: Direction, isPlayer: bool, t: GameState)
    requires MoveStep(s, d, isPlayer, t, [])
    ensures Occupied(t) <= Occupied(s) + {NewHead(s, d, isPlayer)}
    ensures |Occupied(t)| <= |Occupied(s)| + 1
  {
    var snake := Own(s, isPlayer);
    var head := NewHead(s, d, isPlayer);
    var n := Own(t, isPlayer);
    assert forall c :: c in n ==> c in snake || c == head;
    assert Occupied(t) <= Occupied(s) + {head};
    SubsetCount(Occupied(t), Occupied(s) + {head});
  }

  /** Any move, a reset included, covers at most one cell more than before. */
  lemma MoveStepOccupancy(s: GameState, d: Direction, isPlayer: bool, t: GameState, over: seq<Party>)
    requires WellFormed(s) && MoveStep(s, d, isPlayer, t, over)
    ensures |Occupied(t)| <= |Occupied(s)| + 1
  {
    match Advance(s, d, isPlayer)
    case Crash(_) =>
      InitialWellFormed(t.food);
      assert s.playerSnake[0] in Occupied(s);
      SubsetCount({s.playerSnake[0]}, Occupied(s));
    case Moved(n) =>
      MovedOccupancy(s, d, isPlayer, t);
  }
}
