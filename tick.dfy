/** One tick of `update_game`, stated as a relation between the state before
    the tick and the states after each of its steps. The food draws are
    free choices, so a tick is a relation rather than a function. */
module Tick {
  import opened Grid
  import opened State
  import opened Movement
  import opened Ai

  /** The feeding check for one snake after both moves: if its head is on
      the food, the food cell is appended once more and a new food cell is
      drawn off both snakes of the grown state. */
  ghost predicate FeedStep(s: GameState, isPlayer: bool, t: GameState)
  {
    |Own(s, isPlayer)| > 0 &&
    if Last(Own(s, isPlayer)) == s.food then
      var grown := WithOwn(s, isPlayer, Own(s, isPlayer) + [s.food]);
      t == grown.(food := t.food) && IsFree(grown, t.food)
    else
      t == s
  }

  /** The intermediate states of a tick and the winners of the game over
      events it raised, in order. */
  datatype TickTrace = TickTrace(
    afterPlayer: GameState,
    playerOver: seq<Party>,
    aiChoice: Direction,
    afterAi: GameState,
    aiOver: seq<Party>,
    afterPlayerFeed: GameState,
    after: GameState)

  /** `update_game` on an existing session: the player moves; the AI's
      direction is chosen on the resulting state (which a collision may have
      reset) and written back; the AI moves; then the player's and the AI's
      feeding checks run. Nothing is skipped after a collision. */
  ghost predicate IsTick(s0: GameState, tr: TickTrace)
  {
    WellFormed(s0)
    && MoveStep(s0, s0.playerDirection, true, tr.afterPlayer, tr.playerOver)
    && IsGreedyChoice(tr.afterPlayer, tr.aiChoice)
    && MoveStep(tr.afterPlayer.(aiDirection := tr.aiChoice), tr.aiChoice, false, tr.afterAi, tr.aiOver)
    && FeedStep(tr.afterAi, true, tr.afterPlayerFeed)
    && FeedStep(tr.afterPlayerFeed, false, tr.after)
  }

  lemma FeedStepWellFormed(s: GameState, isPlayer: bool, t: GameState)
    requires WellFormed(s) && FeedStep(s, isPlayer, t)
    ensures WellFormed(t)
    ensures Occupied(t) == Occupied(s)
  {
    if Last(Own(s, isPlayer)) == s.food {
      var snake := Own(s, isPlayer);
      var grown := snake + [s.food];
      assert forall c :: c in grown ==> c in snake;
      assert Linked(grown) by {
        forall i | 0 < i < |grown|
          ensures Manhattan(grown[i - 1], grown[i]) <= 1
        {
          if i < |snake| {
            assert grown[i - 1] == snake[i - 1] && grown[i] == snake[i];
          }
        }
      }
      assert Occupied(t) == Occupied(s);
    }
  }

  /** Every state a tick passes through is well formed. */
  lemma {:induction false} TickWellFormed(s0: GameState, tr: TickTrace)
    requires IsTick(s0, tr)
    ensures WellFormed(tr.afterPlayer) && WellFormed(tr.afterAi)
    ensures WellFormed(tr.afterPlayerFeed) && WellFormed(tr.after)
  {
    MoveStepWellFormed(s0, s0.playerDirection, true, tr.afterPlayer, tr.playerOver);
    var chosen := tr.afterPlayer.(aiDirection := tr.aiChoice);
    MoveStepWellFormed(chosen, tr.aiChoice, false, tr.afterAi, tr.aiOver);
    FeedStepWellFormed(tr.afterAi, true, tr.afterPlayerFeed);
    FeedStepWellFormed(tr.afterPlayerFeed, false, tr.after);
  }

  /** The player, when its move lands on the food, gains two entries in the
      tick (the move keeps the tail, the feeding check appends the food
      again), the last two both the old food cell; the AI cannot also eat,
      and the new food is off both snakes. */
  lemma {:induction false} PlayerEatsGrowsByTwo(s0: GameState, tr: TickTrace)
    requires IsTick(s0, tr) && tr.playerOver == [] && tr.aiOver == []
    requires NewHead(s0, s0.playerDirection, true) == s0.food
    ensures tr.after.playerSnake == s0.playerSnake + [s0.food, s0.food]
    ensures tr.after.aiSnake == tr.afterAi.aiSnake
    ensures IsFree(tr.after, tr.after.food)
  {
    var head := NewHead(s0, s0.playerDirection, true);
    assert tr.afterPlayer.playerSnake == s0.playerSnake + [head];
    var chosen := tr.afterPlayer.(aiDirection := tr.aiChoice);
    assert Advance(chosen, tr.aiChoice, false).Moved?;
    assert tr.afterAi.playerSnake == tr.afterPlayer.playerSnake && tr.afterAi.food == s0.food;
    assert Last(tr.afterAi.playerSnake) == s0.food;
    assert tr.afterPlayerFeed.playerSnake == s0.playerSnake + [s0.food, s0.food];
    assert Last(tr.afterPlayerFeed.aiSnake) in tr.afterPlayerFeed.aiSnake;
  }

  /** The AI, when its move lands on the food of the state it moves from
      (which a player collision may have reset), gains two entries equal to
      that food; the player does not eat, and the new food is off both
      snakes. */
  lemma {:induction false} AiEatsGrowsByTwo(s0: GameState, tr: TickTrace)
    requires IsTick(s0, tr) && tr.aiOver == []
    requires Last(tr.afterAi.aiSnake) == tr.afterPlayer.food
    ensures tr.after.aiSnake == tr.afterPlayer.aiSnake + [tr.afterPlayer.food, tr.afterPlayer.food]
    ensures tr.after.playerSnake == tr.afterPlayer.playerSnake
    ensures IsFree(tr.after, tr.after.food)
  {
    var chosen := tr.afterPlayer.(aiDirection := tr.aiChoice);
    var aiHead := NewHead(chosen, tr.aiChoice, false);
    assert Last(tr.afterAi.aiSnake) == aiHead;
    assert aiHead !in tr.afterPlayer.playerSnake;
    assert Last(tr.afterAi.playerSnake) in tr.afterAi.playerSnake;
    assert tr.afterPlayerFeed == tr.afterAi;
  }

  /** The tick goes on after a player collision: here the player hits the
      wall, the reset food is drawn one cell below the AI, and the AI turns
      down and eats it in the same tick. */
  lemma AiEatsAfterPlayerCrash(tr: TickTrace)
    requires IsTick(GameState([(0, 5)], [(3, 3)], (7, 7), Left, Left, true), tr)
    requires tr.afterPlayer.food == (10, 11)
    ensures tr.playerOver == [AI] && tr.aiChoice == Down && tr.aiOver == []
    ensures tr.after.aiSnake == [(10, 10), (10, 11), (10, 11)]
  {
    var s1 := tr.afterPlayer;
    assert s1 == Initial((10, 11));
    assert IsCandidate(s1, Down);
    GreedyChoiceUnique(s1, tr.aiChoice, Down);
    AiEatsGrowsByTwo(GameState([(0, 5)], [(3, 3)], (7, 7), Left, Left, true), tr);
  }

  /** Without collisions the AI eats the food of the state before the tick,
      and the player's head was not on it. */
  lemma AiEatsWithoutCollision(s0: GameState, tr: TickTrace)
    requires IsTick(s0, tr) && tr.playerOver == [] && tr.aiOver == []
    requires Last(tr.afterAi.aiSnake) == s0.food
    ensures NewHead(s0, s0.playerDirection, true) != s0.food
    ensures tr.after.aiSnake == s0.aiSnake + [s0.food, s0.food]
    ensures tr.after.playerSnake == tr.afterPlayer.playerSnake
    ensures IsFree(tr.after, tr.after.food)
  {
    AiEatsGrowsByTwo(s0, tr);
    var chosen := tr.afterPlayer.(aiDirection := tr.aiChoice);
    assert NewHead(chosen, tr.aiChoice, false) !in tr.afterPlayer.playerSnake;
    assert Last(tr.afterPlayer.playerSnake) in tr.afterPlayer.playerSnake;
  }

  /** At most one snake eats in a tick without collisions. */
  lemma AtMostOneEater(s0: GameState, tr: TickTrace)
    requires IsTick(s0, tr) && tr.playerOver == [] && tr.aiOver == []
    ensures !(NewHead(s0, s0.playerDirection, true) == s0.food && Last(tr.afterAi.aiSnake) == s0.food)
  {
    if Last(tr.afterAi.aiSnake) == s0.food {
      AiEatsWithoutCollision(s0, tr);
    }
  }

  /** Without a collision and with neither head on the food, the feeding
      checks change nothing and the food stays where it was. */
  lemma NoFoodNoFeeding(s0: GameState, tr: TickTrace)
    requires IsTick(s0, tr) && tr.playerOver == [] && tr.aiOver == []
    requires NewHead(s0, s0.playerDirection, true) != s0.food
    requires Last(tr.afterAi.aiSnake) != s0.food
    ensures tr.after == tr.afterAi && tr.after.food == s0.food
    ensures |tr.after.playerSnake| == |s0.playerSnake| && |tr.after.aiSnake| == |s0.aiSnake|
  {
    MovedShape(s0, s0.playerDirection, true);
    var chosen := tr.afterPlayer.(aiDirection := tr.aiChoice);
    MovedShape(chosen, tr.aiChoice, false);
  }

  /** A player collision does not end the tick: the AI still chooses and
      moves on the freshly reset layout (it always has a free neighbour
      there), so the state published at the end of the tick is not the
      reset layout. */
  lemma {:induction false} PlayerCrashStillMovesAi(s0: GameState, tr: TickTrace)
    requires IsTick(s0, tr) && Advance(s0, s0.playerDirection, true).Crash?
    ensures tr.playerOver == [AI] && tr.afterPlayer == Initial(tr.afterPlayer.food)
    ensures tr.aiOver == []
    ensures Last(tr.after.aiSnake) != AI_START
  {
    var s1 := tr.afterPlayer;
    assert IsCandidate(s1, Up);
    GreedyChoiceIsSafe(s1, tr.aiChoice);
    var chosen := s1.(aiDirection := tr.aiChoice);
    assert Advance(chosen, tr.aiChoice, false).Moved?;
    StepIsUnitMove(AI_START, tr.aiChoice);
    assert Last(tr.afterAi.aiSnake) == Step(AI_START, tr.aiChoice);
    assert Last(tr.afterPlayerFeed.aiSnake) == Last(tr.afterAi.aiSnake);
  }

  /** A player in column 0 heading left loses: the tick announces the AI as
      the winner, then goes on with the reset layout. */
  lemma LeftWallTick(s0: GameState, tr: TickTrace)
    requires IsTick(s0, tr) && s0.playerDirection == Left && Last(s0.playerSnake).0 == 0
    ensures tr.playerOver == [AI] && tr.aiOver == []
    ensures tr.afterPlayer == Initial(tr.afterPlayer.food)
    ensures IsFree(s0, tr.afterPlayer.food)
  {
    PlayerCrashStillMovesAi(s0, tr);
  }

  /** The AI chooses on the state after the player's move: here the player
      steps into the cell the AI would have taken on the state before the
      tick (left), and the AI turns down instead. */
  lemma AiSeesPlayersNewHead(tr: TickTrace)
    requires IsTick(GameState([(8, 10)], [(10, 10)], (5, 10), Right, Left, true), tr)
    ensures IsGreedyChoice(GameState([(8, 10)], [(10, 10)], (5, 10), Right, Left, true), Left)
    ensures tr.afterPlayer.playerSnake == [(9, 10)]
    ensures tr.aiChoice == Down
  {
    var s0 := GameState([(8, 10)], [(10, 10)], (5, 10), Right, Left, true);
    BeforeTickAiGoesLeft(s0);
    assert tr.afterPlayer == s0.(playerSnake := [(9, 10)]);
    AfterPlayerMoveAiGoesDown(tr.afterPlayer);
    GreedyChoiceUnique(tr.afterPlayer, tr.aiChoice, Down);
  }

  lemma BeforeTickAiGoesLeft(s: GameState)
    requires s == GameState([(8, 10)], [(10, 10)], (5, 10), Right, Left, true)
    ensures IsGreedyChoice(s, Left)
  {
    assert IsCandidate(s, Left);
  }

  lemma AfterPlayerMoveAiGoesDown(s: GameState)
    requires s == GameState([(9, 10)], [(10, 10)], (5, 10), Right, Left, true)
    ensures IsGreedyChoice(s, Down)
  {
    assert IsCandidate(s, Down);
    forall c | IsCandidate(s, c) && c != Down
      ensures StrLess(Name(Down), Name(c))
    {
      NameOrder(Down, c);
    }
  }

  /** A fresh layout with the food one step right of the player: the player
      eats on the first tick and ends it as [(5,5), (6,5), (6,5)]. */
  lemma FirstBite(tr: TickTrace)
    requires IsTick(Initial((6, 5)).(running := true), tr)
    ensures tr.playerOver == [] && tr.aiOver == []
    ensures tr.after.playerSnake == [(5, 5), (6, 5), (6, 5)]
    ensures IsFree(tr.after, tr.after.food)
  {
    var s0 := Initial((6, 5)).(running := true);
    var s1 := tr.afterPlayer;
    assert s1 == s0.(playerSnake := [(5, 5), (6, 5)]);
    assert IsCandidate(s1, Up);
    GreedyChoiceIsSafe(s1, tr.aiChoice);
    PlayerEatsGrowsByTwo(s0, tr);
  }

  /** The food lies nowhere on the snake's body except, possibly, its head. */
  predicate FoodAtMostAtHead(s: GameState, isPlayer: bool)
  {
    |Own(s, isPlayer)| > 0 && s.food !in Own(s, isPlayer)[..|Own(s, isPlayer)| - 1]
  }

  /** The snake is a single cell, or the food is off it. */
  predicate ReadyToMove(s: GameState, isPlayer: bool)
  {
    |Own(s, isPlayer)| == 1 || (|Own(s, isPlayer)| > 0 && s.food !in Own(s, isPlayer))
  }

  /** A move from a ready snake leaves the food at most on that snake's new
      head; a collision leaves the reset layout, where both snakes are ready. */
  lemma {:induction false} MoveKeepsFoodOffBody(s: GameState, d: Direction, isPlayer: bool, t: GameState, over: seq<Party>)
    requires MoveStep(s, d, isPlayer, t, over) && ReadyToMove(s, isPlayer)
    ensures over == [] ==> FoodAtMostAtHead(t, isPlayer) && t.food == s.food
    ensures over != [] ==> ReadyToMove(t, true) && ReadyToMove(t, false)
  {
    if Advance(s, d, isPlayer).Moved? {
      var body := Own(s, isPlayer);
      MovedShape(s, d, isPlayer);
      StepIsUnitMove(Last(body), d);
      if |body| == 1 {
        assert body[1..] == [];
        assert body == [Last(body)];
      }
    }
  }

  /** Both feeding checks, from a state whose food lies at most on the heads,
      end with the food off both snakes. */
  lemma {:induction false} FeedingLeavesFoodFree(s2: GameState, s3: GameState, s4: GameState)
    requires WellFormed(s2) && FoodAtMostAtHead(s2, true) && FoodAtMostAtHead(s2, false)
    requires FeedStep(s2, true, s3) && FeedStep(s3, false, s4)
    ensures IsFree(s4, s4.food)
  {
    if Last(s2.playerSnake) == s2.food {
      assert Last(s3.aiSnake) in s3.aiSnake;
    } else if Last(s2.aiSnake) != s2.food {
      var p := s2.playerSnake;
      var a := s2.aiSnake;
      assert p == p[..|p| - 1] + [Last(p)];
      assert a == a[..|a| - 1] + [Last(a)];
    }
  }

  /** Every tick that starts with the food settled ends with it off both
      snakes: a head on the food triggers a new draw, a sliding body covers
      only its old cells and its new head, and the single cells of a reset
      layout either move off the food or eat it. */
  lemma {:induction false} TickLeavesFoodFree(s0: GameState, tr: TickTrace)
    requires IsTick(s0, tr) && FoodSettled(s0)
    ensures IsFree(tr.after, tr.after.food)
  {
    MoveKeepsFoodOffBody(s0, s0.playerDirection, true, tr.afterPlayer, tr.playerOver);
    var chosen := tr.afterPlayer.(aiDirection := tr.aiChoice);
    assert ReadyToMove(chosen, false);
    MoveKeepsFoodOffBody(chosen, tr.aiChoice, false, tr.afterAi, tr.aiOver);
    assert FoodAtMostAtHead(tr.afterAi, true);
    TickWellFormed(s0, tr);
    FeedingLeavesFoodFree(tr.afterAi, tr.afterPlayerFeed, tr.after);
  }
}
