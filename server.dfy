/** The session registries and the event handlers that act on them: the
    `games` map of game states, the `game_threads` map of loop flags, and
    the log of events emitted to each session's room. */
module Server {
  import opened Grid
  import opened State
  import opened Movement
  import opened Ai
  import opened Tick

  /** A client session identifier. */
  type SessionId = string

  /** An outbound event: `game_over` with its winner, or `game_update` with
      the full state. */
  datatype Event = GameOver(winner: Party) | GameUpdate(state: GameState)

  /** An event addressed to one session's room. */
  datatype Emitted = Emitted(room: SessionId, event: Event)

  /** The game over events announcing `winners`, in order, to room `sid`. */
  function Announcements(sid: SessionId, winners: seq<Party>): (r: seq<Emitted>)
    ensures |r| == |winners|
    ensures forall i :: 0 <= i < |r| ==> r[i] == Emitted(sid, GameOver(winners[i]))
  {
    if winners == [] then []
    else [Emitted(sid, GameOver(winners[0]))] + Announcements(sid, winners[1..])
  }

  lemma AnnouncementsAppend(sid: SessionId, a: seq<Party>, b: seq<Party>)
    ensures Announcements(sid, a + b) == Announcements(sid, a) + Announcements(sid, b)
  {
  }

  lemma UpdateTwice<K, V>(m: map<K, V>, k: K, a: V, b: V)
    ensures m[k := a][k := b] == m[k := b]
  {
  }

  lemma SeqAssoc<T>(a: seq<T>, b: seq<T>, c: seq<T>)
    ensures a + b + c == a + (b + c)
  {
  }

  /** `new_food`: the draw its sampling loop accepts, a cell on the grid and
      on neither snake of `s`. Which free cell comes up is left open. */
  method NewFood(s: GameState) returns (food: Cell)
    requires HasFreeCell(s)
    ensures IsFree(s, food)
  {
    ghost var c :| IsFree(s, c);
    var x, y :| 0 <= x < GRID_SIZE && 0 <= y < GRID_SIZE && IsFree(s, (x, y));
    food := (x, y);
  }

  class Registry {
    /** `games`: the game state of every connected session. */
    var games: map<SessionId, GameState>
    /** `game_threads`: the `running` flag of each session's loop entry. */
    var threads: map<SessionId, bool>
    /** Everything emitted so far, oldest first. */
    var events: seq<Emitted>

    /** Every stored state is well formed; this holds at every step of a tick. */
    ghost predicate StatesWellFormed()
      reads this
    {
      forall sid :: sid in games ==> WellFormed(games[sid])
    }

    /** The registry between events: every state well formed, with its food
        settled (off both snakes, or in a layout a reset just installed). */
    ghost predicate Valid()
      reads this
    {
      StatesWellFormed() && forall sid :: sid in games ==> FoodSettled(games[sid])
    }

    constructor ()
      ensures Valid()
      ensures games == map[] && threads == map[] && events == []
    {
      games := map[];
      threads := map[];
      events := [];
    }

    /** The guard of `game_loop`: the session exists and its loop entry is
        flagged running. */
    predicate LoopRuns(sid: SessionId)
      reads this
    {
      sid in games && sid in threads && threads[sid]
    }

    /** `reset_game`: install the starting layout. The food is (10, 10) for a
        new session, else drawn against the state being replaced. */
    method ResetGame(sid: SessionId)
      requires StatesWellFormed()
      requires sid in games ==> HasFreeCell(games[sid])
      modifies this`games
      ensures StatesWellFormed()
      ensures sid in games && games == old(games)[sid := games[sid]]
      ensures games[sid].playerSnake == [(5, 5)] && games[sid].aiSnake == [(10, 10)]
      ensures games[sid].playerDirection == Right && games[sid].aiDirection == Left
      ensures !games[sid].running
      ensures sid in old(games) ==> IsFree(old(games[sid]), games[sid].food)
      ensures sid !in old(games) ==> games[sid].food == (10, 10)
    {
      var food: Cell;
      if sid in games {
        food := NewFood(games[sid]);
      } else {
        food := AI_START;
      }
      InitialWellFormed(food);
      games := games[sid := Initial(food)];
    }

    /** `move_snake` for the player's (`isPlayer`) or the AI's snake of
        session `sid`: on a wall, self or opponent hit, announce the other
        party and reset the session; otherwise append the new head and drop
        the tail unless the head is on the food. */
    method MoveSnake(sid: SessionId, direction: Direction, isPlayer: bool) returns (ghost over: seq<Party>)
      requires StatesWellFormed() && sid in games
      requires Advance(games[sid], direction, isPlayer).Crash? ==> HasFreeCell(games[sid])
      modifies this`games, this`events
      ensures StatesWellFormed()
      ensures sid in games && games == old(games)[sid := games[sid]]
      ensures MoveStep(old(games[sid]), direction, isPlayer, games[sid], over)
      ensures events == old(events) + Announcements(sid, over)
    {
      var s := games[sid];
      var snake := if isPlayer then s.playerSnake else s.aiSnake;
      var (dx, dy) := Delta(direction);
      var newHead := (snake[|snake| - 1].0 + dx, snake[|snake| - 1].1 + dy);
      var winner := if isPlayer then AI else Player;
      if newHead.0 < 0 || newHead.0 >= GRID_SIZE || newHead.1 < 0 || newHead.1 >= GRID_SIZE {
        events := events + [Emitted(sid, GameOver(winner))];
        ResetGame(sid);
        over := [winner];
        return;
      }
      if newHead in snake {
        events := events + [Emitted(sid, GameOver(winner))];
        ResetGame(sid);
        over := [winner];
        return;
      }
      var opponent := if isPlayer then s.aiSnake else s.playerSnake;
      if newHead in opponent {
        events := events + [Emitted(sid, GameOver(winner))];
        ResetGame(sid);
        over := [winner];
        return;
      }
      snake := snake + [newHead];
      if newHead != s.food {
        snake := snake[1..];
      }
      over := [];
      MoveStepWellFormed(s, direction, isPlayer, WithOwn(s, isPlayer, snake), over);
      games := games[sid := WithOwn(s, isPlayer, snake)];
    }

    /** `ai_choose_move` on session `sid`: choose greedily and write the
        choice back as the AI's heading. */
    method AiChooseMove(sid: SessionId) returns (best: Direction)
      requires StatesWellFormed() && sid in games
      modifies this`games
      ensures StatesWellFormed()
      ensures IsGreedyChoice(old(games[sid]), best)
      ensures games == old(games)[sid := old(games[sid]).(aiDirection := best)]
    {
      best := ChooseMove(games[sid]);
      games := games[sid := games[sid].(aiDirection := best)];
    }

    /** The feeding check for one snake of session `sid`: a head on the food
        gets the food cell appended, and a new food cell is drawn. */
    method Feed(sid: SessionId, isPlayer: bool)
      requires StatesWellFormed() && sid in games && |Occupied(games[sid])| < GRID_CELLS
      modifies this`games
      ensures StatesWellFormed()
      ensures sid in games && games == old(games)[sid := games[sid]]
      ensures FeedStep(old(games[sid]), isPlayer, games[sid])
      ensures Occupied(games[sid]) == Occupied(old(games[sid]))
    {
      var s := games[sid];
      var snake := if isPlayer then s.playerSnake else s.aiSnake;
      if snake[|snake| - 1] == s.food {
        var grown := WithOwn(s, isPlayer, snake + [s.food]);
        games := games[sid := grown];
        assert Occupied(grown) == Occupied(s);
        RoomGivesFreeCell(grown);
        var food := NewFood(grown);
        games := games[sid := grown.(food := food)];
      }
      FeedStepWellFormed(s, isPlayer, games[sid]);
    }

    /** The two moves of `update_game`: the player's snake along its heading,
        then the AI's along the direction chosen on the state that move left. */
    method MoveBoth(sid: SessionId) returns (ghost afterPlayer: GameState, ghost playerOver: seq<Party>,
                                             choice: Direction, ghost aiOver: seq<Party>)
      requires StatesWellFormed() && sid in games && |Occupied(games[sid])| + 2 < GRID_CELLS
      modifies this`games, this`events
      ensures StatesWellFormed()
      ensures sid in games && games == old(games)[sid := games[sid]]
      ensures MoveStep(old(games[sid]), old(games[sid]).playerDirection, true, afterPlayer, playerOver)
      ensures IsGreedyChoice(afterPlayer, choice)
      ensures MoveStep(afterPlayer.(aiDirection := choice), choice, false, games[sid], aiOver)
      ensures events == old(events) + Announcements(sid, playerOver + aiOver)
      ensures |Occupied(games[sid])| < GRID_CELLS
    {
      ghost var g0 := games;
      ghost var s0 := games[sid];
      ghost var e0 := events;
      RoomGivesFreeCell(s0);
      playerOver := MoveSnake(sid, games[sid].playerDirection, true);
      afterPlayer := games[sid];
      MoveStepOccupancy(s0, s0.playerDirection, true, afterPlayer, playerOver);

      choice := AiChooseMove(sid);
      ghost var chosen := games[sid];
      UpdateTwice(g0, sid, afterPlayer, chosen);
      OccupiedBySnakes(chosen, afterPlayer);
      RoomGivesFreeCell(chosen);
      aiOver := MoveSnake(sid, choice, false);
      MoveStepOccupancy(chosen, choice, false, games[sid], aiOver);
      UpdateTwice(g0, sid, chosen, games[sid]);
      AnnouncementsAppend(sid, playerOver, aiOver);
      SeqAssoc(e0, Announcements(sid, playerOver), Announcements(sid, aiOver));
    }

    /** `update_game`: nothing for an unknown session; otherwise move the
        player, choose and move the AI, run both feeding checks and publish
        the state. Every food draw of the tick needs a free cell; two cells
        to spare before the tick are enough, since each move covers at most
        one new cell. */
    method UpdateGame(sid: SessionId) returns (ghost tr: TickTrace)
      requires Valid()
      requires sid in games ==> |Occupied(games[sid])| + 2 < GRID_CELLS
      modifies this`games, this`events
      ensures Valid()
      ensures sid !in old(games) ==> games == old(games) && events == old(events)
      ensures sid in old(games) ==>
        && IsTick(old(games[sid]), tr)
        && games == old(games)[sid := tr.after]
        && IsFree(tr.after, tr.after.food)
        && events == old(events) + Announcements(sid, tr.playerOver + tr.aiOver)
                     + [Emitted(sid, GameUpdate(tr.after))]
    {
      if sid !in games {
        tr :| true;  // no tick happens; the trace is irrelevant
        return;
      }
      ghost var g0 := games;
      var s1, o1, choice, o2 := MoveBoth(sid);
      ghost var s2 := games[sid];
      Feed(sid, true);
      ghost var s3 := games[sid];
      UpdateTwice(g0, sid, s2, s3);
      Feed(sid, false);
      UpdateTwice(g0, sid, s3, games[sid]);
      events := events + [Emitted(sid, GameUpdate(games[sid]))];
      tr := TickTrace(s1, o1, choice, s2, o2, s3, games[sid]);
      TickLeavesFoodFree(g0[sid], tr);
    }

    /** `handle_connect`: set the session up in the starting layout. */
    method Connect(sid: SessionId)
      requires Valid()
      requires sid in games ==> HasFreeCell(games[sid])
      modifies this`games
      ensures Valid()
      ensures sid in games && games == old(games)[sid := games[sid]]
      ensures games[sid] == Initial(games[sid].food)
      ensures sid in old(games) ==> IsResetOf(old(games[sid]), games[sid])
      ensures sid !in old(games) ==> games[sid].food == AI_START
    {
      ResetGame(sid);
    }

    /** `handle_disconnect`, its effect on the registries: the session's
        game state and its loop entry are both removed. */
    method Disconnect(sid: SessionId)
      requires Valid()
      modifies this`games, this`threads
      ensures Valid()
      ensures games == old(games) - {sid} && threads == old(threads) - {sid}
      ensures !LoopRuns(sid)
    {
      if sid in games {
        games := games - {sid};
      }
      if sid in threads {
        threads := threads - {sid};
      }
    }

    /** `handle_player_move`: only an existing session and a key of the
        DIRECTIONS table change anything, and then only the player's heading. */
    method PlayerMove(sid: SessionId, direction: string)
      requires Valid()
      modifies this`games
      ensures Valid()
      ensures if sid in old(games) && ParseDirection(direction).Some? then
          games == old(games)[sid := old(games[sid]).(playerDirection := ParseDirection(direction).value)]
        else
          games == old(games)
    {
      var d := ParseDirection(direction);
      if sid in games && d.Some? {
        games := games[sid := games[sid].(playerDirection := d.value)];
      }
    }

    /** The `reset_game` handler: reset and publish. A running loop is not
        stopped: its registry flag is left as it was. */
    method Reset(sid: SessionId)
      requires Valid()
      requires sid in games ==> HasFreeCell(games[sid])
      modifies this`games, this`events
      ensures Valid()
      ensures sid in games && games == old(games)[sid := games[sid]]
      ensures games[sid] == Initial(games[sid].food) && !games[sid].running
      ensures sid in old(games) ==> IsResetOf(old(games[sid]), games[sid])
      ensures sid !in old(games) ==> games[sid].food == AI_START
      ensures events == old(events) + [Emitted(sid, GameUpdate(games[sid]))]
      ensures old(LoopRuns(sid)) ==> LoopRuns(sid)
    {
      ResetGame(sid);
      events := events + [Emitted(sid, GameUpdate(games[sid]))];
    }

    /** The `start_game` handler: only a session that exists and is not
        running is started; it is flagged running in both places and
        published. */
    method Start(sid: SessionId)
      requires Valid()
      modifies this`games, this`threads, this`events
      ensures Valid()
      ensures if sid in old(games) && !old(games[sid]).running then
          && games == old(games)[sid := old(games[sid]).(running := true)]
          && threads == old(threads)[sid := true]
          && events == old(events) + [Emitted(sid, GameUpdate(games[sid]))]
          && LoopRuns(sid)
        else
          games == old(games) && threads == old(threads) && events == old(events)
    {
      if sid in games && !games[sid].running {
        games := games[sid := games[sid].(running := true)];
        threads := threads[sid := true];
        events := events + [Emitted(sid, GameUpdate(games[sid]))];
      }
    }
  }
}
