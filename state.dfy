/** The per-session game state and the canonical starting layout. */
module State {
  import opened Grid

  /** The two parties of a game; a game over names one of them as the winner. */
  datatype Party = Player | AI

  /** One session's game: both snakes tail first (index 0 is the tail, the
      last entry the head), the food cell, both headings and the run flag. */
  datatype GameState = GameState(
    playerSnake: seq<Cell>,
    aiSnake: seq<Cell>,
    food: Cell,
    playerDirection: Direction,
    aiDirection: Direction,
    running: bool)

  /** START_POSITION: the player's starting body. */
  const START_POSITION: seq<Cell> := [(5, 5)]

  /** The AI's starting cell, also the food of a brand-new session. */
  const AI_START: Cell := (10, 10)

  /** The layout a reset installs, around a given food cell. */
  function Initial(food: Cell): GameState
  {
    GameState(START_POSITION, [AI_START], food, Right, Left, false)
  }

  function Last<T>(s: seq<T>): T
    requires |s| > 0
  {
    s[|s| - 1]
  }

  /** The snake that moves (`isPlayer` selects which) and the one it may run into. */
  function Own(s: GameState, isPlayer: bool): seq<Cell>
  {
    if isPlayer then s.playerSnake else s.aiSnake
  }

  function Opponent(s: GameState, isPlayer: bool): seq<Cell>
  {
    if isPlayer then s.aiSnake else s.playerSnake
  }

  function WithOwn(s: GameState, isPlayer: bool, snake: seq<Cell>): GameState
  {
    if isPlayer then s.(playerSnake := snake) else s.(aiSnake := snake)
  }

  /** A cell `new_food` may return for this state: in bounds and on neither snake. */
  predicate IsFree(s: GameState, c: Cell)
  {
    InBounds(c) && c !in s.playerSnake && c !in s.aiSnake
  }

  /** What `new_food`'s sampling loop needs in order to stop. */
  ghost predicate HasFreeCell(s: GameState)
  {
    exists c :: IsFree(s, c)
  }

  /** The cells covered by either snake. */
  ghost function Occupied(s: GameState): set<Cell>
  {
    set c | c in s.playerSnake + s.aiSnake
  }

  /** Consecutive entries of a snake are equal or one step apart. */
  predicate Linked(snake: seq<Cell>)
  {
    forall i :: 0 < i < |snake| ==> Manhattan(snake[i - 1], snake[i]) <= 1
  }

  predicate SnakeOk(snake: seq<Cell>)
  {
    |snake| > 0 && (forall c :: c in snake ==> InBounds(c)) && Linked(snake)
  }

  /** What every stored game state satisfies: both snakes non-empty, on the
      grid and linked, and the food on the grid. The food is NOT required to
      be off the snakes: a reset may put it on one. */
  predicate WellFormed(s: GameState)
  {
    SnakeOk(s.playerSnake) && SnakeOk(s.aiSnake) && InBounds(s.food)
  }

  lemma InitialWellFormed(food: Cell)
    requires InBounds(food)
    ensures WellFormed(Initial(food))
    ensures Occupied(Initial(food)) == {(5, 5), (10, 10)}
    ensures |Occupied(Initial(food))| == 2
  {
    assert Occupied(Initial(food)) == {(5, 5), (10, 10)};
  }

  /** Enough empty cells on the grid guarantee that a food draw succeeds. */
  lemma RoomGivesFreeCell(s: GameState)
    requires |Occupied(s)| < GRID_CELLS
    ensures HasFreeCell(s)
  {
    FreeCellExists(Occupied(s));
    var c :| InBounds(c) && c !in Occupied(s);
    assert IsFree(s, c);
  }

  /** Where the food may be between events: off both snakes, or anywhere in
      the layout a reset has just installed (a new session's food is even on
      the AI's cell). */
  predicate FoodSettled(s: GameState)
  {
    IsFree(s, s.food) || (s.playerSnake == START_POSITION && s.aiSnake == [AI_START])
  }

  /** The state `reset_game` installs for a new session has its food on the
      AI's head: not a cell `new_food` could return, yet settled. */
  lemma NewSessionFoodOnAi(s: GameState)
    requires s.playerSnake == [(5, 5)] && s.aiSnake == [(10, 10)] && s.food == (10, 10)
    ensures s.food in s.aiSnake && !IsFree(s, s.food)
    ensures FoodSettled(s)
  {
  }

  /** A reset of an existing session draws the food against the OLD snakes,
      so it may land on a starting cell of the new layout. */
  lemma ResetFoodMayOverlap()
    ensures var prev := GameState([(0, 0)], [(1, 1)], (3, 3), Up, Up, true);
            IsFree(prev, (5, 5)) && (5, 5) in Initial((5, 5)).playerSnake
  {
  }

  /** Only the snakes decide which cells are occupied. */
  lemma OccupiedBySnakes(s: GameState, t: GameState)
    requires s.playerSnake == t.playerSnake && s.aiSnake == t.aiSnake
    ensures Occupied(s) == Occupied(t)
  {
  }
}
