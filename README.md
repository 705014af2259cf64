# Snake game engine — a Dafny model

This project models the game engine of a websocket Snake server, `backend/app.py`. Each connected client session has its own game. A player-steered snake and a greedy AI snake share a 20×20 grid. On every tick the engine does four things:

- moves the player's snake;
- lets the AI choose a direction and moves the AI's snake;
- applies the feeding rules;
- publishes the state to the session.

A collision with the wall, with the snake's own body or with the opponent ends the game. The engine then announces the other party as the winner and resets the session to the starting layout.

The model has six modules, one file each:

- `grid.dfy` (`Grid`): the grid and its bounds; the `DIRECTIONS` table as a datatype with its string keys. It also gives Python's string order, which the AI uses to break ties, and a counting lemma: fewer than 400 occupied cells always leave a free cell.
- `state.dfy` (`State`): the per-session `GameState`; the starting layout; the cells the snakes occupy; the well-formedness invariant that every stored state keeps (both snakes non-empty, on the grid and linked cell to cell).
- `movement.dfy` (`Movement`): `move_snake` as the function `Advance`. Collisions are tested in the order wall, self, opponent. `MoveStep` is the state change the call causes.
- `ai.dfy` (`Ai`): `ai_choose_move`. The method `ChooseMove` has the source's loop over the table, and the function `MinChoice` is Python's `min` over `(distance, name)` tuples. `ChooseMove` is proved against the declarative predicate `IsGreedyChoice`.
- `tick.dfy` (`Tick`): one `update_game` tick as the relation `IsTick`. It links the state before the tick to the state after each step, and the lemmas about eating, collisions and ordering are stated over it.
- `server.dfy` (`Server`): the `Registry` class. It holds the two registries of the source, `games` and `game_threads`, plus the log of emitted events that stands in for `socketio.emit`. Its methods are `reset_game`, `move_snake`, `ai_choose_move`, the feeding checks, `update_game` and the five socket handlers. `NewFood` is `new_food`.

Food is drawn at random in the source. Here `NewFood` may return any cell on the grid that lies on neither snake. This is the draw at which the source's rejection loop stops.

Behaviour kept as the code has it, even where a reader might expect otherwise:

- **Ties between directions.** The AI breaks ties by comparing direction names as strings. Alphabetical order wins (down < left < right < up), not table order. `Ai.FreshLayoutAiTurnsDown`: in a fresh session the AI's first move is down, not up.
- **Self-collision includes the tail.** The self test checks the whole body before the move, so stepping onto your own tail loses (`Movement.TailCellIsSelfHit`).
- **Eating grows a snake by two entries.** The move keeps the tail, and the feeding check appends the food cell again. The last two cells of the body are then equal, so cells in a snake are not always distinct (`Tick.PlayerEatsGrowsByTwo`, `Tick.FirstBite`).
- **The food can lie on a snake, but only between a reset and the next tick.** In a new session the food is (10, 10), the AI's own cell (`State.NewSessionFoodOnAi`). A reset of an existing session draws the food against the old snakes, so it may land on (5, 5) or (10, 10) (`State.ResetFoodMayOverlap`). The next tick always ends with the food on neither snake (`Tick.TickLeavesFoodFree`). The registry's invariant `Server.Registry.Valid` records this: every stored food cell is either free or in a layout a reset has just installed (`State.FoodSettled`).
- **A collision does not end the tick.** After the player's collision resets the session, the AI still chooses and moves on the fresh layout. The feeding checks and the publish then run as well. So the state published at the end of that tick is not the starting layout (`Tick.PlayerCrashStillMovesAi`).
- **The AI sees the player's new head.** The player moves first, and the AI chooses on the result (`Tick.AiSeesPlayersNewHead`).
- **Reset does not stop a running loop.** A reset clears `running` in the game state but leaves the loop's registry flag alone (`Server.Registry.Reset`).

## Model

| member | source | states |
|---|---|---|
| Grid.ParseDirection | backend/app.py:185 | the `direction in DIRECTIONS` test. A string is accepted exactly when it is the key of some direction, and then it gives that direction |
| Grid.ParseName | backend/app.py:185-186 | the key of every direction passes the `in DIRECTIONS` test and gives that direction back |
| Grid.NameOrder | backend/app.py:129 | comparing direction names as Python strings ranks them down < left < right < up |
| Grid.StrLessIrreflexive | backend/app.py:129 | no string is smaller than itself in Python's string order |
| Grid.FreeCellExists | backend/app.py:32-35 | with fewer than 400 cells occupied, some cell on the 20×20 grid is free, so the sampling loop of `new_food` can stop |
| Grid.CellsBelowCount | backend/app.py:16 | the first n cells of the grid in row-major order are n distinct cells. With `Grid.CellsBelowInBounds` this gives the 400 in-bounds cells the pigeonhole argument counts |
| Grid.CellsBelowInBounds | backend/app.py:16 | each of the first n ≤ 400 row-major cells is on the 20×20 grid |
| State.RoomGivesFreeCell | backend/app.py:32-35 | a state covering fewer than 400 cells has a cell that `new_food` may return |
| State.InitialWellFormed | backend/app.py:49-56 | the starting layout is well formed and covers exactly (5, 5) and (10, 10) |
| State.NewSessionFoodOnAi | backend/app.py:49-52 | the state `reset_game` installs for a new session has its food on the AI's head, so it is not a cell `new_food` could return, yet it is settled |
| State.ResetFoodMayOverlap | backend/app.py:52 | a food cell that is free for the old state can lie on the new layout's player cell |
| Movement.CollisionOrder | backend/app.py:74-93 | wall when the new head is off the grid; else self when it is anywhere in the moving snake; else opponent when it is in the other snake; otherwise the snake moves |
| Movement.MovedShape | backend/app.py:70-98 | a successful move puts the new head one step from the old head. It drops index 0 unless the head lands on the food, so the length stays the same, or grows by one on food |
| Movement.MovedChangesOnlyOwn | backend/app.py:95-98 | a successful move changes only the moving snake; the opponent, food, headings and run flag stay the same |
| Movement.SingleCellNeverHitsItself | backend/app.py:81 | a one-cell snake never collides with itself |
| Movement.TailCellIsSelfHit | backend/app.py:81 | in the example, a four-cell snake curled in a square moves onto its own tail cell, and that is a self-collision. `Movement.CollisionOrder` gives the general fact: any body cell, the tail included, counts |
| Movement.LeftEdgeIsWall | backend/app.py:74-78 | a head in column 0 moving left hits the wall, names the other party as the winner and leaves the reset layout |
| Movement.MoveStepWellFormed | backend/app.py:95-98 | a move keeps the state well formed: snakes non-empty, on the grid, linked cell to cell |
| Movement.MovedOccupancy | backend/app.py:95-98 | a successful move covers at most its new head beyond the cells covered before |
| Movement.MoveStepOccupancy | backend/app.py:58-98 | any move, a reset included, covers at most one more cell than before |
| Ai.MinChoice | backend/app.py:129 | Python's `min` over `(distance, name)` tuples returns one of the options, and no option is smaller than it |
| Ai.ChoiceLessIsStrictOrder | backend/app.py:129 | the comparison of `(distance, name)` tuples is irreflexive and transitive, and total on different directions |
| Ai.ChooseMove | backend/app.py:112-131 | with a candidate (a neighbour on the grid and on neither snake), it returns a candidate at minimum Manhattan distance to the food, alphabetically first among the ties. With none, it returns the current AI heading |
| Ai.GreedyChoiceUnique | backend/app.py:125-131 | the greedy choice is determined by the state |
| Ai.GreedyChoiceIsSafe | backend/app.py:121-123 | when a candidate exists, the chosen cell is on the grid and on neither snake |
| Ai.FreshLayoutAiTurnsDown | backend/app.py:118-129 | with the food on the AI's start cell, all four neighbours tie and the AI turns down |
| Tick.FeedStepWellFormed | backend/app.py:250-256 | a feeding check keeps the state well formed and the occupied cells unchanged |
| Tick.TickWellFormed | backend/app.py:244-256 | every state a tick passes through is well formed |
| Tick.PlayerEatsGrowsByTwo | backend/app.py:247-256 | a player whose move lands on the food ends the tick with the old food cell appended twice. The AI does not eat, and the new food is on neither snake |
| Tick.AiEatsGrowsByTwo | backend/app.py:248-256 | an AI whose move lands on the food of the state it moves from ends the tick with that food cell appended twice to the body it moved from. This holds whether or not the player's collision reset that state first. The player did not eat, and the new food is on neither snake |
| Tick.AiEatsWithoutCollision | backend/app.py:247-256 | in a tick without collisions, an AI that eats ends with the food of the state before the tick appended twice, and the player's head was not on that food |
| Tick.AiEatsAfterPlayerCrash | backend/app.py:247-256 | in the example, the player hits the wall and the reset food is drawn just below the AI. The AI turns down and eats in the same tick, ending as [(10,10), (10,11), (10,11)] |
| Tick.AtMostOneEater | backend/app.py:250-256 | in a tick without collisions, the player and the AI do not both eat |
| Tick.NoFoodNoFeeding | backend/app.py:250-256 | when neither head lands on the food, the feeding checks change nothing and both lengths stay the same |
| Tick.PlayerCrashStillMovesAi | backend/app.py:247-258 | after a player collision the AI still moves on the reset layout without colliding, so the published AI head is not (10, 10) |
| Tick.LeftWallTick | backend/app.py:247 | a player in column 0 heading left announces the AI as the winner, and the session is reset with food drawn against the old state |
| Tick.AiSeesPlayersNewHead | backend/app.py:247-248 | the AI chooses on the state after the player's move. In the example it would go left on the state before the tick, and it goes down |
| Tick.BeforeTickAiGoesLeft | backend/app.py:118-129 | the greedy choice in the example state before the tick is left |
| Tick.AfterPlayerMoveAiGoesDown | backend/app.py:118-129 | the greedy choice in the example state after the player's move is down |
| Tick.MoveKeepsFoodOffBody | backend/app.py:58-98 | a move of a one-cell snake, or of a snake off the food, leaves the food at most on that snake's new head and does not move the food. A collision leaves both snakes ready to move |
| Tick.FeedingLeavesFoodFree | backend/app.py:250-256 | when the food lies at most on the heads, the two feeding checks end with the food on neither snake |
| Tick.TickLeavesFoodFree | backend/app.py:244-256 | a tick that starts with the food free, or in a freshly reset layout, ends with the food on the grid and on neither snake |
| Tick.FirstBite | backend/app.py:247-256 | with food one step right of the player in the starting layout, the first tick leaves the player as [(5,5), (6,5), (6,5)] and the food on neither snake |
| Server.NewFood | backend/app.py:24-35 | the returned food cell is on the grid and on neither snake |
| Server.Registry.constructor | backend/app.py:21-22 | both registries and the event log start empty |
| Server.Registry.ResetGame | backend/app.py:37-56 | the session holds [(5,5)] and [(10,10)], headings right and left, not running. The food is (10, 10) for a new id, else a cell free in the replaced state. Other sessions are unchanged |
| Server.Registry.MoveSnake | backend/app.py:58-98 | on a collision, one game over naming the other party, then the reset layout with food drawn against the pre-move state. Otherwise the moved snake and no event |
| Server.Registry.AiChooseMove | backend/app.py:100-134 | returns the greedy choice and writes it to the AI's heading; nothing else changes |
| Server.Registry.Feed | backend/app.py:250-256 | a head on the food gets the food cell appended and a new food cell off both snakes; otherwise nothing changes |
| Server.Registry.MoveBoth | backend/app.py:247-248 | the player moves first. The AI's direction is chosen on the resulting state and written back, then the AI moves. The events are the game overs of both moves, in order |
| Server.Registry.UpdateGame | backend/app.py:229-258 | an unknown session changes nothing. Otherwise the new state is the end of a tick from the old one, and its food is on neither snake. The events are that tick's game overs followed by exactly one game update carrying the new state. The registry invariant (well-formed states, food settled) is kept |
| Server.Registry.Connect | backend/app.py:146-148 | the session is installed in the starting layout. The food is (10, 10) for a new id; for an existing id it is a cell free in the replaced state |
| Server.Registry.Disconnect | backend/app.py:160-172 | the session is removed from both registries, so its loop guard is false |
| Server.Registry.PlayerMove | backend/app.py:184-186 | only an existing session and a direction key change anything, and then only the player's heading |
| Server.Registry.Reset | backend/app.py:198-201 | resets as `reset_game` does, emits one game update with the new state, and leaves a running loop's flag set |
| Server.Registry.Start | backend/app.py:215-227 | only an existing, not running session is started. It is flagged running in the game state and in the loop registry, and one game update is emitted; otherwise nothing changes |
| Grid.DirectionOrderComplete | backend/app.py:18 | the iteration order of the `DIRECTIONS` table (up, down, left, right, kept as `DIRECTION_ORDER`) lists every direction |
| Grid.InBounds | backend/app.py:74 | definition (no contract): both coordinates in 0 .. GRID_SIZE - 1, the wall test at line 74 and the bounds test at line 121 |
| Grid.Step | backend/app.py:72 | definition (no contract): the cell one `DIRECTIONS` offset away, as computed at lines 72 and 119 |
| State.IsFree | backend/app.py:34 | definition (no contract): on the grid and on neither snake, the acceptance test of `new_food` and the candidate filter at lines 121-123 |
| Movement.NewHead | backend/app.py:72 | definition (no contract): the moving snake's head stepped in the given direction |
| Movement.Winner | backend/app.py:76 | definition (no contract): the other party, the winner named in the `game_over` emits at lines 76, 83 and 91 |
| Ai.ChoiceLess | backend/app.py:129 | definition (no contract): Python's `<` on `(distance, name)` tuples, which `min` uses: distance first, then the name as a string |
| Ai.IsCandidate | backend/app.py:121-123 | definition (no contract): the neighbour in that direction is on the grid and on neither snake |
| Ai.Distance | backend/app.py:125 | definition (no contract): the Manhattan distance from that neighbour to the food |
| Grid.Delta | backend/app.py:18 | definition (no contract): the offset of each direction in the `DIRECTIONS` table |
| Grid.Name | backend/app.py:18 | definition (no contract): the string key of each direction in the `DIRECTIONS` table |
| Grid.StrLess | backend/app.py:129 | definition (no contract): Python's lexicographic string comparison, used by `min` to break ties |
| State.Initial | backend/app.py:49-56 | definition (no contract): the layout `reset_game` installs around a given food cell |
| State.FoodSettled | backend/app.py:52 | definition (no contract): the food is on the grid and on neither snake, or the snakes are in the reset layout |
| Movement.Advance | backend/app.py:70-98 | definition (no contract): the outcome of `move_snake`, either a collision class or the moving snake's new body |
| Movement.IsResetOf | backend/app.py:52 | definition (no contract): the reset layout, with food free in the state being replaced |
| Movement.MoveStep | backend/app.py:58-98 | definition (no contract): the state after a `move_snake` call and the winners it announces |
| Ai.IsGreedyChoice | backend/app.py:118-131 | definition (no contract): a candidate at minimum distance, alphabetically first among ties; the current heading when there is no candidate |
| Tick.FeedStep | backend/app.py:250-256 | definition (no contract): one feeding check, with the food cell appended and a free cell drawn when the head is on the food |
| Tick.IsTick | backend/app.py:244-256 | definition (no contract): one `update_game` tick as a chain of moves, the AI's choice and the feeding checks |
| Server.Announcements | backend/app.py:76 | one `game_over` event per winner, in order, to the session's room; this is the emit shared by the three collision branches at lines 76, 83 and 91 |
| Server.Registry.LoopRuns | backend/app.py:271 | definition (no contract): the guard of `game_loop`, true when the session exists and its loop registry entry is flagged running |
| Server.Registry.Valid | backend/app.py:21 | definition (no contract): every stored game state is well formed and has its food settled |

## Left out

- Flask, Socket.IO, eventlet, CORS, logging and server start-up are framework setup. An emit is modelled only as an entry appended to `Registry.events`, addressed to the session's room.
- Threads are left out: creating and starting them in `start_game`, the `join` and current-thread check in disconnect, and the one-second `game_loop` with its sleep. This is concurrency and timing. Only the loop's guard is modelled (`LoopRuns`), and the thread registry keeps only each entry's `running` flag, not the thread object.
- The two `running` flags (game state and thread registry) are recorded but not reasoned about as a thread lifecycle. That includes a `start_game` after a reset while an old loop is still running.
- Interleavings between handlers and a running loop are not modelled; every operation runs to completion on its own.
- `random.randint` is not modelled. `NewFood` may return any free cell, which is the draw that ends the source's rejection loop. The loop's retries and its distribution are not modelled.
- `Server.Registry.UpdateGame`: requires two free cells to spare before the tick (occupied cells + 2 < 400) rather than exactly a free cell at each food draw. On a grid with no free cell the source's `new_food` would loop forever.
- `Server.NewFood`, `Server.Registry.ResetGame`, `Server.Registry.Connect`, `Server.Registry.Reset`, `Server.Registry.MoveSnake`: require a free cell in the state they draw the food against, for the same reason.
- `Server.Registry.Feed`: requires fewer than 400 occupied cells, so that its food draw finds a free cell, for the same reason.
- `Server.Registry.MoveBoth`: requires two cells to spare, so that a reset draw in either move finds a free cell, for the same reason.
- The model takes the `player_move` direction as a string, so two Python failures are not modelled. A payload without a `direction` key raises a `KeyError`. An unhashable value, such as a JSON list or object, makes the `in DIRECTIONS` test raise a `TypeError` rather than be ignored. Any other non-string value is not a key and is ignored.
- `update_game` falling back to `request.sid` when called without a session id is request plumbing; the model always passes the session id.
- A `game_update` event carries the state as a value; the JSON serialisation of the dictionary is not modelled.
