# A platformer's game logic in Dafny

This project models the game logic of a small two-room pygame platformer. Every sprite is an integer rectangle. It covers four pieces:

- **The level-grid parser** (`Game.setup_level`). It turns rows of characters into entities:
  - `X` becomes a 32×32 platform.
  - `D` becomes a door 32 wide and 64 tall.
  - `E` becomes an enemy whose patrol bounds lie 64 pixels either side of its tile's left edge. Since it turns when its right edge reaches the end bound, it sweeps two tiles to the left of its tile and one tile to the right.
  - `P` moves the existing player to that tile.
- **The player's per-frame physics** (`Player.update` and its commands). This is an axis-ordered resolver:
  1. gravity;
  2. the horizontal move, then a clamp against every platform hit;
  3. the vertical move, then a clamp, with the ground flag recomputed;
  4. a floor at y = 600.
- **The enemies' patrol** (`Enemy.update`): move by the velocity, and turn around when an edge reaches a bound.
- **The room state machine and the input rules** (`Game.update`, `Game.handle_events`):
  - A door in room 1 leads to room 2.
  - Touching an enemy ends the game.
  - Releasing a direction key stops the player only if it is moving that way.

Each object the source updates in place is a class: `Players.Player`, `Enemies.Enemy` and `GameLoop.Game`. Each class has a pure view of its state: `State()`, or `View()` for the game. Each method is proved to take the view to a specification function of the old view:

| class and method | specification function |
|---|---|
| `Player.Update` | `Players.Step` |
| `Enemy.Update` | `Enemies.PatrolStep` |
| `Game.SetupLevel` | `GameLoop.Setup` over `Levels.GridScan` |
| `Game.Update` | `GameLoop.Tick` |
| `Game.HandleEvents` | `GameLoop.ReactAll` |

The lemmas state what the source promises about those functions. Platforms never change once built, so they are a datatype.

The model rests on the following assumptions about the graphics library:

- **Rectangles.** A rectangle is (x, y, w, h), with right = x + w and bottom = y + h. Assigning an edge translates the rectangle and keeps its size.
- **Collision lists.** A collision query returns the group members that *strictly* overlap, in the group's insertion order. It is computed once, before each loop over it.
- **Float to integer.** The library's conversion of a fractional y to an integer coordinate is a parameter `toInt`. The vertical properties are stated in terms of the rectangle after that move.

## Model

| member | source | states |
|---|---|---|
| Geometry.Rect.WithRight | player.py:31 | assigning the right edge puts it at the given value; y and size are unchanged |
| Geometry.Rect.WithLeft | player.py:33 | assigning the left edge puts it at the given value; y and size are unchanged |
| Geometry.Rect.WithBottom | player.py:45 | assigning the bottom edge puts it at the given value; x and size are unchanged |
| Geometry.Rect.WithTop | player.py:48 | assigning the top edge puts it at the given value; x and size are unchanged |
| Geometry.Overlaps | player.py:28 | the collision test: two rectangles collide when each one's left edge is left of the other's right edge and each one's top is above the other's bottom; rectangles whose edges only touch do not collide |
| Geometry.HitList | player.py:28 | the collision list holds exactly the group members whose rectangle strictly overlaps, and is no longer than the group |
| Geometry.HitListFirst | player.py:42-43 | the first hit is the first member in insertion order that overlaps; no earlier member overlaps |
| Geometry.HitListLast | player.py:28-29 | the last hit is the last member in insertion order that overlaps; no later member overlaps |
| GamePlatform.NewPlatform | game_platform.py:6-13 | a new platform's top-left corner is (x, y), its size is width by height (so right = x + width, bottom = y + height), and it keeps its colour |
| GamePlatform.ColorDoesNotAffectGeometry | game_platform.py:9-13 | two platforms that differ only in colour occupy the same rectangle |
| Enemies.Enemy.constructor | enemy.py:6-16 | a new enemy is a 32×32 rectangle at (x, y) with velocity 2 and the given patrol bounds |
| Enemies.Spawned | enemy.py:6-16 | the state of a new enemy: a 32×32 rectangle at (x, y), velocity 2, the given patrol bounds |
| Enemies.ParsedBounds | main.py:93 | the patrol bounds the parser gives an enemy whose left edge is at x: two tiles either side of that left edge, (x − 64, x + 64) |
| Enemies.AtBound | enemy.py:21 | the turn test: the right edge has reached or passed the end bound, or the left edge has reached or passed the start bound |
| Enemies.PatrolRun | enemy.py:18-22 | the enemy after n frames: n patrol steps in a row |
| Enemies.Enemy.Update | enemy.py:18-22 | one update takes the enemy's state to `PatrolStep` of the old state |
| Enemies.PatrolStep | enemy.py:18-22 | x moves by exactly the old velocity; y, size and bounds are unchanged; the velocity is negated if and only if, after the move, right ≥ end or left ≤ start |
| Enemies.PatrolAll | main.py:125 | the group update gives every enemy exactly one patrol step, in order |
| Enemies.PatrolKeepsSpeedAndBounds | enemy.py:14-22 | after any number of frames the velocity is the initial one or its negation, and the row, size and bounds are unchanged |
| Enemies.SpawnedIsPatrolling | enemy.py:6-16 | an enemy built with bounds x ± 64 satisfies the patrol invariant |
| Enemies.PatrolStepKeepsPatrolling | enemy.py:18-22 | one patrol step preserves the patrol invariant: left edge within [start, end − width] on the start's parity, and the velocity ±2 never pointing past the bound it stands on |
| Enemies.PatrolRunKeepsPatrolling | enemy.py:18-22 | any number of patrol steps preserve the invariant, the bounds, the row and the size |
| Enemies.PatrolRunAdd | enemy.py:18-22 | a + b frames of patrol are a frames followed by b more |
| Enemies.SweepRight | enemy.py:18-22 | an enemy moving right advances exactly 2 pixels a frame, keeping its bounds, and turns on exactly the frame its right edge meets the end bound |
| Enemies.SweepLeft | enemy.py:18-22 | an enemy moving left retreats exactly 2 pixels a frame, keeping its bounds, and turns on exactly the frame its left edge meets the start bound |
| Enemies.PatrolReachesBothEnds | main.py:93 | an enemy spawned by the parser with its left edge at x reaches x + 32 after 16 frames and turns left there, then reaches x − 64 48 frames later and turns right: it sweeps one tile right of its tile and two tiles left |
| Enemies.EnemyStaysWithinBounds | main.py:93 | an enemy spawned by the parser at (x, y) keeps, for ever, its whole rectangle inside [x − 64, x + 64] and its left edge in [x − 64, x + 32], at row y, with speed 2 |
| Players.Gravity | player.py:57-61 | a zero vertical velocity becomes exactly 1; any other grows by exactly 0.35 |
| Players.Initial | player.py:9-18 | the state of a new player: a 32×32 rectangle at (x, y), both velocities 0, not on the ground |
| Players.Jumped | player.py:63-66 | jumping sets the vertical velocity to −10 when on the ground, and otherwise changes nothing |
| Players.Running | player.py:68-75 | the run and stop commands set the horizontal velocity and change no other field |
| Players.Hits | player.py:28 | `spritecollide` against the platform group: `Geometry.HitList` on the platforms' rectangles, so exactly the platforms the rectangle strictly overlaps, in insertion order |
| Players.PushOutX | player.py:30-33 | one horizontal clamp: moving right puts the right edge on the platform's left edge, moving left puts the left edge on its right edge, standing still changes nothing |
| Players.ResolveX | player.py:29-33 | the horizontal clamps of a hit list applied one after the other, in list order |
| Players.PushOutY | player.py:44-49 | one vertical clamp: falling puts the bottom on the platform's top and sets the ground flag, rising puts the top on its bottom; either way the vertical velocity becomes 0 |
| Players.ResolveY | player.py:43-49 | the vertical clamps of a hit list applied one after the other, in list order, each seeing the velocity the previous one left |
| Players.MovedX | player.py:25 | the rectangle after the horizontal move by the velocity, before any clamp |
| Players.HitsX | player.py:28 | the platforms the horizontally moved rectangle overlaps, in insertion order |
| Players.AfterX | player.py:25-33 | the rectangle after the horizontal move and its clamps |
| Players.MovedY | player.py:36 | the rectangle after the vertical move by the velocity after gravity, converted to integers by `toInt` |
| Players.HitsY | player.py:42 | the platforms the vertically moved rectangle overlaps, in insertion order |
| Players.AfterY | player.py:36-49 | the rectangle, vertical velocity and ground flag after the vertical move, the ground reset and the vertical clamps |
| Players.FloorFires | player.py:52 | the floor fallback fires: after the vertical pass the bottom edge is at or below 600 |
| Players.Step | player.py:20-55 | one frame of the player: gravity, horizontal move and clamps, vertical move, ground reset and clamps, then, if the bottom reached 600, the floor fallback putting the bottom at 600, on the ground, at rest vertically |
| Players.ResolveXLastWins | player.py:28-33 | applying the horizontal clamps of a hit list in order is the same as applying only the last one |
| Players.ResolveYFirstWins | player.py:42-49 | applying the vertical clamps of a hit list in order is the same as applying only the first one, because the first zeroes the velocity |
| Players.StepInvariants | player.py:20-55 | a frame keeps the player's size and horizontal velocity and leaves bottom ≤ 600; when the floor fires, bottom = 600, on the ground, vertical velocity 0 |
| Players.StepHorizontal | player.py:24-33 | x moves by the velocity; with hits, moving right puts the right edge on the last hit's left edge, and moving left puts the left edge on the last hit's right edge |
| Players.StepVertical | player.py:35-49 | each case holds when the floor fallback does not fire: falling onto a first hit whose top is above 600 puts the bottom on its top, sets the ground flag and zeroes the velocity; rising into a first hit low enough that the bumped player stays above 600 puts the top on its bottom and zeroes the velocity; with no hit and the moved bottom above 600, the player is airborne at the moved rectangle with the post-gravity velocity |
| Players.StepOnGround | player.py:38-55 | after a frame the player is on the ground if and only if it fell onto a platform or the floor fallback fired |
| Players.RestingIsFixedPoint | player.py:20-55 | a player at rest on a platform or on the floor, and inside no platform, is left exactly where it is, on the ground |
| Players.RestingIsIdempotent | player.py:20-55 | for such a player, a second frame changes nothing more than the first, and the first does not move it |
| Players.Player.constructor | player.py:9-18 | a new player is a 32×32 rectangle at (x, y), at rest, not on the ground |
| Players.Player.Update | player.py:20-55 | one update takes the player's state to `Step` of the old state; loop invariants tie each clamp loop to `ResolveX`/`ResolveY` over the prefix of hits handled |
| Players.Player.CalcGrav | player.py:57-61 | only the vertical velocity changes, to `Gravity` of the old one |
| Players.Player.Jump | player.py:63-66 | the state becomes `Jumped` of the old state |
| Players.Player.GoLeft | player.py:68-69 | the horizontal velocity becomes −5 and nothing else changes |
| Players.Player.GoRight | player.py:71-72 | the horizontal velocity becomes 5 and nothing else changes |
| Players.Player.Stop | player.py:74-75 | the horizontal velocity becomes 0 and nothing else changes |
| Levels.Placed | main.py:85-87 | with no spawn the player is unchanged; otherwise it moves to the last spawn; only its position changes |
| Levels.PlatformTile | main.py:81-82 | what an `X` at (col, row) becomes: a 32×32 green platform at (32·col, 32·row) |
| Levels.DoorTile | main.py:88-89 | what a `D` at (col, row) becomes: a door at (32·col, 32·row), 32 wide and 64 tall |
| Levels.EnemyTile | main.py:92-93 | what an `E` at (col, row) becomes: a new enemy at (32·col, 32·row) with the parser's bounds |
| Levels.SpawnTile | main.py:85-87 | what a `P` at (col, row) becomes: the position (32·col, 32·row) the player is moved to |
| Levels.Platforms | main.py:79-84 | the platforms a level yields: one 32×32 green platform per `X`, in row-major order |
| Levels.PlayerSpawns | main.py:79-87 | the positions the player is moved to while a level is scanned, one per `P`, in row-major order |
| Levels.Doors | main.py:79-91 | the doors a level yields: one 32×64 door per `D`, in row-major order |
| Levels.EnemySpawns | main.py:79-95 | the enemies a level yields: one per `E`, built as `Levels.EnemyTile` builds it, in row-major order |
| Levels.RowScan | main.py:80-95 | what one row yields for a marker: one entity per column holding it, left to right |
| Levels.GridScan | main.py:79-95 | what a whole level yields for a marker: the rows' yields one after the other, top to bottom |
| Levels.RowScanMembership | main.py:80-95 | a row yields an entity if and only if it is built from a column holding the marker |
| Levels.GridScanMembership | main.py:79-95 | a level yields an entity if and only if it is built from a cell holding the marker |
| Levels.RowScanCount | main.py:80-84 | a row yields exactly one entity per cell holding the marker |
| Levels.GridScanCount | main.py:79-84 | a level yields exactly one entity per cell holding the marker |
| Levels.RowScanLast | main.py:85-87 | the last entity a row yields comes from its last marker |
| Levels.GridScanLast | main.py:85-87 | the last entity a level yields comes from its last marker in row-major order |
| Levels.PlatformsOfLevel | main.py:79-84 | every `X` at (col, row) yields one 32×32 green platform at (32·col, 32·row), nothing else yields one, and there are as many platforms as `X` cells |
| Levels.PlatformOfCell | main.py:81-83 | a cell holding `X` has its platform among the level's platforms |
| Levels.DoorsOfLevel | main.py:88-91 | every `D` at (col, row) yields one door at (32·col, 32·row) of size 32×64, nothing else yields one, and the count matches |
| Levels.EnemiesOfLevel | main.py:92-95 | every `E` at (col, row) yields one enemy at (32·col, 32·row) with bounds 32·col ∓ 64, nothing else yields one, and the count matches |
| Levels.ParsedEnemiesStayWithinBounds | main.py:92-95 | every enemy a level yields patrols for ever with its whole rectangle between its bounds, its left edge within 64 pixels left and 32 right of its spawn, on its row, at speed 2 |
| Levels.PlayerPlacement | main.py:85-87 | with no `P` the player is unchanged; with one, it ends on the last `P` in row-major order |
| Levels.SpawnOnLastMarker | main.py:85-87 | the player ends at (32·col, 32·row) of the last `P` |
| Levels.GridScanSingle | main.py:79-95 | a level with exactly one marker cell yields exactly the one entity built there |
| Levels.Level1SpawnCell | main.py:21-34 | room 1's `P` cells are exactly {(7, 11)}, so column 11, row 7 is also its last `P` |
| Levels.Level1UpperRowsHaveNoDoor | main.py:21-34 | room 1 has no `D` above row 9 |
| Levels.Level1DoorCells | main.py:21-34 | room 1's only `D` is at column 21, row 9 |
| Levels.Level1Layout | main.py:21-34 | room 1 puts the player at (352, 224) and has one door, at (672, 288), 32×64 |
| Levels.Level2Cells | main.py:37-50 | room 2 holds only blanks and `X` apart from its `E` at column 20, row 8 |
| Levels.Level2PlatformAt3And9 | main.py:47 | room 2 has a platform at (96, 288) |
| Levels.Level2Layout | main.py:37-50 | room 2 leaves the player where it is, has no door, and one enemy at (640, 256) patrolling 576 to 704 |
| GameLoop.StartState | main.py:54-69 | the game starts running in room 1 with the player 32×32 at (352, 224), room 1's platforms and enemies, and its one door at (672, 288) |
| GameLoop.Setup | main.py:71-95 | the world after a setup: platforms, doors and enemies replaced by what the level yields, the player moved by the level's `P` cells, everything else kept |
| GameLoop.Start | main.py:54-69 | the world when the game starts: running, room 1, the player created at (50, 536), then room 1 set up |
| GameLoop.React | main.py:105-119 | one event: quit stops the game; pressing left, right or jump runs left, runs right or jumps; releasing left or right stops the player only if it moves that way |
| GameLoop.ReactAll | main.py:104-119 | a frame's events applied in order |
| GameLoop.EnterRoom2 | main.py:131-135 | entering room 2: room 2, its level set up, then the player put at (100, 280) |
| GameLoop.DoorPass | main.py:129-138 | the door trigger: touching any door in room 1 enters room 2; otherwise nothing changes |
| GameLoop.Physics | main.py:122-125 | the player takes its step against the platforms and every enemy its patrol step; platforms and doors stay |
| GameLoop.EnemyCheck | main.py:141-143 | the enemy trigger: touching any enemy stops the game |
| GameLoop.Tick | main.py:121-143 | one update: physics, then the door trigger, then the enemy trigger |
| GameLoop.Frame | main.py:98-102 | one iteration of the main loop: the events, then the update |
| GameLoop.SetupForgetsTheOldRoom | main.py:71-95 | after a setup the platforms, doors and enemies depend on the level alone; the player keeps its size, velocities and ground flag, and with no `P` it is unchanged |
| GameLoop.InputKeepsPlayerSize | main.py:104-119 | input events keep the player 32×32 |
| GameLoop.TickKeepsPlayerSize | main.py:121-143 | an update keeps the player 32×32 |
| GameLoop.FrameKeepsPlayerSize | main.py:97-102 | a whole frame keeps the player 32×32 |
| GameLoop.DoorEntersRoom2 | main.py:129-135 | touching a door in room 1 sets the room to 2, rebuilds room 2's platforms, doors (none) and enemies (one, at (640, 256)), and puts the player at (100, 280) whatever its prior position |
| GameLoop.EnteringRoom2IsSafe | main.py:129-143 | the enemy check right after the transition never ends the game |
| GameLoop.Room2EntryIsInsideAPlatform | main.py:134-135 | the entry point overlaps room 2's platform at (96, 288) |
| GameLoop.NoTransitionKeepsRoom | main.py:121-138 | without a door in room 1, the room, platforms and doors stay; the player takes its physics step and the enemies their patrol step |
| GameLoop.GameOverOnContact | main.py:140-143 | after an update the game runs if and only if it was running and the player overlaps none of the enemies present after the door check; nothing else changes in that check |
| GameLoop.RoomOnlyAdvances | main.py:129-143 | the room only goes from 1 to 2 and stays in {1, 2}; a stopped game stays stopped |
| GameLoop.KeyUpStopsOnlyMatchingDirection | main.py:115-119 | releasing left zeroes the velocity exactly when it is negative and otherwise changes nothing; releasing right does the same for a positive velocity |
| GameLoop.StaleKeyUpIsIgnored | main.py:108-119 | pressing left, then right, then releasing left leaves the player running right at 5 |
| GameLoop.InputOnlySteers | main.py:104-119 | input never moves the player or changes its ground flag, the room or its contents, and never restarts a stopped game |
| GameLoop.QuitEndsTheGame | main.py:97-107 | a quit event anywhere in a frame's input leaves the game stopped at the end of the frame |
| GameLoop.Game.constructor | main.py:54-69 | a new game's view is the start world: running, room 1, player created at (50, 536) then placed by room 1 |
| GameLoop.Game.SetupLevel | main.py:71-95 | the view becomes `Setup` of the old view: platforms, doors and enemies rebuilt from the grid, and the player moved by its `P` cells; the enemies are fresh, distinct objects |
| GameLoop.Game.SetupRow | main.py:80-95 | one row appends its platforms, doors and enemies in column order and moves the player to its last `P` |
| GameLoop.Game.HandleEvent | main.py:105-119 | one event takes the view to `React` of the old view |
| GameLoop.Game.HandleEvents | main.py:104-119 | a frame's events take the view to `ReactAll`, applying them in order |
| GameLoop.Game.Update | main.py:121-143 | one update takes the view to `Tick` of the old view: physics, then patrols, then doors, then enemies |
| GameLoop.Game.UpdateEnemies | main.py:125 | every enemy takes exactly one patrol step |
| GameLoop.Game.PassDoors | main.py:129-138 | the door loop has the effect of `DoorPass`: at most one transition, and only from room 1 |
| GameLoop.Game.GoToRoom2 | main.py:131-135 | the view becomes room 2 rebuilt, with the player at (100, 280) |
| GameLoop.Game.CheckEnemies | main.py:141-143 | the game stops exactly when the player overlaps an enemy, and nothing else changes |
| GameLoop.Game.RunFrame | main.py:98-102 | one iteration of the main loop takes the view to `Frame`: the events, then the update |

## Left out

- Window setup, the clock, the frame rate and drawing (main.py:54-58, 97-102, 145-154). These are graphics I/O. `RunFrame` models one loop iteration without them, and the `while self.running` loop itself is not modelled.
- Event polling and key-code aliasing. The arrow and letter bindings of an action are merged into one `Key`. The events of a frame are a parameter.
- The all-sprites group (main.py:62, 67, 72, 76, 84, 91, 95). It only serves drawing.
- Colours and images of every sprite. The enemy's colour parameter is dropped, and a platform keeps its colour only to show that the colour never affects geometry.
- door.py is not part of this model. A door is a bare rectangle built from the arguments at main.py:89, and its group update is taken to change nothing.
- The library's sprite groups. They are sequences in insertion order, and a collision query is the function `Geometry.HitList`.
- Binary floating point. The vertical velocity is a Dafny `real`, so 0.35 is exact.
- The conversion the library applies when a fractional y is assigned to a rectangle. It is the parameter `toInt`, about which nothing is assumed except in `Players.RestingIsFixedPoint` and `Players.RestingIsIdempotent`, which both ask only that it map the whole number y + 1 to itself.
- The horizontal screen edges. The source has no clamp at x = 0 or x = 800, and neither has the model.
