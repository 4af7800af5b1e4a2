# RetroGames game engines in Dafny

RetroGames hosts four two-player browser games behind one portal, each run
by an authoritative server engine:

- **LightCycles**: two cycles on a 60 x 40 grid leave a trail behind them.
  A cycle that leaves the grid, runs into a trail or meets the other cycle
  crashes. The match ends when at least one cycle has crashed.
- **PocketTanks**: two tanks on a generated heightmap take turns. Each turn
  a tank picks a weapon from a dealt hand of ten, aims and fires.
  Explosions dig craters, damage both tanks (the shooter at half rate) and
  credit the shooter. Bouncers ricochet and rollers slide along the
  ground.
- **Asteroids**: two ships share a wrapping arena full of rocks. Large
  rocks split into two Mediums and Mediums into two Smalls, for 20, 50 and
  100 points. Ships have three lives and respawn after a delay. Waves grow
  from four rocks up to eleven. Every third wave from wave 4 on gives each
  ship a board-clearing nuke, which fires once per press.
- **TicTacToe**: a 3 x 3 board kept as a nine-character string. Each move
  is checked against the turn, the seat and the cell, and then settled
  into a win, a draw or the next turn.

Each game has a registry (a manager or service). It hands out six-letter
join codes and seats a second player. It rebinds a player who reconnects
with the same session, and it handles disconnects.

The model keeps the engines' own form:

- Every match object whose fields the engine updates in place is a
  `class`. So is every registry, whose dictionary is a `map` field. Seats
  and rocks are datatype values held in those fields.
- Each public engine method is one atomic step.
- The terrain heightmap and the tic-tac-toe board are arrays.
- Randomness, clocks and session ids are parameters:
  - code draws;
  - weapon-deck orderings and shuffle picks;
  - terrain phase offsets;
  - an infinite tape of doubles for the asteroid engine's `Random`;
  - `now` in milliseconds.
- Floating point is modelled with reals. The caller supplies square root,
  sine, cosine, atan2 and pi in a `MathLib`. Only `sqrt >= 0` is assumed of
  it.
- C#'s truncating cast `(int)` and the banker's rounding of `Math.Round`
  are written out in `Numerics`.
- Each engine has its own copy of the short-code generator. These copies
  are the same code, so one `ShortCodes` module stands for all four.

Files:

| file | content |
|---|---|
| `wrappers.dfy` | `Option` and `Result` |
| `numerics.dfy` | truncation, rounding and clamping |
| `short_codes.dfy` | the join-code generator |
| `light_cycles.dfy` | the LightCycles engine |
| `light_cycles_manager.dfy` | the LightCycles registry |
| `tic_tac_toe.dfy` | TicTacToe: the game row and the service |
| `weapons.dfy` | the weapon table and the dealt hand |
| `terrain.dfy` | the tanks heightmap |
| `projectile.dfy` | one tank shell |
| `pocket_tanks.dfy` | the PocketTanks engine |
| `pocket_tanks_manager.dfy` | the PocketTanks registry |
| `asteroid.dfy` | rocks, bullets, ships and id counters |
| `asteroids.dfy` | the Asteroids engine |
| `asteroids_manager.dfy` | the Asteroids registry |

## Model

| member | source | states |
|---|---|---|
| Numerics.Trunc | PocketTanks/Engine/Terrain.cs:41-42 | `(int)` truncates toward zero: for a non-negative x the result is the largest integer not above x; for a negative x it is the smallest integer not below x |
| Numerics.Round | PocketTanks/Engine/TanksGame.cs:482-506 | `Math.Round` lands within half a unit of x and takes the even neighbour on an exact half; it is never negative for a non-negative x |
| Numerics.RoundTenth | PocketTanks/Engine/Terrain.cs:81 | rounding to one decimal moves a height by at most 0.05 |
| Numerics.Clamp | PocketTanks/Engine/TanksGame.cs:248-249 | the result lies in [lo, hi]; it is v itself inside the range, lo below it and hi above it |
| ShortCodes.Spell | TicTacToe/Services/ShortCodeService.cs:32-40 | six draws spell a six-letter code whose i-th letter is the i-th draw's letter of the alphabet |
| ShortCodes.AlphabetIsUnambiguous | TicTacToe/Services/ShortCodeService.cs:9-10 | the alphabet has 32 symbols and none of the look-alikes I, O, 0 and 1 |
| ShortCodes.GenerateCode | LightCycles/Engine/TronGameManager.cs:116-124 | the loop builds exactly the code its draws spell |
| ShortCodes.GenerateUniqueCode | TicTacToe/Services/ShortCodeService.cs:19-30 | it returns the first attempt not already taken, which is a well-formed code; it fails with the "unable to generate" message exactly when all ten attempts collide |
| LightCycles.IsOpposite | LightCycles/Engine/TronGame.cs:298-304 | opposite directions differ and lie on the same axis |
| LightCycles.NextPosition | LightCycles/Engine/TronGame.cs:286-296 | one step moves exactly one coordinate by one cell; it moves x exactly when the heading is horizontal, and forward is +1 for Down and Right |
| LightCycles.Queue | LightCycles/Engine/TronGame.cs:114-127 | a turn request is queued only for a live cycle and only when it does not reverse the heading; nothing else about the cycle changes |
| LightCycles.Steer | LightCycles/Engine/TronGame.cs:151-161 | the queued turn, if any, becomes the heading and the queue empties; position and liveness are kept |
| LightCycles.Outcome | LightCycles/Engine/TronGame.cs:221-234 | the match goes on iff neither cycle crashed; it is a draw iff both crashed, and otherwise the survivor wins |
| LightCycles.TronGame.constructor | LightCycles/Engine/TronGame.cs:72-85 | a Waiting match with player 1 at (15, 20) heading Right, an empty grid and no second player |
| LightCycles.TronGame.PlayerNumber | LightCycles/Engine/TronGame.cs:265-270 | seat 1 iff the session is player 1's; seat 2 iff it is only player 2's; otherwise 0 |
| LightCycles.TronGame.ConnectionOwner | LightCycles/Engine/TronGame.cs:258-263 | seat 1 iff the connection is player 1's, and seat 2 iff only player 2 holds it |
| LightCycles.TronGame.AddPlayer2 | LightCycles/Engine/TronGame.cs:87-112 | it succeeds iff the match was Waiting with the seat free; it then seats player 2 at (45, 20) heading Left, marks both start cells and starts the countdown; otherwise nothing changes |
| LightCycles.TronGame.SetDirection | LightCycles/Engine/TronGame.cs:114-127 | only the caller's cycle is touched, by Queue; status and counters are kept |
| LightCycles.TronGame.Tick | LightCycles/Engine/TronGame.cs:129-249 | a countdown tick decrements the countdown and starts play at zero; a tick outside play changes nothing; a play tick moves both cycles as Moved describes and keeps the match valid |
| LightCycles.TronGame.Move | LightCycles/Engine/TronGame.cs:149-247 | the movement step: steer both cycles, detect crashes on the post-steer heads, then either end the match by Outcome or advance both heads and mark their cells |
| LightCycles.TronGame.Advance | LightCycles/Engine/TronGame.cs:201-247 | a crashed cycle dies where it stands; a surviving one moves to its next cell and marks it with its owner; no other cell changes; after any crash the status is Outcome; the result reports both cycles, the new trail cells and the winner's name |
| LightCycles.TronGame.MovedKeepsValid | LightCycles/Engine/TronGame.cs:149-234 | every movement step keeps the grid, the seats and the status consistent |
| LightCycles.TronGame.DetectCrashes | LightCycles/Engine/TronGame.cs:169-199 | a cycle crashes iff its next cell is off the grid or already holds a trail, or both cycles head for the same cell or swap cells |
| LightCycles.TronGame.GetAllTrails | LightCycles/Engine/TronGame.cs:272-284 | it lists exactly the occupied cells with their owners, each once, column by column and top to bottom |
| LightCycles.SwapIsAlsoATrailCrash | LightCycles/Engine/TronGame.cs:187-199 | two cycles that would swap cells each run into the other's occupied cell, so the swap check agrees with the trail check |
| LightCycles.CrashTogether | LightCycles/Engine/TronGame.cs:173-199 | a rider bound for a free cell on the grid crashes only head-on (same target or a swap, both on the grid), and then the other rider crashes too |
| LightCyclesManager.TronGameManager.constructor | LightCycles/Engine/TronGameManager.cs:14-17 | an empty registry |
| LightCyclesManager.TronGameManager.CreateGame | LightCycles/Engine/TronGameManager.cs:19-30 | on success, a fresh Waiting match is registered under a new code that was not taken and no other entry changes; on failure, the registry is unchanged |
| LightCyclesManager.TronGameManager.JoinGame | LightCycles/Engine/TronGameManager.cs:32-66 | it reports "Game not found." for an unknown code; it rebinds a returning session to its own seat; it seats a newcomer when the match is waiting; otherwise it reports the match full; no match other than the joined one changes |
| LightCyclesManager.TronGameManager.GetGame | LightCycles/Engine/TronGameManager.cs:68-72 | it finds a match iff the code is registered, and the match it finds carries that code |
| LightCyclesManager.TronGameManager.RemoveGame | LightCycles/Engine/TronGameManager.cs:74-78 | only that code leaves the registry |
| LightCyclesManager.TronGameManager.GetActiveGames | LightCycles/Engine/TronGameManager.cs:80-84 | exactly the registered matches in Countdown or InProgress |
| LightCyclesManager.TronGameManager.HandleDisconnect | LightCycles/Engine/TronGameManager.cs:91-103 | when some match holds the connection, it clears that seat's connection in one such match; when none does, nothing changes; no other match is touched |
| LightCyclesManager.TronGameManager.SetConnection | LightCycles/Engine/TronGameManager.cs:39-52 | only the chosen seat's connection changes; the match's progress is kept |
| LightCyclesManager.TronGameManager.OnlyOneGameChanged | LightCycles/Engine/TronGameManager.cs:11 | updating one registered match in place keeps the registry consistent |
| LightCyclesManager.JoinIsIdempotent | LightCycles/Engine/TronGameManager.cs:39-52 | joining a second time with the same session and connection gives the same answer as the first time |
| TicTacToe.Ordinal | TicTacToe/Data/Entities/Game.cs:3-11 | the stored status numbers run 0..5, and the terminal statuses are exactly those numbered 2 and up |
| TicTacToe.PatternsAreLines | TicTacToe/Services/GameService.cs:9-14 | the eight patterns are the three rows, the three columns and the two diagonals, in that order |
| TicTacToe.LineFrom | TicTacToe/Services/GameService.cs:180-188 | it finds a pattern from index k on that the mark completes, and none iff no such pattern exists |
| TicTacToe.FirstLine | TicTacToe/Services/GameService.cs:180-188 | it returns a winning pattern iff the board has a line of the mark, and that pattern is completed by the mark |
| TicTacToe.CountUpdate | TicTacToe/Services/GameService.cs:131-135 | writing one cell changes each mark's count by exactly the cell's old and new content |
| TicTacToe.CountsShareBoard | TicTacToe/Services/GameService.cs:131-135 | the X, O and blank counts together never exceed the nine cells |
| TicTacToe.NoLineForOther | TicTacToe/Services/GameService.cs:138-154 | placing a mark never completes a line for the other mark |
| TicTacToe.EmptyBoardIsBlank | TicTacToe/Services/GameService.cs:27-51 | a new board has nine blanks and no line for either mark |
| TicTacToe.CheckWin | TicTacToe/Services/GameService.cs:180-188 | the scan over the board array returns FirstLine of its contents |
| TicTacToe.Settled | TicTacToe/Services/GameService.cs:138-154 | a completed line wins for the mover; without one, the game is a draw iff nine moves were made, and otherwise it goes on |
| TicTacToe.Game.constructor | TicTacToe/Services/GameService.cs:27-51 | a Waiting game with an empty board, X to move and X's session seated |
| TicTacToe.Game.MoverMark | TicTacToe/Services/GameService.cs:116-122 | X iff the connection is X's, and some mark iff the connection holds a seat |
| TicTacToe.Game.Rejection | TicTacToe/Services/GameService.cs:112-128 | no rejection iff the game is in progress, the connection holds the seat whose turn it is and the cell is free |
| TicTacToe.Game.RebindKeepsValid | TicTacToe/Services/GameService.cs:68-85 | rebinding connections keeps the game consistent |
| TicTacToe.Game.SeatingKeepsValid | TicTacToe/Services/GameService.cs:88-97 | seating O and starting play keeps the game consistent |
| TicTacToe.Game.PlacedKeepsValid | TicTacToe/Services/GameService.cs:131-154 | a legal placement followed by settling keeps the move count equal to the marks on the board and the turn consistent |
| TicTacToe.MovesAreBounded | TicTacToe/Services/GameService.cs:138-154 | a consistent game has at most nine moves, and fewer than nine while in progress |
| TicTacToe.GameService.constructor | TicTacToe/Services/GameService.cs:20-25 | an empty store |
| TicTacToe.GameService.OnlyOneGameChanged | TicTacToe/Services/GameService.cs:16 | updating one stored game in place keeps the store consistent |
| TicTacToe.GameService.CreateGame | TicTacToe/Services/GameService.cs:27-51 | on success, a new Waiting game is stored under an unused code and returned with the creator's session; on failure, the store is unchanged |
| TicTacToe.GameService.GetGameByCode | TicTacToe/Services/GameService.cs:53-56 | it finds a game iff the code is stored, and that game carries the code |
| TicTacToe.GameService.JoinGame | TicTacToe/Services/GameService.cs:58-101 | it gives "Game not found." for an unknown code; a finished game is refused; X or O's session is rebound; O is seated and play starts when the seat is free; otherwise the game is full |
| TicTacToe.GameService.JoinRow | TicTacToe/Services/GameService.cs:64-100 | the same cases on one stored game, with the new seating stated field by field |
| TicTacToe.GameService.MakeMove | TicTacToe/Services/GameService.cs:103-158 | each rejection (position, unknown code, status, seat, turn, occupied cell) comes back with its message and no change; a legal move writes the mover's mark in one cell, adds one to the move count and settles the game |
| TicTacToe.GameService.ApplyMove | TicTacToe/Services/GameService.cs:131-154 | the settled game: the new board, count + 1, the win, draw or next turn, and completion time set exactly when the game ends |
| TicTacToe.GameService.Rebind | TicTacToe/Services/GameService.cs:68-85 | only the seat's connection and the update time change |
| TicTacToe.GameService.MarkedCopy | TicTacToe/Services/GameService.cs:131-133 | a fresh board array holding the old cells with the one cell overwritten |
| TicTacToe.GameService.HandleDisconnect | TicTacToe/Services/GameService.cs:160-178 | when some game holds the connection, in any status including finished and abandoned ones, that seat's connection is cleared in one such game and its update time set, with board, status and sessions kept; otherwise nothing changes; no other game is touched |
| TicTacToe.Game.Abandon | TicTacToe/BackgroundServices/GameCleanupService.cs:59-63 | a waiting or running game is marked Abandoned, a finished status, with its completion time, and stays valid |
| Weapons.Get | PocketTanks/Engine/WeaponType.cs:27-65 | each weapon's table entry: positive radius, damage and speed factor; only Bouncer bounces (three times), only Roller rolls, only ThreeShot fires more than one shell (three, 25 degrees apart) |
| Weapons.Slot | PocketTanks/Engine/WeaponType.cs:79-87 | a deck slot after the first is never Standard |
| Weapons.Stream | PocketTanks/Engine/WeaponType.cs:79-87 | the first m slots of the refilled passes, in order |
| Weapons.Size | PocketTanks/Engine/WeaponType.cs:75 | the hand has at least one slot and at least the requested count |
| Weapons.Filled | PocketTanks/Engine/WeaponType.cs:79-87 | the unshuffled hand has Size(count) slots and starts with Standard |
| Weapons.OneStandard | PocketTanks/Engine/WeaponType.cs:75-76 | the hand holds exactly one Standard |
| Weapons.OnePassNoRepeats | PocketTanks/Engine/WeaponType.cs:81-86 | two slots from the same pass of seven never repeat a weapon |
| Weapons.GetRandomWeapons | PocketTanks/Engine/WeaponType.cs:67-97 | the dealt hand is a permutation of the filled hand, so it holds exactly one Standard |
| Weapons.Fill | PocketTanks/Engine/WeaponType.cs:75-87 | the fill loop builds exactly Filled |
| Weapons.Shuffle | PocketTanks/Engine/WeaponType.cs:90-94 | the in-place Fisher-Yates shuffle permutes the array |
| Terrains.Deformed | PocketTanks/Engine/Terrain.cs:39-55 | the crater keeps the map's width |
| Terrains.DugIsWithinRadius | PocketTanks/Engine/Terrain.cs:41-48 | the clipped column range misses no column strictly inside the radius |
| Terrains.DeformedBounds | PocketTanks/Engine/Terrain.cs:44-54 | a crater never digs below 10, never raises a column and leaves columns outside the radius alone |
| Terrains.LerpBetween | PocketTanks/Engine/Terrain.cs:67 | linear interpolation stays between its two ends |
| Terrains.Terrain.constructor | PocketTanks/Engine/Terrain.cs:9 | 1200 columns at height zero |
| Terrains.Terrain.Generate | PocketTanks/Engine/Terrain.cs:11-37 | every column is the five sine layers summed in order and clamped, so it lies in [200, 500] |
| Terrains.Reach | PocketTanks/Engine/Terrain.cs:16-23 | the summed amplitudes of the first n sine layers are non-negative |
| Terrains.WaveBounds | PocketTanks/Engine/Terrain.cs:25-33 | before the clamp, n layers stay within Reach(n) of the base height 350, so the full sum lies in [167, 533] and the clamp to [200, 500] is needed |
| Terrains.Terrain.Deform | PocketTanks/Engine/Terrain.cs:39-55 | the in-place loop leaves the map equal to Deformed of the old map |
| Terrains.Terrain.GetHeightAt | PocketTanks/Engine/Terrain.cs:57-68 | zero left of the map, the last column from column 1199 on, and in between a value between the two neighbouring columns |
| Terrains.Terrain.Interpolate | PocketTanks/Engine/Terrain.cs:62-67 | the blend lies between the two columns around x |
| Terrains.Terrain.HeightOfMatches | PocketTanks/Engine/Terrain.cs:57-68 | the map's own height reading equals HeightOf on a copy of its columns, so a world value reads the ground as the game does |
| Terrains.Terrain.Serialize | PocketTanks/Engine/Terrain.cs:73-84 | 300 samples: every fourth column rounded to a tenth, each within 0.05 of its column |
| Projectiles.Projectile.constructor | PocketTanks/Engine/Projectile.cs:5-15 | a live shell at its launch point that has not bounced, rolled or aged |
| Projectiles.Ticked | PocketTanks/Engine/Projectile.cs:17-41 | a spent shell is unchanged; a live one ages one tick; a roller's speed is multiplied by 0.97, it slides by it and goes out below 0.3; any other shell gains gravity, moves by its velocity and stays live; weapon, owner, bounces and rolling flag are kept |
| Projectiles.Projectile.Tick | PocketTanks/Engine/Projectile.cs:17-41 | the shell's fields become Ticked of its old fields; a spent shell is not touched |
| PocketTanks.CalculateDamage | PocketTanks/Engine/TanksGame.cs:530-542 | damage is never negative, is zero at or beyond the blast radius, and is at most 1.5 times the weapon's damage |
| PocketTanks.FalloffAtMostFull | PocketTanks/Engine/TanksGame.cs:530-542 | the linear falloff never exceeds full damage |
| PocketTanks.Hurt | PocketTanks/Engine/TanksGame.cs:480-507 | health after a hit is the rounded loss floored at zero, and never rises |
| PocketTanks.IndexOf | PocketTanks/Engine/TanksGame.cs:222-223 | the first index holding the weapon, or -1 iff it is absent |
| PocketTanks.RemoveAt | PocketTanks/Engine/TanksGame.cs:225-226 | removing one slot shifts the later slots down by one |
| PocketTanks.ChoiceConserves | PocketTanks/Engine/TanksGame.cs:218-226 | choosing a weapon removes exactly one copy of it from the hand |
| PocketTanks.SplitAround | PocketTanks/Engine/TanksGame.cs:225-226 | removing the slot at i takes exactly that one element out of the multiset |
| PocketTanks.DeformKeepsBand | PocketTanks/Engine/TanksGame.cs:468-469 | after a crater every column stays between the bedrock and the generated maximum |
| PocketTanks.AfterBlast | PocketTanks/Engine/TanksGame.cs:480-507 | a blast changes only a tank's health (down, not below zero) and score (never down); with no damage the tank is unchanged |
| PocketTanks.Route | PocketTanks/Engine/TanksGame.cs:362-422 | the branch a shell takes: a shell in flight is never rolling, a rolling one always is |
| PocketTanks.Moved | PocketTanks/Engine/TanksGame.cs:362-432 | the shell after its branch: weapon, owner, age and x are kept; it never comes back to life; a flying shell is unchanged; a bounce reflects and damps its velocity |
| PocketTanks.FateOf | PocketTanks/Engine/TanksGame.cs:396-432 | the fate records the branch taken, and it carries an explosion exactly on the crater, tank-hit and roll paths |
| PocketTanks.Report | PocketTanks/Engine/TanksGame.cs:380-432 | a flying or still-rolling shell adds its position under its own index; an exploding one adds its explosion; earlier entries are kept |
| PocketTanks.TanksGame.constructor | PocketTanks/Engine/TanksGame.cs:106-123 | a Waiting match on a fresh terrain in [200, 500], player 1 settled on it, both hands dealt with one Standard each, player 1 to move on turn 1 |
| PocketTanks.TanksGame.Deal | PocketTanks/Engine/TanksGame.cs:106-123 | a dealt hand of the requested size with one Standard |
| PocketTanks.TanksGame.NewTerrain | PocketTanks/Engine/TanksGame.cs:106-123 | a fresh generated terrain whose columns lie in [200, 500] |
| PocketTanks.TanksGame.GetPlayerNumber | PocketTanks/Engine/TanksGame.cs:594-599 | seat 1 iff the session is player 1's, and seat 2 iff it is only player 2's |
| PocketTanks.TanksGame.ConnectionOwner | PocketTanks/Engine/TanksGame.cs:608-613 | seat 1 iff the connection is player 1's, and seat 2 iff only player 2 holds it |
| PocketTanks.TanksGame.GetPlayerBySession | PocketTanks/Engine/TanksGame.cs:601-606 | the tank of the session's seat, found iff the session holds a seat |
| PocketTanks.TanksGame.GetPlayerByConnection | PocketTanks/Engine/TanksGame.cs:608-613 | the tank of the connection's seat, found iff the connection holds a seat |
| PocketTanks.TanksGame.AddPlayer2 | PocketTanks/Engine/TanksGame.cs:125-150 | it succeeds iff the match was Waiting with the seat free; it then seats player 2 at its start column on the ground and starts the countdown; otherwise nothing changes |
| PocketTanks.TanksGame.AddAiPlayer2 | PocketTanks/Engine/TanksGame.cs:152-174 | the computer takes seat 2 as "CPU" with session "ai_" + code, and the countdown starts |
| PocketTanks.TanksGame.TickCountdown | PocketTanks/Engine/TanksGame.cs:188-204 | outside the countdown nothing changes; inside it, the countdown drops by one, and at zero the weapon-select phase starts for player 1 |
| PocketTanks.TanksGame.SelectWeapon | PocketTanks/Engine/TanksGame.cs:206-236 | a choice succeeds iff it is the caller's turn and the weapon is in the offered hand; the hand loses exactly one copy of it, and the phase moves to Aiming; a refused choice keeps the returned previous weapon in the hand |
| PocketTanks.TanksGame.Choose | PocketTanks/Engine/TanksGame.cs:216-234 | the same on a known seat: success iff offered, the hand as RemoveAt of the offer or the offer itself, the other hand untouched |
| PocketTanks.TanksGame.Take | PocketTanks/Engine/TanksGame.cs:216-226 | the inventory half of a choice: success iff the weapon is offered; the hand becomes the offer less its first copy of the weapon, or the offer itself; the other hand is untouched |
| PocketTanks.TanksGame.Arm | PocketTanks/Engine/TanksGame.cs:224-231 | the weapon chosen is in hand and the match is aiming; the phase clock restarts only when the match was still selecting weapons |
| PocketTanks.TanksGame.SetFiringParams | PocketTanks/Engine/TanksGame.cs:238-251 | only the mover, and only while aiming, changes the tank's angle and power, clamped to [0, 180] and [1, 100]; any other call changes nothing |
| PocketTanks.TanksGame.Aim | PocketTanks/Engine/TanksGame.cs:247-249 | the seat's angle and power are clamped; nothing else changes |
| PocketTanks.TanksGame.Bind | PocketTanks/Engine/TanksGameManager.cs:43-56 | only the seat's connection changes |
| PocketTanks.TanksGame.Fire | PocketTanks/Engine/TanksGame.cs:253-268 | only the mover can fire, and only while aiming; the tank takes the clamped aim, the chosen weapon's volley is launched and the phase becomes Firing; any other call changes nothing |
| PocketTanks.TanksGame.AutoFire | PocketTanks/Engine/TanksGame.cs:270-297 | on a timeout in WeaponSelect the hand's first weapon is taken out of it (Standard when the hand is empty); in Aiming the chosen weapon is kept; the volley is launched with the current aim; outside those phases nothing changes |
| PocketTanks.TanksGame.LaunchProjectiles | PocketTanks/Engine/TanksGame.cs:299-347 | the weapon's shells are appended at the barrel tip with their launch velocities, and the phase becomes Firing |
| PocketTanks.TipOnBarrel | PocketTanks/Engine/TanksGame.cs:305-308 | the barrel tip lies exactly one barrel length (22) from the tank |
| PocketTanks.PowerBounds | PocketTanks/Engine/TanksGame.cs:310 | the launch speed scale grows from 0 at zero power to 12 times the weapon's multiplier at full power, and stays within those |
| PocketTanks.LaunchSpeed | PocketTanks/Engine/TanksGame.cs:310-342 | every shell, spread or single, leaves with speed equal to the power scale |
| PocketTanks.SpreadSymmetric | PocketTanks/Engine/TanksGame.cs:312-330 | a spread fans out symmetrically: shell i and shell count-1-i are equally far either side of the barrel angle |
| PocketTanks.TanksGame.FireFan | PocketTanks/Engine/TanksGame.cs:312-331 | the weapon's fan of shells, spread evenly about the aim |
| PocketTanks.TanksGame.FireOne | PocketTanks/Engine/TanksGame.cs:332-343 | a single shell along the aim |
| PocketTanks.Kick | PocketTanks/Engine/TanksGame.cs:391-392 | a roller slower than 1 sideways is kicked to speed 3 in the direction it had (right when standing), a faster one keeps its speed |
| PocketTanks.OutOfBounds | PocketTanks/Engine/TanksGame.cs:362 | a shell is lost only outside the arena, beyond a margin of 50 on either side or 200 below the bottom; over the arena it is never lost, however high it flies |
| PocketTanks.Target | PocketTanks/Engine/TanksGame.cs:476-493 | an explosion is reported against the shooter's opponent exactly when the blast damaged it, and never against the shooter |
| PocketTanks.TanksGame.MatchOver | PocketTanks/Engine/TanksGame.cs:554 | the match is decided after twenty turns or when a tank has no health; with no second seat, only the turn count and the first tank's health decide |
| PocketTanks.TanksGame.Elapsed | PocketTanks/Engine/TanksGame.cs:570 | the seconds since the phase began: non-negative iff the clock has not gone back, and at least one after a thousand milliseconds |
| PocketTanks.TanksGame.PhaseLimit | PocketTanks/Engine/TanksGame.cs:584-589 | the phase length is never negative, and positive exactly for weapon selection and aiming |
| PocketTanks.TanksGame.AdvanceTurn | PocketTanks/Engine/TanksGame.cs:551-564 | the turn number rises by one; the match ends after twenty turns or when a tank has no health left; otherwise the other player selects next, with no weapon chosen and the phase clock restarted |
| PocketTanks.TanksGame.GetWinnerName | PocketTanks/Engine/TanksGame.cs:615-621 | no winner before the end or on a tie; otherwise the name of the higher score |
| PocketTanks.TanksGame.GetPhaseTimeRemaining | PocketTanks/Engine/TanksGame.cs:579-592 | never negative, and never more than the phase's limit |
| PocketTanks.TanksGame.TimeoutMeansNoTimeLeft | PocketTanks/Engine/TanksGame.cs:566-592 | a phase has timed out iff no time remains |
| PocketTanks.TanksGame.Wound | PocketTanks/Engine/TanksGame.cs:480-507 | each tank becomes AfterBlast: the victim loses the rounded damage, the shooter half its own and gains the damage it dealt |
| PocketTanks.TanksGame.Settle | PocketTanks/Engine/TanksGame.cs:510-512 | each tank's y drops onto the terrain under it |
| PocketTanks.TanksGame.ApplyExplosion | PocketTanks/Engine/TanksGame.cs:466-528 | the crater is dug, both tanks are wounded and settled, and the event reports the target, damage and both healths and scores; no tank gains health or loses score |
| PocketTanks.TanksGame.Commit | PocketTanks/Engine/TanksGame.cs:396-421 | the shell takes its new state, and an explosion happens iff the branch blows up |
| PocketTanks.TanksGame.Resolve | PocketTanks/Engine/TanksGame.cs:361-432 | a moved shell meets the scene at its position (ground under it, both tanks): its fate's path is Route's branch, its new state is Moved, it explodes iff the branch is a crater, a tank hit or a roll that went out, and a bounce, roll or flight records its new position; an explosion digs the crater and wounds both tanks (Blasted), and without one terrain and tanks are unchanged; no tank gains |
| PocketTanks.TanksGame.Step | PocketTanks/Engine/TanksGame.cs:357-432 | one live shell is SteppedBy its fate: it moves by Ticked under gravity 0.15, then is Resolved in the scene met where it lands (the returned scene); explosion or not, as in Resolve |
| PocketTanks.TanksGame.Age | PocketTanks/Engine/TanksGame.cs:359 | the shell's fields become Ticked of its old fields under gravity 0.15 |
| PocketTanks.TanksGame.StepAll | PocketTanks/Engine/TanksGame.cs:357-433 | the walk over the whole list (Walked): every shell live at the start is stepped once, in list order; spent shells are untouched; the result is Collect of the fates, its positions are live shells at their own index in increasing order; the worlds (terrain and both tanks) are Chained: shell k meets the scene of world k, which is what the shells before it left, and takes it to world k + 1 (Moves); the tick starts in the first world and ends in the last; with no explosion the world is unchanged; some shell is live afterwards iff some view is |
| PocketTanks.TanksGame.StepInto | PocketTanks/Engine/TanksGame.cs:357-433 | only shell i changes: a live one is SteppedBy a fate in the scene at its moved position and its Report is added; a spent one is untouched and adds nothing; it meets the scene of the world as the step begins and takes that world to the present one (Moves: a burst digs the crater, then wounds and settles both tanks; otherwise nothing changes) |
| PocketTanks.TanksGame.WalkStep | PocketTanks/Engine/TanksGame.cs:357-433 | one pass of the loop takes the walk from shell i to i + 1 and extends the chain of worlds by the world the pass leaves behind |
| PocketTanks.TanksGame.Walk | PocketTanks/Engine/TanksGame.cs:357-433 | the loop reaches Walked over the whole list, with the worlds Chained from the tick's first world to the present one |
| PocketTanks.TanksGame.Finish | PocketTanks/Engine/TanksGame.cs:435-441 | with no live shell, firing is complete, the list is cleared, no position is reported, tanks are unchanged and the turn advances (game over when the match is over, otherwise the other player selects) |
| PocketTanks.WalkOn | PocketTanks/Engine/TanksGame.cs:357-433 | stepping or skipping the next shell while no other shell changes extends the walk by one |
| PocketTanks.SteppedAges | PocketTanks/Engine/TanksGame.cs:359-431 | a stepped shell is one tick older with the same weapon and owner; one still flying or rolling without exploding is live at the spot its fate reports |
| PocketTanks.Collect | PocketTanks/Engine/TanksGame.cs:353-433 | a stepping result is never complete by itself, and reports at most one position per shell, each under an index of the list |
| PocketTanks.CollectOn | PocketTanks/Engine/TanksGame.cs:357-433 | the tick's result is built in list order: one more fate appends its report after the others |
| PocketTanks.ChainOn | PocketTanks/Engine/TanksGame.cs:357-433 | a shell that meets the scene of the latest world and moves it on (Moves) extends the chain of worlds by one |
| PocketTanks.CalmWorld | PocketTanks/Engine/TanksGame.cs:357-433 | while no shell has exploded, every world of the chain is the tick's first one, so each shell meets the scene of the tick's start |
| PocketTanks.TanksGame.SceneForIsSceneIn | PocketTanks/Engine/TanksGame.cs:369 | the scene a shell meets in the game is SceneIn of the current world: the ground under its moved position and both tanks |
| PocketTanks.TanksGame.LiveInViews | PocketTanks/Engine/TanksGame.cs:435 | some shell is live iff some view of the list is live |
| PocketTanks.TanksGame.PhysicsTick | PocketTanks/Engine/TanksGame.cs:349-445 | outside Firing nothing happens; in Firing the shells are walked in list order (Walked) through Chained worlds, each meeting the terrain and tanks left by the shells before it and the tick ending in the last world; the result is Collect of their fates; firing is complete iff no shell is live after the step, and then the list is cleared, no position is reported and the turn advances; otherwise the list stays as walked; no tank gains health or loses score |
| PocketTanks.TanksGame.ReportedAreLive | PocketTanks/Engine/TanksGame.cs:424-441 | a tick that reports a position has a live shell, so it cannot be the completing tick |
| PocketTanksManager.TanksGameManager.constructor | PocketTanks/Engine/TanksGameManager.cs:14-17 | an empty registry |
| PocketTanksManager.TanksGameManager.CreateGame | PocketTanks/Engine/TanksGameManager.cs:19-34 | on success, a fresh match is registered under an unused code, Waiting or (against the computer) counting down with "CPU" seated; on failure, the registry is unchanged |
| PocketTanksManager.TanksGameManager.Open | PocketTanks/Engine/TanksGameManager.cs:24-27 | the new match before registration, with the computer seated iff requested |
| PocketTanksManager.TanksGameManager.JoinGame | PocketTanks/Engine/TanksGameManager.cs:36-70 | not found, rebinding player 1 or 2, seating a newcomer, "Failed to join game." or full, as in the source; no other match changes |
| PocketTanksManager.TanksGameManager.GetGame | PocketTanks/Engine/TanksGameManager.cs:72-76 | it finds a match iff the code is registered, and the match carries the code |
| PocketTanksManager.TanksGameManager.RemoveGame | PocketTanks/Engine/TanksGameManager.cs:78-82 | only that code leaves the registry |
| PocketTanksManager.TanksGameManager.GetActiveGames | PocketTanks/Engine/TanksGameManager.cs:84-89 | exactly the registered matches in an active phase |
| PocketTanksManager.TanksGameManager.HandleDisconnect | PocketTanks/Engine/TanksGameManager.cs:96-108 | when some match holds the connection, it clears that seat's connection in one such match; otherwise nothing changes; no other match is touched |
| PocketTanksManager.TanksGameManager.SetConnection | PocketTanks/Engine/TanksGameManager.cs:43-56 | only the chosen seat's connection changes; the match's progress is kept |
| PocketTanksManager.TanksGameManager.OnlyOneGameChanged | PocketTanks/Engine/TanksGameManager.cs:11 | updating one registered match in place keeps the registry consistent |
| PocketTanksManager.JoinIsIdempotent | PocketTanks/Engine/TanksGameManager.cs:43-56 | a repeated join by the same session gives the same answer |
| AsteroidObjects.Radius | Asteroids/Engine/GameObjects/Asteroid.cs:24-30 | a Large rock's collision radius is 40, a Medium one's 20, a Small one's 10 |
| AsteroidObjects.Points | Asteroids/Engine/GameObjects/Asteroid.cs:32-38 | a Large rock is worth 20 points, a Medium one 50, a Small one 100 |
| AsteroidObjects.Smaller | Asteroids/Engine/GameObjects/Asteroid.cs:24-38 | only a Small rock has no smaller rung |
| AsteroidObjects.Ladder | Asteroids/Engine/GameObjects/Asteroid.cs:24-38 | each step down the ladder is smaller and worth more, and the ladder ends after two steps |
| AsteroidObjects.IdCounters.constructor | Asteroids/Engine/GameObjects/Asteroid.cs:12-14 | both counters start at zero |
| AsteroidObjects.IdCounters.NextAsteroid | Asteroids/Engine/GameObjects/Asteroid.cs:12-14 | each rock number is one more than the last and above every earlier one |
| AsteroidObjects.IdCounters.NextBullet | Asteroids/Engine/GameObjects/Bullet.cs:5-7 | each bullet number is one more than the last and above every earlier one |
| AsteroidMatch.StatusCode | Asteroids/Engine/AsteroidGame.cs:5-12 | the status numbers sent to clients run 0..4 |
| AsteroidMatch.Wrap | Asteroids/Engine/AsteroidGame.cs:639-644 | a coordinate up to one arena width out wraps back into [0, max), and one inside is kept |
| AsteroidMatch.Steered | Asteroids/Engine/AsteroidGame.cs:271-292 | steering changes only heading and velocity, and velocity only under thrust |
| AsteroidMatch.Shot | Asteroids/Engine/AsteroidGame.cs:293-310 | a new bullet belongs to the firing seat, lives 60 ticks and carries the issued number |
| AsteroidMatch.Settled | Asteroids/Engine/AsteroidGame.cs:311-320 | the cooldown and invulnerability count down to zero; the nuke latch holds only while the key stays down |
| AsteroidMatch.Drifted | Asteroids/Engine/AsteroidGame.cs:323-333 | only position and velocity move, and a dead ship does not move |
| AsteroidMatch.Respawned | Asteroids/Engine/AsteroidGame.cs:335-350 | lives, score, nukes and identity are kept; a live ship or one out of lives is unchanged; a respawned ship is invulnerable for its grace period; otherwise the delay counts down |
| AsteroidMatch.Struck | Asteroids/Engine/AsteroidGame.cs:411-428 | a hit ship dies where it is, stops, loses one life and waits the respawn delay; score and nukes are kept |
| AsteroidMatch.Owned | Asteroids/Engine/AsteroidGame.cs:293-310 | the count of a seat's bullets is at most the list length |
| AsteroidMatch.OwnedConcat | Asteroids/Engine/AsteroidGame.cs:293-310 | the count splits over concatenation |
| AsteroidMatch.OwnedRemove | Asteroids/Engine/AsteroidGame.cs:379-409 | removing a bullet lowers its owner's count by one |
| AsteroidMatch.Flown | Asteroids/Engine/AsteroidGame.cs:352-365 | a flying bullet changes only its position and loses one tick of life |
| AsteroidMatch.Kept | Asteroids/Engine/AsteroidGame.cs:352-365 | the surviving bullets are no more than before, and stay well-formed |
| AsteroidMatch.KeptStep | Asteroids/Engine/AsteroidGame.cs:352-365 | the survivors are built front to back: each bullet is kept after its flight iff it still has life |
| AsteroidMatch.KeptOwned | Asteroids/Engine/AsteroidGame.cs:352-365 | a seat never has more bullets after a flight step |
| AsteroidMatch.Fly | Asteroids/Engine/AsteroidGame.cs:352-365 | the backward walk that moves each bullet and removes spent ones where they stand builds exactly Kept |
| AsteroidMatch.KeptOk | Asteroids/Engine/AsteroidGame.cs:352-365 | the survivors are well-formed and keep the limit of five bullets per seat |
| AsteroidMatch.Tumbled | Asteroids/Engine/AsteroidGame.cs:367-377 | a drifting rock changes only position and rotation |
| AsteroidMatch.TotalPoints | Asteroids/Engine/AsteroidGame.cs:444-471 | a nuke is worth a non-negative total of at most 100 per rock |
| AsteroidMatch.LastHit | Asteroids/Engine/AsteroidGame.cs:379-409 | the rock a bullet hits is a valid index |
| AsteroidMatch.LastHitIsLast | Asteroids/Engine/AsteroidGame.cs:379-409 | the backward scan finds the last touching rock, and none iff no rock touches |
| AsteroidMatch.Gain | Asteroids/Engine/AsteroidGame.cs:379-409 | a seat's gain from its hits is never negative |
| AsteroidMatch.Bursts | Asteroids/Engine/AsteroidGame.cs:379-409 | one explosion per hit |
| AsteroidMatch.BurstsInOrder | Asteroids/Engine/AsteroidGame.cs:379-409 | the explosions are the hit rocks' bursts in hit order |
| AsteroidMatch.Tally | Asteroids/Engine/AsteroidGame.cs:379-409 | crediting one more hit adds exactly its points to the running score |
| AsteroidMatch.HitBy | Asteroids/Engine/AsteroidGame.cs:383-398 | a bullet's hit is credited to the bullet's owner |
| AsteroidMatch.HitByIsLast | Asteroids/Engine/AsteroidGame.cs:386-407 | a bullet hits iff some rock touches it, and the rock hit touches it with no later rock touching |
| AsteroidMatch.ShootOne | Asteroids/Engine/AsteroidGame.cs:383-407 | a miss leaves the state alone; a hit removes exactly that bullet and takes five draws and one number per piece |
| AsteroidMatch.ShotLands | Asteroids/Engine/AsteroidGame.cs:386-404 | a bullet that lands on a rock scores that rock and leaves the bullets without it and the rocks as Split |
| AsteroidMatch.SalvoKeeps | Asteroids/Engine/AsteroidGame.cs:381-408 | the bullet pass removes at most one bullet per shot, records one hit per removed bullet, and keeps the bullets it has not reached, last and in order |
| AsteroidMatch.SalvoOn | Asteroids/Engine/AsteroidGame.cs:381-408 | the fold over bullets n-1 … 0 is the shot of bullet n-1 followed by the fold over the rest |
| AsteroidMatch.HitsStep | Asteroids/Engine/AsteroidGame.cs:379-409 | one more hit adds its rock's points to its owner only, and its burst at the end |
| AsteroidMatch.Pick | Asteroids/Engine/AsteroidGame.cs:503-549 | `Random.Next(n)` lies in [0, n) |
| AsteroidMatch.Proposal | Asteroids/Engine/AsteroidGame.cs:503-549 | a proposed spawn point lies on one of the four arena edges |
| AsteroidMatch.WaveSizes | Asteroids/Engine/AsteroidGame.cs:505 | wave 1 has four rocks, each wave one more, up to eleven |
| AsteroidMatch.NukeWaves | Asteroids/Engine/AsteroidGame.cs:233-237 | nukes are given exactly on waves 4, 7, 10, … |
| AsteroidMatch.Fragment | Asteroids/Engine/AsteroidGame.cs:473-501 | a fragment is one rung smaller, starts at its parent's position, carries its issued number and one of five outlines |
| AsteroidMatch.Fragments | Asteroids/Engine/AsteroidGame.cs:485-500 | the loop makes exactly n fragments |
| AsteroidMatch.FragmentsShape | Asteroids/Engine/AsteroidGame.cs:479-500 | fragment k is one rung smaller than its parent, starts where the parent was and carries number id + k |
| AsteroidMatch.Pieces | Asteroids/Engine/AsteroidGame.cs:478-479 | a split leaves at most two pieces, and none exactly when the rock was Small |
| AsteroidMatch.Split | Asteroids/Engine/AsteroidGame.cs:473-501 | after a split the list holds one rock less plus the pieces |
| AsteroidMatch.SplitShape | Asteroids/Engine/AsteroidGame.cs:473-501 | after a split the other rocks come first, in their order, then the fragments, one rung down, at the split rock's place, numbered on from the next free number |
| AsteroidMatch.FragmentsStep | Asteroids/Engine/AsteroidGame.cs:473-501 | the fragments are built one at a time, in order |
| AsteroidMatch.FragmentsSpeedUp | Asteroids/Engine/AsteroidGame.cs:473-501 | a fragment is 1.2 to 1.7 times as fast as its parent |
| AsteroidMatch.WaveRock | Asteroids/Engine/AsteroidGame.cs:503-549 | a wave rock is Large, at its spawn point, with its issued number |
| AsteroidMatch.SizeName | Asteroids/Engine/AsteroidGame.cs:612 | a size is reported by a non-empty name |
| AsteroidMatch.SizeNamesDistinct | Asteroids/Engine/AsteroidGame.cs:612 | two sizes get the same name only when they are the same size |
| AsteroidMatch.MakeShipState | Asteroids/Engine/AsteroidGame.cs:596-604 | a ship snapshot copies position, rotation and liveness, shows thrust only for a live ship pressing thrust, and invulnerability exactly while ticks remain |
| AsteroidMatch.MakeAsteroidState | Asteroids/Engine/AsteroidGame.cs:606-614 | a rock snapshot copies number, position, rotation and shape and names the size |
| AsteroidMatch.MakeBulletState | Asteroids/Engine/AsteroidGame.cs:616-622 | a bullet snapshot copies number, position and owner |
| AsteroidMatch.CircleCollision | Asteroids/Engine/AsteroidGame.cs:624-630 | the strict squared-distance test: the centres are closer than the sum of the radii, so circles that only touch do not collide |
| AsteroidMatch.CollisionSymmetric | Asteroids/Engine/AsteroidGame.cs:624-630 | the circle test gives the same answer with the two circles swapped |
| AsteroidMatch.DistanceSq | Asteroids/Engine/AsteroidGame.cs:632-637 | a squared distance is never negative |
| AsteroidMatch.NewShip | Asteroids/Engine/AsteroidGame.cs:117-144 | a new ship is alive and well formed, with three lives, no score, no nukes, no latch and no velocity, at the given position and heading with the given identity |
| AsteroidMatch.AsteroidGame.constructor | Asteroids/Engine/AsteroidGame.cs:117-126 | a Waiting match with player 1's ship at a third of the width, no rocks, no bullets, wave 0 |
| AsteroidMatch.AsteroidGame.AddPlayer2 | Asteroids/Engine/AsteroidGame.cs:128-151 | it succeeds iff the match was Waiting with the seat free; it seats player 2 facing left at two thirds of the width and starts the countdown; otherwise nothing changes |
| AsteroidMatch.AsteroidGame.SetInput | Asteroids/Engine/AsteroidGame.cs:153-162 | only the caller's seat's input is replaced |
| AsteroidMatch.AsteroidGame.GetPlayerNumber | Asteroids/Engine/AsteroidGame.cs:565-570 | seat 1 iff the session is player 1's, and seat 2 iff it is only player 2's |
| AsteroidMatch.AsteroidGame.GetPlayerBySession | Asteroids/Engine/AsteroidGame.cs:551-556 | the ship and seat of the session, found iff it holds a seat |
| AsteroidMatch.AsteroidGame.ConnectionOwner | Asteroids/Engine/AsteroidGame.cs:558-563 | seat 1 iff the connection is player 1's, and seat 2 iff only player 2 holds it |
| AsteroidMatch.AsteroidGame.Bind | Asteroids/Engine/AsteroidGameManager.cs:39-52 | only the seat's connection changes |
| AsteroidMatch.AsteroidGame.SetShip | Asteroids/Engine/AsteroidGame.cs:271-321 | only the named seat's ship is replaced |
| AsteroidMatch.AsteroidGame.NextDouble | Asteroids/Engine/AsteroidGame.cs:503-549 | the next double is the tape's next entry |
| AsteroidMatch.AsteroidGame.NextInt | Asteroids/Engine/AsteroidGame.cs:473-501 | the next integer below n is Pick of the tape's next entry |
| AsteroidMatch.AsteroidGame.Tick | Asteroids/Engine/AsteroidGame.cs:164-269 | a result is returned iff the match was in play; a countdown tick counts down and starts wave 1 at zero; other states are untouched; a play tick is Play |
| AsteroidMatch.AsteroidGame.Play | Asteroids/Engine/AsteroidGame.cs:186-268 | the tick count rises by one; the match is over iff both ships are out of lives; the nuke latch holds only while the key stays down; each ship keeps its lives or loses exactly one and waits the respawn delay |
| AsteroidMatch.AsteroidGame.Advance | Asteroids/Engine/AsteroidGame.cs:191-240 | the ship and world phases of a tick together: each ship keeps its lives or loses exactly one, and the nuke latch holds while the key is down |
| AsteroidMatch.AsteroidGame.Steer | Asteroids/Engine/AsteroidGame.cs:191-201 | the ship phase of a tick: each ship is steered, fires and drifts as its input says |
| AsteroidMatch.AsteroidGame.Resolve | Asteroids/Engine/AsteroidGame.cs:203-240 | the collision phase keeps the latch and the life rule |
| AsteroidMatch.AsteroidGame.Strike | Asteroids/Engine/AsteroidGame.cs:209-218 | the nuke and collision phase keeps the latch and the life rule |
| AsteroidMatch.AsteroidGame.Collide | Asteroids/Engine/AsteroidGame.cs:213-218 | the collision phase keeps each ship's nuke latch and stock, and each ship keeps its lives or loses one |
| AsteroidMatch.AsteroidGame.Report | Asteroids/Engine/AsteroidGame.cs:251-267 | the delta carries the tick, the status change and the explosions; rocks only when they changed; every bullet |
| AsteroidMatch.AsteroidGame.GetFullState | Asteroids/Engine/AsteroidGame.cs:572-594 | the full state carries the status, every rock and bullet, and the second ship iff seated |
| AsteroidMatch.AsteroidGame.ProcessShipInput | Asteroids/Engine/AsteroidGame.cs:271-321 | the ship is steered; it fires iff the key is down, it is alive, the cooldown is over and it has fewer than its bullet limit; the latch and counters settle; the other ship is untouched |
| AsteroidMatch.AsteroidGame.Trigger | Asteroids/Engine/AsteroidGame.cs:293-310 | a bullet with the next number is appended and the cooldown restarts iff the key is down, the cooldown is over and the seat has fewer than five bullets in flight; otherwise bullets and ship are unchanged |
| AsteroidMatch.AsteroidGame.AddBullet | Asteroids/Engine/AsteroidGame.cs:293-310 | the bullet is appended |
| AsteroidMatch.AsteroidGame.MoveShip | Asteroids/Engine/AsteroidGame.cs:323-333 | the seat's ship becomes Drifted |
| AsteroidMatch.AsteroidGame.HandleRespawn | Asteroids/Engine/AsteroidGame.cs:335-350 | the seat's ship becomes Respawned |
| AsteroidMatch.AsteroidGame.MoveBullets | Asteroids/Engine/AsteroidGame.cs:352-365 | the bullets become Kept of the old list |
| AsteroidMatch.AsteroidGame.MoveAsteroids | Asteroids/Engine/AsteroidGame.cs:367-377 | every rock becomes Tumbled, in place |
| AsteroidMatch.AsteroidGame.CheckNuke | Asteroids/Engine/AsteroidGame.cs:444-471 | a fresh press by a live ship sets the latch; with a nuke in stock it also clears every rock, credits TotalPoints, spends one nuke and adds a nuke explosion; without a fresh press nothing changes |
| AsteroidMatch.AsteroidGame.FindHit | Asteroids/Engine/AsteroidGame.cs:379-409 | the scan returns LastHit |
| AsteroidMatch.AsteroidGame.SplitAsteroid | Asteroids/Engine/AsteroidGame.cs:473-501 | the rock list becomes Split of the old one; draws rise by five and the last rock number by one per piece |
| AsteroidMatch.AsteroidGame.AddFragments | Asteroids/Engine/AsteroidGame.cs:485-500 | the two fragments are appended in order, taking ten draws and two fresh numbers |
| AsteroidMatch.AsteroidGame.CheckBulletAsteroidCollisions | Asteroids/Engine/AsteroidGame.cs:379-409 | bullets, rocks, draws, rock numbers and the hit list are exactly the Salvo fold over all bullets from the back; each seat's score rises by exactly the points of its hits, one explosion per hit in hit order, one bullet removed per hit, and the rocks are marked changed iff something was hit |
| AsteroidMatch.AsteroidGame.Volley | Asteroids/Engine/AsteroidGame.cs:381-407 | one pass of the outer loop keeps the account and stays on course to the Salvo fold |
| AsteroidMatch.AsteroidGame.Record | Asteroids/Engine/AsteroidGame.cs:383-407 | one bullet's outcome keeps the running account of hits, scores and explosions; the state becomes ShootOne and the hit list grows by HitBy |
| AsteroidMatch.AsteroidGame.Shoot | Asteroids/Engine/AsteroidGame.cs:383-407 | the hit is HitBy and bullets, rocks, draws and numbers become ShootOne: a bullet that touches a rock splits it (rock list as Split), is removed and scores the rock's points for its owner; otherwise nothing changes |
| AsteroidMatch.AsteroidGame.Impact | Asteroids/Engine/AsteroidGame.cs:400-404 | a landed bullet leaves the state ShootOne says |
| AsteroidMatch.AsteroidGame.Credit | Asteroids/Engine/AsteroidGame.cs:379-409 | only the named seat's score rises, by the given points |
| AsteroidMatch.AsteroidGame.DropBullet | Asteroids/Engine/AsteroidGame.cs:379-409 | exactly that bullet is removed |
| AsteroidMatch.AsteroidGame.CheckShipAsteroidCollisions | Asteroids/Engine/AsteroidGame.cs:411-442 | a live, vulnerable ship that touches a rock (the last one in the list) is Struck, both explode, and the rock list becomes Split; otherwise ship, rocks, draws and explosions are unchanged |
| AsteroidMatch.AsteroidGame.Crash | Asteroids/Engine/AsteroidGame.cs:420-439 | the ship is Struck, the ship and rock explosions are added, and the rock list becomes Split |
| AsteroidMatch.ShipHit | Asteroids/Engine/AsteroidGame.cs:413-418 | a ship can be hit only while alive and not invulnerable, and the hit names a rock in the list |
| AsteroidMatch.AsteroidGame.CheckWave | Asteroids/Engine/AsteroidGame.cs:220-240 | an empty board with no pause running starts a 32-tick pause; a running pause counts down by one; when it reaches zero on an empty board, the wave advances, a nuke wave gives each ship a nuke, and the wave is spawned |
| AsteroidMatch.AsteroidGame.SpawnSpot | Asteroids/Engine/AsteroidGame.cs:503-549 | the chosen spawn point is on an edge and at the safe distance from both ships, whether alive or dead |
| AsteroidMatch.AsteroidGame.Propose | Asteroids/Engine/AsteroidGame.cs:503-549 | a candidate spawn point is Proposal of the next two draws |
| AsteroidMatch.AsteroidGame.SpawnWave | Asteroids/Engine/AsteroidGame.cs:503-549 | WaveSize(wave) Large rocks are appended, each on an edge, clear of the ships and with a fresh number; existing rocks are kept |
| AsteroidMatch.NukeOncePerPress | Asteroids/Engine/AsteroidGame.cs:444-471 | once a live ship's nuke key has been down for a tick, holding it over any number of further ticks never lowers its nuke stock |
| AsteroidsManager.AsteroidGameManager.constructor | Asteroids/Engine/AsteroidGameManager.cs:14-17 | an empty registry sharing the id counters |
| AsteroidsManager.AsteroidGameManager.CreateGame | Asteroids/Engine/AsteroidGameManager.cs:19-30 | on success, a fresh Waiting match is registered under an unused code; on failure, the registry is unchanged |
| AsteroidsManager.AsteroidGameManager.JoinGame | Asteroids/Engine/AsteroidGameManager.cs:32-66 | not found, rebinding a seated session, seating a newcomer in a waiting match, or full; no other match changes |
| AsteroidsManager.AsteroidGameManager.GetGame | Asteroids/Engine/AsteroidGameManager.cs:68-72 | it finds a match iff the code is registered, and the match carries the code |
| AsteroidsManager.AsteroidGameManager.RemoveGame | Asteroids/Engine/AsteroidGameManager.cs:74-78 | only that code leaves the registry |
| AsteroidsManager.AsteroidGameManager.GetActiveGames | Asteroids/Engine/AsteroidGameManager.cs:80-84 | exactly the registered matches in Countdown or InProgress |
| AsteroidsManager.AsteroidGameManager.HandleDisconnect | Asteroids/Engine/AsteroidGameManager.cs:91-103 | when some match holds the connection, it clears that seat's connection in one such match; otherwise nothing changes; no other match is touched |
| AsteroidsManager.AsteroidGameManager.SetConnection | Asteroids/Engine/AsteroidGameManager.cs:39-52 | only the chosen seat's connection changes; the match's progress is kept |
| AsteroidsManager.AsteroidGameManager.OnlyOneGameChanged | Asteroids/Engine/AsteroidGameManager.cs:11 | updating one registered match in place keeps the registry consistent |
| AsteroidsManager.JoinIsIdempotent | Asteroids/Engine/AsteroidGameManager.cs:39-52 | a repeated join by the same session gives the same answer |

## Left out

- Hubs, controllers, background loops, database contexts, migrations and the portal are not part of this model. The same holds for the loops' removal of stale Waiting matches. Each public engine method is modelled as one atomic step, with no concurrency.
- Logging is left out.
- Floating point is modelled with reals; `float` rounding error is not captured. Square root, sine, cosine, atan2 and pi come from a caller-supplied `MathLib`, of which only `sqrt >= 0` is assumed.
- `Random`, `Guid.NewGuid` and `DateTime.UtcNow` are parameters. Times are integer milliseconds.
- `Random.Next(n)` is modelled as `Pick`, the truncation of `NextDouble() * n`. The generator's own algorithm is not modelled.
- The tic-tac-toe store is a map from code to game row. The row's database id and its concurrency token are left out. `CreateGameAsync` takes the new session id from its caller.
- Players are values held in their match's fields, so the reference identity of player objects is not modelled.
- `GetPlayerBySession`/`GetPlayerByConnection` return the seat and a copy of the player.
- Ship.Radius is left out: it is unused, and the engine uses ShipRadius. Bullet.Radius is read by the bullet–rock test but never assigned, so it is always 2, which is BulletRadius; the model uses that constant.
- `GetAllGames` returns the registry's values unfiltered, and is left out.
- `TanksGame.GetAiMove` (TanksGame.cs:176-186) draws random aim values; it is left out with the rest of the AI hub logic.
- `IsPhaseTimedOut` has no contract of its own. It is stated through `PocketTanks.TanksGame.TimeoutMeansNoTimeLeft`.
- The `TankState`/`ExplosionEvent` objects are datatypes. `CheckTankHit` is the `Hits` predicate on the tank-hit path of `Route`, and `GetDistanceToTank` is `DistanceToTank`.
- The `Ship` class has no nuke stock or press latch, yet the engine reads and writes `NukesRemaining` and `NukeFired`. The model gives every ship these two fields, starting at 0 and false.
- The asteroid engine's `Player2 == null` guard in a running match cannot fire, because a match leaves Waiting only with a second player. The model records this as an invariant instead of a branch. The same holds for the asteroid registry's "failed to join" branch.
- The Steer/Resolve/Strike methods only group the phases of one asteroid tick. They do not reorder anything.
- AsteroidObjects.IdCounters.NextAsteroid: does not model the 32-bit wrap-around of `Interlocked.Increment`, since no match issues 2^31 numbers.
- AsteroidObjects.IdCounters.NextBullet: does not model the 32-bit wrap-around, for the same reason.
- AsteroidMatch.AsteroidGame.SpawnSpot: requires that the draw tape eventually offers a safe edge point. The source loops until it finds one and would spin forever otherwise.
- AsteroidMatch.AsteroidGame.Tick: for a play tick it states the match invariants, the nuke latch, the life rule and the game-over condition, not every new field. Each stage method it runs through states its own effect; the step does not chain those effects into one formula.
- AsteroidMatch.AsteroidGame.Play: states the invariants, the latch, the life rule and the game-over condition, not the full new state.
- AsteroidMatch.AsteroidGame.Resolve: states only the latch and the life rule.
- AsteroidMatch.AsteroidGame.Strike: states only the latch and the life rule.
- AsteroidMatch.AsteroidGame.Collide: states only that the nuke fields are kept and the life rule.
- AsteroidMatch.AsteroidGame.Advance: states the invariants, the nuke latch and the life rule, not the full new state; each stage method states its own effect.
- AsteroidMatch.AsteroidGame.Steer: states the per-ship rule, not the new bullet list.
- AsteroidMatch.AsteroidGame.Report: states the counts of rocks and bullets, not each entry's fields.
- AsteroidMatch.AsteroidGame.GetFullState: states the counts and the second ship's presence, not each entry's fields.
- AsteroidMatch.Fragment: does not state the fragment's velocity or spin, which are float trigonometry.
- AsteroidMatch.WaveRock: does not state the rock's velocity or spin.
- Weapons.GetRandomWeapons: states that the hand is a permutation of the filled hand, not which order the shuffle produces.
- Weapons.Shuffle: states the permutation, not the exact swap sequence.
- PocketTanks.TanksGame.ApplyExplosion: does not state the event's direct-hit flag.
- PocketTanks.TanksGame.PhysicsTick: after a completing tick the discarded shell objects' final fields are stated through the returned views (`after`), not through the cleared list.
- LightCyclesManager.TronGameManager.HandleDisconnect: leaves open which match is cleared when several hold the connection, since the source visits a dictionary in unspecified order.
- PocketTanksManager.TanksGameManager.HandleDisconnect: leaves open which match is cleared, for the same reason.
- AsteroidsManager.AsteroidGameManager.HandleDisconnect: leaves open which match is cleared, for the same reason.
- TicTacToe.GameService.HandleDisconnect: leaves open which game is cleared when several hold the connection.
