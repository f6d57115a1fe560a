# A verified model of the space-invaders simulation

This project models the per-tick simulation of the `Game` class in
`script.js`, a browser space-invaders game, in Dafny, and proves what the
code promises about it. The modelled parts are:

- the enemy formation a level builds, and the level's speed and shot cooldown;
- the marching formation: shift, bounce and drop, enemy fire, breach;
- the player's steering and firing, with Rapid Fire and Multi-Shot;
- the motion and removal of bullets and falling power-ups;
- the three collision passes, with the in-place splicing of the source's reverse loops;
- the single timed power-up effect and its expiry;
- the order of calls in one tick, and the small state machine of playing, paused, over and menu;
- which database slot each side of a multiplayer game writes and reads, and how a room code is drawn.

The project has two layers.

- **Pure layer.** Module `Simulation` holds a `World` value with every
  field of the `Game` object that the simulation touches. It has one
  function per method of the object, giving the new state built from the
  old one. `Formation`, `Motion` and `Collisions` hold the pieces these
  functions use. `Properties` proves what each step does and what it
  leaves alone. It also proves an invariant that every frame preserves:
  enemies alive and sound, the player on the canvas, the score never
  decreasing.
- **Imperative layer.** Module `GameObject` holds `class Game`, with the
  same fields and methods that update them in place. The loops are kept:
  the nested loops of `createEnemies`, the three loops of `updateEnemies`,
  and the reverse loops of `checkCollisions` with their splices. Each
  method ensures that the object's new `Model()` is exactly the
  `Simulation` function applied to the old one. The loops of the
  collision passes and of `updateEnemies` live in worker methods that
  state only the fields they write. A one-call method beside each worker
  lifts that to the whole object.

The inputs the outside world supplies are parameters:

- the clock is one `now: int` per tick;
- each draw of `Math.random()` is a `real` roll, or the index it selects;
- the held keys are a `Keys` value.

Positions and speeds are exact `real`s, because `enemySpeed = 1 + 0.3 * level`
is fractional.

## Model

| member | source | states |
|---|---|---|
| Entities.CollidingIffSharedInterior | script.js:581-586 | for rectangles of positive size, the strict overlap test holds exactly when some point lies strictly inside both |
| Entities.CollidingSymmetric | script.js:581-586 | the collision test does not depend on argument order |
| Entities.TouchingEdgesDoNotCollide | script.js:581-586 | rectangles that only share an edge do not collide (all four comparisons are strict) |
| Formation.GridAt | script.js:347-360 | the nested loops push in row-major order: index row*8+col holds the enemy built at (row, col) |
| Formation.FormationAt | script.js:336-360 | a level's formation has 8*(3+level) enemies; the one at (row, col) sits at x = 80+50*col, y = 50+50*row, is weak/medium/strong for rows 0-1/2-3/4+, has health = maxHealth = 1/2/3 and is worth 10/20/30 |
| Formation.GridFullHealth | script.js:348-357 | every freshly built enemy is at full health, between 1 and 3, and worth ten points per health |
| Formation.ShotCooldown | script.js:367 | the cooldown `max(150, 300 - 30*level)` is never below 150, is 300-30*level up to level 5, and 150 from level 5 on |
| Motion.MoveAndKeep | script.js:458-518 | the move-then-filter shape: every kept item passed the filter, every moved item that passes is kept, and every kept item is a moved original |
| Motion.MoveAndKeepOne | script.js:459-462 | one item is moved and kept exactly when the moved item passes the filter |
| Motion.MoveAndKeepConcat | script.js:458-518 | filtering a concatenation concatenates the results, so, with the one-item case, the kept items are the moved survivors in their old order, each as often as in the input |
| Motion.SpawnedPowerUp | script.js:520-531 | a spawned power-up starts at the top, 30x30, of the chosen type, and for a roll in [0,1) lies within [0, 770) |
| Motion.SteerStaysOnCanvas | script.js:406-412 | steering keeps the player's x in [0, 800 - width] when it starts there, and changes nothing but x |
| Motion.HoldLeftExact | script.js:407-409 | holding Left only, with x >= n*speed, moves left by exactly n*speed over n ticks |
| Motion.FiveTicksLeftFromCentre | script.js:407-409 | from the fresh player's x = 380, five ticks of Left at speed 5 end at x = 355 |
| Motion.Volley | script.js:423-453 | one trigger fires 3 bullets under Multi-Shot and 1 otherwise, all 4x15 at speed 8 from the player's row, centred, the other two at -15 and +15 |
| Collisions.RemoveAt | script.js:546 | `splice(i, 1)` removes exactly index i and shifts the rest down by one |
| Collisions.LastHit | script.js:537-540 | the inner reverse scan finds the highest-index enemy the bullet touches, and no enemy above it is touched |
| Collisions.ResolveBullet | script.js:537-551 | one bullet is consumed exactly when it touches some enemy; the bullets before it are untouched |
| Collisions.ResolveBulletHitsHighest | script.js:537-551 | first hit wins: the highest-index touched enemy alone loses exactly one health, is removed with its points scored at 0 health, and every other enemy is unchanged |
| Collisions.ResolveBulletAccounting | script.js:537-551 | one bullet removes at most one health point and one enemy, the survivors stay sound, and the score does not go down |
| Collisions.BulletPassAccounting | script.js:534-552 | over the whole pass, total enemy health drops by exactly the number of bullets consumed, at most that many enemies vanish, survivors stay sound, and the score does not go down |
| Collisions.TotalHealthRemoveAt | script.js:546 | splicing out an enemy takes exactly its health out of the total |
| Collisions.TotalHealthUpdate | script.js:542 | decrementing one enemy's health lowers the total by exactly that much |
| Collisions.TotalPointsRemoveAt | script.js:544-546 | splicing out an enemy takes exactly its points out of the total |
| Collisions.TotalPointsUpdate | script.js:542 | a hit that leaves an enemy alive leaves the total of points unchanged |
| Collisions.ResolveBulletScore | script.js:537-551 | one bullet adds to the score exactly the points of the enemy it destroys, and nothing when it destroys none |
| Collisions.BulletPassScore | script.js:534-552 | over the whole pass the score grows by exactly the points of the enemies destroyed: the formation's total points less those of the enemies left |
| Collisions.UnhitExactly | script.js:554-569 | no enemy bullet left touches the player, every one that misses it is left, and every one left was there before |
| Collisions.UnhitCounts | script.js:554-569 | each bullet is left as many times as it was there if it misses the player, and not at all if it touches it |
| Collisions.UnhitConcat | script.js:554-569 | the pass over a concatenation is the concatenation of the passes, so the bullets left keep their order |
| Collisions.NoHitsIffNoneTouch | script.js:554-569 | no hit is counted exactly when no enemy bullet touches the player |
| Collisions.UncollectedExactly | script.js:571-578 | no power-up left touches the player, every one that misses it is left, every one left was there before, and the type of every one that touches it is collected |
| Collisions.UncollectedCounts | script.js:571-578 | each power-up is left as many times as it was there if it misses the player, and not at all if it touches it |
| Collisions.UncollectedConcat | script.js:571-578 | the power-ups left from a concatenation are those left from each part, in order |
| Collisions.CollectedConcat | script.js:571-578 | the types collected from a concatenation are those of each part, in order |
| Collisions.NothingCollectedIffNoneTouch | script.js:571-578 | nothing is collected exactly when no power-up touches the player |
| Simulation.ActivateAfterPickups | script.js:571-597 | activating one more power-up after a list of pickups equals picking up the longer list, so the reverse loop leaves the lowest-index one active |
| Properties.CreateEnemiesEffect | script.js:336-363 | `createEnemies` builds exactly 8*(3+level) enemies at full health, sets the direction to 1, and changes nothing else |
| Properties.LevelCompleteEffect | script.js:631-635 | a level change adds exactly 1 to the level and rebuilds formation, speed, cooldown (>= 150) and player (so any shield is lost); score, lives, the active effect, its end time, the projectiles and the state are kept |
| Properties.StartPvEEffect | script.js:150-158 | starting a run keeps the level, zeroes the score, gives 3 lives, clears projectiles and effect, builds a sound formation and a fresh player, and enters Playing |
| Properties.CooldownHalved | script.js:420 | Rapid Fire halves the cooldown; otherwise it is `shotCooldown` |
| Properties.ShootEffect | script.js:418-456 | nothing fires unless strictly more than the cooldown has passed; then the volley is appended (3 or 1 bullets), the shot time becomes now, and nothing else changes |
| Properties.RapidFireFiresSooner | script.js:420-422 | with a 300 ms cooldown, 200 ms after a shot Rapid Fire fires one bullet and no effect fires none; at exactly 300 ms nothing fires either |
| Properties.HandleInputEffect | script.js:406-416 | input changes only the player's x, which stays on the canvas; without fire nothing else changes; with fire it is `shoot` on the steered player; Left alone moves exactly speed |
| Properties.MarchEffect | script.js:468-483 | every enemy's x moves by exactly enemySpeed*enemyDirection and the count is kept; if one then touches an edge the direction flips and every y grows by exactly 20, otherwise no y changes; nothing else about an enemy changes |
| Properties.UpdateEnemiesEffect | script.js:465-503 | without enemies nothing happens; otherwise the chosen enemy fires after the march exactly when the roll is under 0.01+0.005*level, and the state becomes game over exactly when an enemy's bottom reaches the player's y |
| Properties.MarchKeepsSound | script.js:468-483 | marching keeps every enemy's health and points |
| Properties.EnemyBulletPassEffect | script.js:554-569 | no bullet left touches the player, every one that misses it is left, and every one left was there; a shielded player loses nothing; otherwise one life per hit, and game over exactly when a hit leaves lives <= 0 |
| Properties.LivesCanGoNegative | script.js:554-569 | with 1 life and no shield, two bullets on the player in one tick leave lives at -1 (the loop continues after `gameOver`) |
| Properties.FirstCollected | script.js:571-578 | the first type collected is that of the lowest-index power-up touching the player |
| Properties.PowerUpPassEffect | script.js:571-578 | every touching power-up is removed, every one that misses is left, and every one left was there; if any was, the lowest-index one is the active effect, ending now+10000, and the shield flag is set if any was a Shield; otherwise effect and player are unchanged |
| Properties.ActivatePowerUpEffect | script.js:588-597 | the new type replaces the active one, ending now+10000; the shield flag is set for a Shield and otherwise kept |
| Properties.ExpiryEffect | script.js:599-607 | with no effect or at or before its end time nothing changes; after it the effect is cleared, and the shield flag only when the effect was a Shield |
| Properties.ExpiryIsStrict | script.js:600 | an effect is still active at exactly 10000 ms and gone 1 ms later |
| Properties.ShieldExpires | script.js:588-607 | a Shield picked up without a prior shield and left to expire restores the player exactly |
| Properties.ShieldSticks | script.js:588-607 | a Shield followed by another type leaves the shield flag set through that effect's expiry and every later expiry check |
| Properties.GameLoopGate | script.js:370-373 | outside Playing a frame changes nothing (paused and finished runs stay); in Playing it is one tick |
| Properties.PauseThenResume | script.js:767-780 | pausing a running game and resuming it gives back the same game |
| Properties.QuitToMenuEffect | script.js:797-810 | quitting returns to the menu out of any room and changes nothing else |
| Properties.StartsConsistent | script.js:23-65 | the constructed game and every started run satisfy the invariant |
| Properties.PlayerBulletPassKeeps | script.js:534-552 | the first collision pass keeps the invariant and never lowers the score |
| Properties.PlayerBulletPassScore | script.js:534-552 | the first collision pass adds exactly the points of the enemies it destroys to the score |
| Properties.CheckCollisionsKeeps | script.js:533-579 | the collision passes keep the invariant and never lower the score |
| Properties.HandleInputKeeps | script.js:406-416 | input keeps the invariant and changes neither score nor level |
| Properties.UpdateEnemiesKeeps | script.js:465-503 | the enemy update keeps the invariant and changes neither score nor level |
| Properties.EndOfTickKeeps | script.js:390-398 | expiry, spawn and level change keep the invariant and the score |
| Properties.TickKeeps | script.js:384-404 | one tick keeps the invariant, never lowers the score, and never lowers the level |
| Properties.BeforeCollisionsLevel | script.js:385-389 | input and the four motion steps never change the level |
| Properties.CheckCollisionsLevel | script.js:533-579 | the collision passes never change the level |
| Properties.PickupActiveAtTickEnd | script.js:390-391 | expiry runs after the collision check, so a power-up picked up in a tick is the active effect at the end of that tick, ending 10000 ms after it |
| Properties.LastKillAdvancesLevel | script.js:390-399 | the level check runs after the collision check: in the frame whose collisions leave no enemy the level goes up by exactly one with the new level's formation, and while an enemy is left the level stays |
| Properties.GameLoopKeeps | script.js:370-382 | one frame keeps the invariant and never lowers score or level |
| Properties.RunKeeps | script.js:370-382 | any sequence of frames keeps the invariant and never lowers the score |
| Sync.OwnSlot | script.js:640 | a side writes its state to player1 exactly when it is the host |
| Sync.OpponentSlot | script.js:270 | a side listens to the slot it does not write |
| Sync.SlotsCross | script.js:270 | each side reads exactly the slot the other side writes |
| Sync.SlotPathsDiffer | script.js:640 | the two slot paths differ, so the sides never overwrite each other |
| Sync.SyncSlot | script.js:637-641 | the state is written only in a connected multiplayer game, and then to the side's own slot |
| Sync.CharAt | script.js:305 | `charAt` gives the one-character string at an index in range and "" out of range |
| Sync.DrawIndexInRange | script.js:305 | a draw in [0, 1) selects an index of the 36-character alphabet |
| Sync.RoomCodeOverAlphabet | script.js:301-308 | whatever the draws, the code has at most one character per draw, all from the alphabet |
| Sync.RoomCodeOfDraws | script.js:301-308 | with draws in [0, 1) the code has one character per draw, the k-th being the alphabet at floor(36*draw_k) |
| Sync.GenerateRoomCode | script.js:301-308 | the loop builds the code the six draws spell: at most 6 alphabet characters, exactly 6 when every draw is in [0, 1) |
| GameObject.Game.constructor | script.js:23-65 | the new object is the initial world: menu, level 1, 3 lives, empty arrays, cooldown 300, direction 1, speed 1 |
| GameObject.Game.StartPvE | script.js:150-158 | the object becomes `Simulation.StartPvE` of its old state |
| GameObject.Game.ResetGame | script.js:310-320 | the fields `resetGame` writes take their reset values, and no other field changes |
| GameObject.Game.InitGame | script.js:322-334 | the object becomes `Simulation.InitGame` of its old state |
| GameObject.Game.CreateEnemies | script.js:336-363 | the nested loops leave the level's formation and direction 1 |
| GameObject.Game.SetEnemySpeed | script.js:365-368 | the object becomes `Simulation.SetEnemySpeed` of its old state |
| GameObject.Game.LevelComplete | script.js:631-635 | the object becomes `Simulation.LevelComplete` of its old state |
| GameObject.Game.HandleInput | script.js:406-416 | the object becomes `Simulation.HandleInput` of its old state |
| GameObject.Game.Shoot | script.js:418-456 | the object becomes `Simulation.Shoot` of its old state |
| GameObject.Game.UpdateBullets | script.js:458-463 | the object becomes `Simulation.UpdateBullets` of its old state |
| GameObject.Game.UpdateEnemyBullets | script.js:506-511 | the object becomes `Simulation.UpdateEnemyBullets` of its old state |
| GameObject.Game.UpdatePowerUps | script.js:513-518 | the object becomes `Simulation.UpdatePowerUps` of its old state |
| GameObject.Game.SpawnPowerUp | script.js:520-531 | the object becomes `Simulation.SpawnPowerUp` of its old state |
| GameObject.Game.UpdateEnemies | script.js:465-503 | the object becomes `Simulation.UpdateEnemies` of its old state |
| GameObject.Game.ShiftFormation | script.js:468-476 | the first loop shifts the formation and reports whether an enemy ended at an edge |
| GameObject.Game.ShiftEnemies | script.js:470-476 | every enemy moves by dx in place, and the flag is set exactly when some moved enemy is at an edge |
| GameObject.Game.Bounce | script.js:478-483 | the direction flips and the loop drops every enemy by 20 |
| GameObject.Game.EnemyFire | script.js:485-496 | the object becomes `Simulation.EnemyFire` of its old state |
| GameObject.Game.CheckBreach | script.js:498-503 | the last loop ends the run exactly when some enemy has reached the player's row |
| GameObject.Game.CheckCollisions | script.js:533-579 | the object becomes `Simulation.CheckCollisions` of its old state |
| GameObject.Game.PlayerBulletPass | script.js:534-552 | the object becomes `Simulation.PlayerBulletPass` of its old state |
| GameObject.Game.ResolvePlayerBullets | script.js:534-552 | the outer reverse loop leaves bullets, enemies and score as the pure pass computes them |
| GameObject.Game.ResolvePlayerBullet | script.js:537-551 | the inner reverse loop resolves one bullet as `ResolveBullet` does: first hit wins, splice, decrement, score |
| GameObject.Game.EnemyBulletPass | script.js:554-569 | the object becomes `Simulation.EnemyBulletPass` of its old state |
| GameObject.Game.ResolveEnemyBullets | script.js:554-569 | the reverse loop leaves enemy bullets, lives and state as the pure pass computes them |
| GameObject.Game.ResolveEnemyBullet | script.js:555-568 | one iteration: a touching bullet is spliced out and, without a shield, costs a life and ends the run at 0 or fewer lives |
| GameObject.Game.PowerUpPass | script.js:571-578 | the object becomes `Simulation.PowerUpPass` of its old state |
| GameObject.Game.ResolvePowerUps | script.js:571-578 | the reverse loop leaves power-ups, effect, end time and player as the pure pass computes them |
| GameObject.Game.ResolvePowerUp | script.js:572-577 | one iteration: a touching power-up is activated and spliced out; otherwise nothing changes |
| GameObject.Game.ActivatePowerUp | script.js:588-597 | effect, end time and player become those of `Simulation.ActivatePowerUp` |
| GameObject.Game.CheckPowerUpExpiry | script.js:599-607 | the object becomes `Simulation.CheckPowerUpExpiry` of its old state |
| GameObject.Game.Update | script.js:384-404 | the object becomes `Simulation.Tick` of its old state |
| GameObject.Game.GameLoop | script.js:370-382 | the object becomes `Simulation.GameLoop` of its old state |
| GameObject.Game.PauseGame | script.js:767-773 | the state becomes Paused, nothing else changes |
| GameObject.Game.ResumeGame | script.js:775-780 | the state becomes Playing, nothing else changes |
| GameObject.Game.GameOver | script.js:782-795 | the state becomes GameOver, nothing else changes |
| GameObject.Game.LeaveMultiplayerRoom | script.js:284-299 | the object leaves multiplayer and host mode, nothing else in the model changes |
| GameObject.Game.QuitToMenu | script.js:797-810 | the object becomes `Simulation.QuitToMenu` of its old state |

## Left out

- Rendering and the DOM are not modelled: `render`, the `draw*` methods, `showScreen`, `updateHUD`, `updatePowerUpStatus`, `updateOpponentInfo` and `initEventListeners` only produce output or wire up events.
- The key and button event listeners (script.js:67-143) are not modelled; the keys held in a tick are an input, and pausing, resuming and quitting are called directly.
- Firebase is not modelled, being asynchronous foreign calls: creating and joining rooms, the `startMultiplayerGame` listener, the `off()`/`remove()` of `leaveMultiplayerRoom`, the write of `syncMultiplayerState` and the `status: 'finished'` update of `gameOver`. Only the choice of slot and path is modelled (module `Sync`).
- `startMultiplayerGame` is not modelled; it differs from `startPvE` chiefly in setting `level = 1`, and the rest is Firebase.
- GameObject.Game.LeaveMultiplayerRoom: `roomCode`, `playerId`, `opponentData` and `gameRef` are not fields of the model, so only `isMultiplayer` and `isHost` are cleared.
- Frame scheduling is not modelled: `requestAnimationFrame`, `cancelAnimationFrame`, `animationId`, `lastTime` and the unused `deltaTime`. Nor are the trailing `gameLoop` calls of `startPvE` and `resumeGame`: a driver calls `GameLoop` once per frame instead.
- `Date.now()` becomes one `now` per tick, for `shoot`, `activatePowerUp` and `checkPowerUpExpiry` alike; the source reads the clock separately in each, a few microseconds apart.
- `Math.random()` becomes inputs of the tick:
  - the fire roll;
  - the shooter as an index, with `if (shooter)` read as "the index is in range";
  - the spawn roll;
  - the spawned type, chosen directly rather than as `types[floor(3*roll)]`;
  - the spawn x roll.
- Floating point is not modelled: positions, speeds and cooldowns are exact reals, so IEEE rounding of, for example, `1 + 0.3*level` is not captured.
- The player is never `null` in the model: the object is built with a fresh player, where the source sets `player = null` until the first game. No simulation method runs before a game starts.
- `keys`, `canvas`, `ctx`, `enemyDropAmount` (always 20) and `firebaseReady` are not fields of the model; the canvas size and drop amount are constants.
- The loops of `updateEnemies` and `checkCollisions` are split into one method per loop (and per loop body for the collision passes); the order of effects is the source's.
- Bullets, enemy bullets and power-ups, which the `update*` filters move in place before keeping or dropping them, and enemies, which the loops of `updateEnemies` move in place, are values in the model, not shared objects: aliasing between arrays is not captured (no object is in two arrays in the source).

Some readings of the game's behaviour are not what the code does. The model follows the code:

- A Shield picked up before another type leaves the shield flag set when that effect expires, and no later expiry check clears it (`ShieldSticks`). It stays set until the player is rebuilt, at the next level or in a new run.
- Lives can go below zero (`LivesCanGoNegative`).
- A level change rebuilds the player, which drops an active shield while keeping the active effect (`LevelCompleteEffect`).
- Expiry is strict: an effect is still active at exactly its end time (`ExpiryIsStrict`).
- `startPvE` does not reset the level (`StartPvEEffect`).
