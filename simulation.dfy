/**
 * The game as a value: `World` holds every field of the `Game` object that
 * the simulation reads or writes, and each function below is one method of
 * the object, written as the new state it produces from the old one. The
 * class in module GameObject is proved to compute exactly these functions.
 */
module Simulation {
  import opened Wrappers
  import opened Entities
  import opened Formation
  import opened Motion
  import opened Collisions

  /** How long a collected power-up lasts, in milliseconds. */
  const PowerUpDuration: int := 10000

  datatype World = World(
    state: GameState,
    mode: Option<GameMode>,
    isMultiplayer: bool,
    isHost: bool,
    level: int,
    score: int,
    lives: int,
    player: Player,
    enemies: seq<Enemy>,
    bullets: seq<Bullet>,
    enemyBullets: seq<Bullet>,
    powerUps: seq<PowerUp>,
    activePowerUp: Option<PowerUpType>,
    powerUpEndTime: int,
    lastShot: int,
    shotCooldown: int,
    enemyDirection: int,
    enemySpeed: real)

  /**
   * What the outside world supplies for one tick: the held keys, the clock
   * (`Date.now()`, read once per tick) and the draws of `Math.random()`:
   * the enemy-fire roll, the shooter's index, the power-up roll, its type
   * and the roll that places it.
   */
  datatype TickInput = TickInput(
    keys: Keys,
    now: int,
    fireRoll: real,
    shooter: int,
    spawnRoll: real,
    spawnKind: PowerUpType,
    spawnXRoll: real)

  /** The object as the `Game` constructor leaves it, on the menu. */
  function Initial(): World {
    World(GameState.Menu, None, false, false, 1, 0, 3, FreshPlayer(), [], [], [], [],
          None, 0, 0, 300, 1, 1.0)
  }

  // ---------------------------------------------------------------------
  // Starting a run and changing level.

  function ResetGame(w: World): World {
    w.(score := 0, lives := 3, enemies := [], bullets := [], enemyBullets := [], powerUps := [],
       activePowerUp := None, powerUpEndTime := 0)
  }

  function CreateEnemies(w: World): World {
    w.(enemies := LevelFormation(w.level), enemyDirection := 1)
  }

  function SetEnemySpeed(w: World): World {
    w.(enemySpeed := EnemySpeed(w.level), shotCooldown := ShotCooldown(w.level))
  }

  function InitGame(w: World): World {
    SetEnemySpeed(CreateEnemies(w.(player := FreshPlayer())))
  }

  function StartPvE(w: World): World {
    InitGame(ResetGame(w.(mode := Some(PvE), isMultiplayer := false))).(state := Playing)
  }

  function LevelComplete(w: World): World {
    InitGame(w.(level := w.level + 1))
  }

  // ---------------------------------------------------------------------
  // Input and firing.

  /** The cooldown in force: halved while Rapid Fire is active. */
  function Cooldown(w: World): real {
    if w.activePowerUp == Some(RapidFire) then w.shotCooldown as real / 2.0 else w.shotCooldown as real
  }

  function Shoot(w: World, now: int): World {
    if (now - w.lastShot) as real > Cooldown(w) then
      w.(bullets := w.bullets + Volley(w.player, w.activePowerUp == Some(MultiShot)), lastShot := now)
    else w
  }

  function HandleInput(w: World, keys: Keys, now: int): World {
    var steered := w.(player := Steer(w.player, keys));
    if keys.fire then Shoot(steered, now) else steered
  }

  // ---------------------------------------------------------------------
  // Motion.

  function UpdateBullets(w: World): World {
    w.(bullets := MoveAndKeep(w.bullets, Rise, BelowTop))
  }

  function UpdateEnemyBullets(w: World): World {
    w.(enemyBullets := MoveAndKeep(w.enemyBullets, Fall, AboveBottom))
  }

  function UpdatePowerUps(w: World): World {
    w.(powerUps := MoveAndKeep(w.powerUps, Drift, PowerUpOnScreen))
  }

  function GameOver(w: World): World {
    w.(state := GameState.GameOver)
  }

  /**
   * The marching step: shift, then bounce and drop in the same tick if any
   * enemy reached an edge; maybe fire from the chosen enemy; end the run if
   * the formation reached the player's row. Nothing happens without enemies.
   */
  function UpdateEnemies(w: World, fireRoll: real, shooter: int): World {
    if |w.enemies| == 0 then w
    else CheckBreach(EnemyFire(March(w), fireRoll, shooter))
  }

  /** Shift the formation; if an enemy is then at an edge, flip the direction and drop. */
  function March(w: World): World {
    var moved := ShiftFormation(w);
    if AnyAtEdge(moved.enemies) then DropFormation(moved.(enemyDirection := -w.enemyDirection))
    else moved
  }

  /** Every enemy moves by enemySpeed * enemyDirection. */
  function ShiftFormation(w: World): World {
    w.(enemies := Shifted(w.enemies, MarchStep(w)))
  }

  /** How far the formation moves sideways in one tick. */
  function MarchStep(w: World): real {
    w.enemySpeed * w.enemyDirection as real
  }

  /** Every enemy moves down by the drop amount. */
  function DropFormation(w: World): World {
    w.(enemies := Dropped(w.enemies, DropAmount))
  }

  /** With the roll under the level's fire chance, the enemy at index shooter fires, if there is one. */
  function EnemyFire(w: World, fireRoll: real, shooter: int): World {
    if fireRoll < FireChance(w.level) && 0 <= shooter < |w.enemies|
    then w.(enemyBullets := w.enemyBullets + [EnemyShot(w.enemies[shooter])])
    else w
  }

  /** The run ends once an enemy's bottom edge reaches the player's row. */
  function CheckBreach(w: World): World {
    if Breached(w.enemies, w.player.y) then GameOver(w) else w
  }

  function SpawnPowerUp(w: World, kind: PowerUpType, xRoll: real): World {
    w.(powerUps := w.powerUps + [SpawnedPowerUp(kind, xRoll)])
  }

  // ---------------------------------------------------------------------
  // Collisions and the timed effect.

  function ActivatePowerUp(w: World, kind: PowerUpType, now: int): World {
    w.(activePowerUp := Some(kind), powerUpEndTime := now + PowerUpDuration,
       player := if kind == Shield then w.player.(hasShield := true) else w.player)
  }

  function CheckPowerUpExpiry(w: World, now: int): World {
    if w.activePowerUp.Some? && now > w.powerUpEndTime then
      w.(activePowerUp := None,
         player := if w.activePowerUp == Some(Shield) then w.player.(hasShield := false) else w.player)
    else w
  }

  function PlayerBulletPass(w: World): World {
    var r := BulletPass(HitState(w.bullets, w.enemies, w.score), |w.bullets|);
    w.(bullets := r.bullets, enemies := r.enemies, score := r.score)
  }

  /**
   * Every enemy bullet touching the player is removed; unless shielded, each
   * costs a life, and the run ends once lives reach 0 or less.
   */
  function EnemyBulletPass(w: World): World {
    var box := w.player.Box();
    var hits := HitCount(w.enemyBullets, box);
    var shielded := w.player.hasShield;
    var w1 := w.(enemyBullets := Unhit(w.enemyBullets, box),
                 lives := if shielded then w.lives else w.lives - hits);
    if !shielded && hits > 0 && w.lives - hits <= 0 then GameOver(w1) else w1
  }

  /**
   * Every power-up touching the player is removed and activated; the loop
   * runs from the highest index down, so the lowest-index one is the effect
   * left active, and a Shield among them sets the shield flag.
   */
  function PowerUpPass(w: World, now: int): World {
    var box := w.player.Box();
    ApplyPickups(w.(powerUps := Uncollected(w.powerUps, box)), Collected(w.powerUps, box), now)
  }

  /**
   * The effect of activating the power-ups `got`, all at time now, the last
   * element first and the first one last.
   */
  function ApplyPickups(w: World, got: seq<PowerUpType>, now: int): World {
    if got == [] then w
    else w.(activePowerUp := Some(got[0]), powerUpEndTime := now + PowerUpDuration,
            player := w.player.(hasShield := w.player.hasShield || Shield in got))
  }

  /** Activating one more power-up after `got` is picking up `[kind] + got`. */
  lemma ActivateAfterPickups(w: World, got: seq<PowerUpType>, kind: PowerUpType, now: int)
    ensures ActivatePowerUp(ApplyPickups(w, got, now), kind, now) == ApplyPickups(w, [kind] + got, now)
  {
  }

  function CheckCollisions(w: World, now: int): World {
    PowerUpPass(EnemyBulletPass(PlayerBulletPass(w)), now)
  }

  // ---------------------------------------------------------------------
  // The tick and the state machine.

  /** One call of `update`, in its fixed order. */
  function Tick(w: World, t: TickInput): World {
    var w1 := HandleInput(w, t.keys, t.now);
    var w2 := UpdateBullets(w1);
    var w3 := UpdateEnemies(w2, t.fireRoll, t.shooter);
    var w4 := UpdateEnemyBullets(w3);
    var w5 := UpdatePowerUps(w4);
    var w6 := CheckCollisions(w5, t.now);
    var w7 := CheckPowerUpExpiry(w6, t.now);
    var w8 := if t.spawnRoll < 0.002 * w7.level as real then SpawnPowerUp(w7, t.spawnKind, t.spawnXRoll) else w7;
    if |w8.enemies| == 0 then LevelComplete(w8) else w8
  }

  /** Tick, taken one step at a time. */
  lemma TickSteps(w0: World, t: TickInput, w1: World, w2: World, w3: World, w4: World,
                  w5: World, w6: World, w7: World, w8: World)
    requires w1 == HandleInput(w0, t.keys, t.now)
    requires w2 == UpdateBullets(w1)
    requires w3 == UpdateEnemies(w2, t.fireRoll, t.shooter)
    requires w4 == UpdateEnemyBullets(w3)
    requires w5 == UpdatePowerUps(w4)
    requires w6 == CheckCollisions(w5, t.now)
    requires w7 == CheckPowerUpExpiry(w6, t.now)
    requires w8 == if t.spawnRoll < 0.002 * w7.level as real then SpawnPowerUp(w7, t.spawnKind, t.spawnXRoll) else w7
    ensures Tick(w0, t) == if |w8.enemies| == 0 then LevelComplete(w8) else w8
  {
  }

  /** One frame: only the Playing state runs the simulation. */
  function GameLoop(w: World, t: TickInput): World {
    if w.state != Playing then w else Tick(w, t)
  }

  function PauseGame(w: World): World { w.(state := Paused) }

  function ResumeGame(w: World): World { w.(state := Playing) }

  function LeaveMultiplayerRoom(w: World): World {
    w.(isMultiplayer := false, isHost := false)
  }

  function QuitToMenu(w: World): World {
    LeaveMultiplayerRoom(w).(state := GameState.Menu)
  }
}
