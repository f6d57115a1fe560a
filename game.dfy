/**
 * The `Game` object: the simulation's fields, updated in place by its
 * methods. Every method is proved to leave the object in exactly the state
 * the matching function of module Simulation computes from the old state.
 */
module GameObject {
  import opened Wrappers
  import opened Entities
  import opened Formation
  import opened Motion
  import opened Collisions
  import Simulation

  class Game {
    var state: GameState
    var mode: Option<GameMode>
    var isMultiplayer: bool
    var isHost: bool
    var level: int
    var score: int
    var lives: int
    var player: Player
    var enemies: seq<Enemy>
    var bullets: seq<Bullet>
    var enemyBullets: seq<Bullet>
    var powerUps: seq<PowerUp>
    var activePowerUp: Option<PowerUpType>
    var powerUpEndTime: int
    var lastShot: int
    var shotCooldown: int
    var enemyDirection: int
    var enemySpeed: real

    /** The object's fields as one value. */
    ghost function Model(): Simulation.World
      reads this
    {
      Simulation.World(state, mode, isMultiplayer, isHost, level, score, lives, player,
                       enemies, bullets, enemyBullets, powerUps, activePowerUp, powerUpEndTime,
                       lastShot, shotCooldown, enemyDirection, enemySpeed)
    }

    constructor ()
      ensures Model() == Simulation.Initial()
    {
      state := GameState.Menu;
      mode := None;
      level := 1;
      score := 0;
      lives := 3;
      player := FreshPlayer();
      enemies := [];
      bullets := [];
      enemyBullets := [];
      powerUps := [];
      activePowerUp := None;
      powerUpEndTime := 0;
      lastShot := 0;
      shotCooldown := 300;
      enemyDirection := 1;
      enemySpeed := 1.0;
      isMultiplayer := false;
      isHost := false;
    }

    // -------------------------------------------------------------------
    // Starting a run and changing level.

    method StartPvE()
      modifies this
      ensures Model() == Simulation.StartPvE(old(Model()))
    {
      mode := Some(PvE);
      isMultiplayer := false;
      ResetGame();
      InitGame();
      state := Playing;
    }

    method ResetGame()
      modifies this`score, this`lives, this`enemies, this`bullets, this`enemyBullets, this`powerUps,
               this`activePowerUp, this`powerUpEndTime
      ensures var w := Simulation.ResetGame(old(Model()));
        && score == w.score && lives == w.lives && enemies == w.enemies && bullets == w.bullets
        && enemyBullets == w.enemyBullets && powerUps == w.powerUps
        && activePowerUp == w.activePowerUp && powerUpEndTime == w.powerUpEndTime
    {
      score := 0;
      lives := 3;
      enemies := [];
      bullets := [];
      enemyBullets := [];
      powerUps := [];
      activePowerUp := None;
      powerUpEndTime := 0;
    }

    method InitGame()
      modifies this`player, this`enemies, this`enemyDirection, this`enemySpeed, this`shotCooldown
      ensures Model() == Simulation.InitGame(old(Model()))
    {
      player := FreshPlayer();
      CreateEnemies();
      SetEnemySpeed();
    }

    /** The nested loops push the grid row by row. */
    method CreateEnemies()
      modifies this`enemies, this`enemyDirection
      ensures var w := Simulation.CreateEnemies(old(Model()));
        enemies == w.enemies && enemyDirection == w.enemyDirection
    {
      enemies := [];
      var rows := 3 + level;
      var row := 0;
      while row < rows
        invariant 0 <= row <= Rows(level)
        invariant enemies == Grid(row)
        modifies this`enemies
      {
        var col := 0;
        while col < Cols
          invariant 0 <= col <= Cols
          invariant enemies == Grid(row) + RowOf(row)[..col]
          modifies this`enemies
        {
          var kind := KindOfRow(row);
          enemies := enemies + [Enemy(OffsetX + col as real * (EnemyWidth + Padding),
                                      OffsetY + row as real * (EnemyHeight + Padding),
                                      EnemyWidth, EnemyHeight, kind,
                                      HealthOf(kind), HealthOf(kind), PointsOf(kind))];
          col := col + 1;
        }
        assert RowOf(row)[..Cols] == RowOf(row);
        row := row + 1;
      }
      enemyDirection := 1;
    }

    method SetEnemySpeed()
      modifies this`enemySpeed, this`shotCooldown
      ensures Model() == Simulation.SetEnemySpeed(old(Model()))
    {
      enemySpeed := 1.0 + level as real * 0.3;
      var slowed := 300 - level * 30;
      shotCooldown := if slowed >= 150 then slowed else 150;
    }

    method LevelComplete()
      modifies this`level, this`player, this`enemies, this`enemyDirection, this`enemySpeed, this`shotCooldown
      ensures Model() == Simulation.LevelComplete(old(Model()))
    {
      level := level + 1;
      InitGame();
    }

    // -------------------------------------------------------------------
    // Input and firing.

    method HandleInput(keys: Keys, now: int)
      modifies this`player, this`bullets, this`lastShot
      ensures Model() == Simulation.HandleInput(old(Model()), keys, now)
    {
      if keys.left {
        player := player.(x := Max(0.0, player.x - player.speed));
      }
      if keys.right {
        player := player.(x := Min(CanvasWidth - player.width, player.x + player.speed));
      }
      if keys.fire {
        Shoot(now);
      }
    }

    method Shoot(now: int)
      modifies this`bullets, this`lastShot
      ensures Model() == Simulation.Shoot(old(Model()), now)
    {
      var cooldown := if activePowerUp == Some(RapidFire) then shotCooldown as real / 2.0
                      else shotCooldown as real;
      if (now - lastShot) as real > cooldown {
        if activePowerUp == Some(MultiShot) {
          bullets := bullets + [PlayerShot(player, 0.0)];
          bullets := bullets + [PlayerShot(player, -15.0)];
          bullets := bullets + [PlayerShot(player, 15.0)];
        } else {
          bullets := bullets + [PlayerShot(player, 0.0)];
        }
        lastShot := now;
      }
    }

    // -------------------------------------------------------------------
    // Motion.

    method UpdateBullets()
      modifies this`bullets
      ensures Model() == Simulation.UpdateBullets(old(Model()))
    {
      bullets := MoveAndKeep(bullets, Rise, BelowTop);
    }

    method UpdateEnemyBullets()
      modifies this`enemyBullets
      ensures Model() == Simulation.UpdateEnemyBullets(old(Model()))
    {
      enemyBullets := MoveAndKeep(enemyBullets, Fall, AboveBottom);
    }

    method UpdatePowerUps()
      modifies this`powerUps
      ensures Model() == Simulation.UpdatePowerUps(old(Model()))
    {
      powerUps := MoveAndKeep(powerUps, Drift, PowerUpOnScreen);
    }

    method SpawnPowerUp(kind: PowerUpType, xRoll: real)
      modifies this`powerUps
      ensures Model() == Simulation.SpawnPowerUp(old(Model()), kind, xRoll)
    {
      powerUps := powerUps + [PowerUp(xRoll * (CanvasWidth - 30.0), 0.0, 30.0, 30.0, kind)];
    }

    /**
     * Shift every enemy, bounce and drop if one reached an edge, maybe fire
     * from enemy `shooter`, and end the run if one reached the player's row.
     * Each of the source's loops is one of the methods below.
     */
    method UpdateEnemies(fireRoll: real, shooter: int)
      modifies this`enemies, this`enemyDirection, this`enemyBullets, this`state
      ensures Model() == Simulation.UpdateEnemies(old(Model()), fireRoll, shooter)
    {
      if |enemies| == 0 {
        return;
      }
      ghost var w0 := Model();
      var shouldMoveDown := ShiftFormation();
      if shouldMoveDown {
        Bounce();
      }
      ghost var w1 := Model();
      assert w1 == Simulation.March(w0);
      EnemyFire(fireRoll, shooter);
      CheckBreach();
    }

    /** The first loop of `updateEnemies`, noting whether an enemy ended at an edge. */
    method ShiftFormation() returns (atEdge: bool)
      modifies this`enemies
      ensures Model() == Simulation.ShiftFormation(old(Model()))
      ensures atEdge == AnyAtEdge(enemies)
    {
      var dx := enemySpeed * enemyDirection as real;
      assert dx == Simulation.MarchStep(Model());
      atEdge := ShiftEnemies(dx);
    }

    /** Every enemy moves horizontally by dx. */
    method ShiftEnemies(dx: real) returns (atEdge: bool)
      modifies this`enemies
      ensures enemies == Shifted(old(enemies), dx)
      ensures atEdge == AnyAtEdge(enemies)
    {
      ghost var es0 := enemies;
      atEdge := false;
      var k := 0;
      while k < |enemies|
        invariant 0 <= k <= |enemies| == |es0|
        invariant forall m :: 0 <= m < k ==> enemies[m] == es0[m].(x := es0[m].x + dx)
        invariant forall m :: k <= m < |enemies| ==> enemies[m] == es0[m]
        invariant atEdge <==> exists m :: 0 <= m < k && AtEdge(enemies[m])
        modifies this`enemies
      {
        enemies := enemies[k := enemies[k].(x := enemies[k].x + dx)];
        if enemies[k].x <= 0.0 || enemies[k].x + enemies[k].width >= CanvasWidth {
          atEdge := true;
        }
        k := k + 1;
      }
      assert enemies == Shifted(es0, dx);
    }

    /** The branch taken at an edge: flip the direction and drop every enemy. */
    method Bounce()
      modifies this`enemies, this`enemyDirection
      ensures Model() == Simulation.DropFormation(old(Model()).(enemyDirection := -old(enemyDirection)))
    {
      enemyDirection := enemyDirection * -1;
      ghost var es0 := enemies;
      var k := 0;
      while k < |enemies|
        invariant 0 <= k <= |enemies| == |es0|
        invariant forall m :: 0 <= m < k ==> enemies[m] == es0[m].(y := es0[m].y + DropAmount)
        invariant forall m :: k <= m < |enemies| ==> enemies[m] == es0[m]
        modifies this`enemies
      {
        enemies := enemies[k := enemies[k].(y := enemies[k].y + DropAmount)];
        k := k + 1;
      }
      assert enemies == Dropped(es0, DropAmount);
    }

    /** With the roll under the level's fire chance, the enemy at index shooter fires, if there is one. */
    method EnemyFire(fireRoll: real, shooter: int)
      modifies this`enemyBullets
      ensures Model() == Simulation.EnemyFire(old(Model()), fireRoll, shooter)
    {
      if fireRoll < 0.01 + level as real * 0.005 {
        if 0 <= shooter < |enemies| {
          var s := enemies[shooter];
          enemyBullets := enemyBullets + [Bullet(s.x + s.width / 2.0 - 2.0, s.y + s.height, 4.0, 12.0, 4.0)];
        }
      }
    }

    /** The last loop of `updateEnemies`: the first enemy found at the player's row ends the run. */
    method CheckBreach()
      modifies this`state
      ensures Model() == Simulation.CheckBreach(old(Model()))
    {
      var k := 0;
      while k < |enemies|
        invariant 0 <= k <= |enemies|
        invariant forall m :: 0 <= m < k ==> !Breaches(enemies[m], player.y)
        invariant state == old(state)
        modifies this`state
      {
        if enemies[k].y + enemies[k].height >= player.y {
          GameOver();
          break;
        }
        k := k + 1;
      }
    }

    // -------------------------------------------------------------------
    // Collisions and the timed effect.

    /** The three passes of `checkCollisions`, in order. */
    method CheckCollisions(now: int)
      modifies this`bullets, this`enemies, this`score, this`enemyBullets, this`lives, this`state,
               this`powerUps, this`activePowerUp, this`powerUpEndTime, this`player
      ensures Model() == Simulation.CheckCollisions(old(Model()), now)
    {
      PlayerBulletPass();
      EnemyBulletPass();
      PowerUpPass(now);
    }

    method PlayerBulletPass()
      modifies this`bullets, this`enemies, this`score
      ensures Model() == Simulation.PlayerBulletPass(old(Model()))
    {
      ResolvePlayerBullets();
    }

    method EnemyBulletPass()
      modifies this`enemyBullets, this`lives, this`state
      ensures Model() == Simulation.EnemyBulletPass(old(Model()))
    {
      ResolveEnemyBullets();
    }

    method PowerUpPass(now: int)
      modifies this`powerUps, this`activePowerUp, this`powerUpEndTime, this`player
      ensures Model() == Simulation.PowerUpPass(old(Model()), now)
    {
      ResolvePowerUps(now);
    }

    /** The first loop of `checkCollisions`: every player bullet, from the last one down. */
    method ResolvePlayerBullets()
      modifies this`bullets, this`enemies, this`score
      ensures var w := Simulation.PlayerBulletPass(old(Model()));
        bullets == w.bullets && enemies == w.enemies && score == w.score
    {
      ghost var goal := BulletPass(HitState(bullets, enemies, score), |bullets|);
      var i := |bullets| - 1;
      while i >= 0
        invariant -1 <= i < |bullets|
        invariant BulletPass(HitState(bullets, enemies, score), i + 1) == goal
        decreases i + 1
      {
        ResolvePlayerBullet(i);
        i := i - 1;
      }
    }

    /** The inner loop: bullet i against every enemy, from the last one down, up to the first hit. */
    method ResolvePlayerBullet(i: int)
      requires 0 <= i < |bullets|
      modifies this`bullets, this`enemies, this`score
      ensures HitState(bullets, enemies, score) == ResolveBullet(old(HitState(bullets, enemies, score)), i)
    {
      ghost var before := HitState(bullets, enemies, score);
      var bullet := bullets[i];
      var j := |enemies| - 1;
      while j >= 0
        invariant -1 <= j < |enemies|
        invariant forall k :: j < k < |enemies| ==> !Colliding(bullet.Box(), enemies[k].Box())
        invariant HitState(bullets, enemies, score) == before
        decreases j + 1
      {
        var enemy := enemies[j];
        if Colliding(bullet.Box(), enemy.Box()) {
          assert LastHit(bullet.Box(), enemies, |enemies|) == Some(j);
          bullets := RemoveAt(bullets, i);
          enemy := enemy.(health := enemy.health - 1);
          enemies := enemies[j := enemy];
          if enemy.health <= 0 {
            score := score + enemy.points;
            enemies := RemoveAt(enemies, j);
          }
          return;
        }
        j := j - 1;
      }
    }

    /** The second loop of `checkCollisions`. */
    method ResolveEnemyBullets()
      modifies this`enemyBullets, this`lives, this`state
      ensures var w := Simulation.EnemyBulletPass(old(Model()));
        enemyBullets == w.enemyBullets && lives == w.lives && state == w.state
    {
      ghost var eb0 := enemyBullets;
      ghost var box := player.Box();
      ghost var shielded := player.hasShield;
      ghost var hits := 0;
      var i := |enemyBullets| - 1;
      while i >= 0
        invariant -1 <= i < |eb0|
        invariant enemyBullets == eb0[..i + 1] + Unhit(eb0[i + 1..], box)
        invariant hits == HitCount(eb0[i + 1..], box)
        invariant lives == old(lives) - (if shielded then 0 else hits)
        invariant state == if !shielded && hits > 0 && old(lives) - hits <= 0
                           then GameState.GameOver else old(state)
        decreases i + 1
      {
        UnhitStep(eb0, enemyBullets, i, box);
        UnhitFrom(eb0, i, box);
        if Colliding(eb0[i].Box(), box) {
          hits := hits + 1;
        }
        ResolveEnemyBullet(i);
        i := i - 1;
      }
      assert eb0[0..] == eb0;
    }

    /** One iteration of the second loop: enemy bullet i against the player. */
    method ResolveEnemyBullet(i: int)
      requires 0 <= i < |enemyBullets|
      modifies this`enemyBullets, this`lives, this`state
      ensures var hit := Colliding(old(enemyBullets[i]).Box(), player.Box());
        && enemyBullets == (if hit then RemoveAt(old(enemyBullets), i) else old(enemyBullets))
        && lives == (if hit && !player.hasShield then old(lives) - 1 else old(lives))
        && state == (if hit && !player.hasShield && old(lives) - 1 <= 0 then GameState.GameOver
                     else old(state))
    {
      var bullet := enemyBullets[i];
      if Colliding(bullet.Box(), player.Box()) {
        enemyBullets := RemoveAt(enemyBullets, i);
        if !player.hasShield {
          lives := lives - 1;
          if lives <= 0 {
            GameOver();
          }
        }
      }
    }

    /** The third loop of `checkCollisions`. */
    method ResolvePowerUps(now: int)
      modifies this`powerUps, this`activePowerUp, this`powerUpEndTime, this`player
      ensures var w := Simulation.PowerUpPass(old(Model()), now);
        && powerUps == w.powerUps && activePowerUp == w.activePowerUp
        && powerUpEndTime == w.powerUpEndTime && player == w.player
    {
      ghost var w0 := old(Model());
      ghost var ps0 := powerUps;
      ghost var box := player.Box();
      var i := |powerUps| - 1;
      while i >= 0
        invariant -1 <= i < |ps0|
        invariant powerUps == ps0[..i + 1] + Uncollected(ps0[i + 1..], box)
        invariant var v := Simulation.ApplyPickups(w0, Collected(ps0[i + 1..], box), now);
          activePowerUp == v.activePowerUp && powerUpEndTime == v.powerUpEndTime && player == v.player
        decreases i + 1
      {
        UncollectedStep(ps0, powerUps, i, box);
        CollectedFrom(ps0, i, box);
        Simulation.ActivateAfterPickups(w0, Collected(ps0[i + 1..], box), ps0[i].kind, now);
        ResolvePowerUp(i, now);
        i := i - 1;
      }
      assert ps0[0..] == ps0;
    }

    /** One iteration of the third loop: power-up i against the player. */
    method ResolvePowerUp(i: int, now: int)
      requires 0 <= i < |powerUps|
      modifies this`powerUps, this`activePowerUp, this`powerUpEndTime, this`player
      ensures var u := old(powerUps[i]);
        var hit := Colliding(u.Box(), old(player).Box());
        var w := Simulation.ActivatePowerUp(old(Model()), u.kind, now);
        && powerUps == (if hit then RemoveAt(old(powerUps), i) else old(powerUps))
        && activePowerUp == (if hit then w.activePowerUp else old(activePowerUp))
        && powerUpEndTime == (if hit then w.powerUpEndTime else old(powerUpEndTime))
        && player == (if hit then w.player else old(player))
    {
      var powerUp := powerUps[i];
      if Colliding(powerUp.Box(), player.Box()) {
        ActivatePowerUp(powerUp.kind, now);
        powerUps := RemoveAt(powerUps, i);
      }
    }

    method ActivatePowerUp(kind: PowerUpType, now: int)
      modifies this`activePowerUp, this`powerUpEndTime, this`player
      ensures var w := Simulation.ActivatePowerUp(old(Model()), kind, now);
        activePowerUp == w.activePowerUp && powerUpEndTime == w.powerUpEndTime && player == w.player
    {
      activePowerUp := Some(kind);
      powerUpEndTime := now + 10000;
      if kind == Shield {
        player := player.(hasShield := true);
      }
    }

    method CheckPowerUpExpiry(now: int)
      modifies this`activePowerUp, this`player
      ensures Model() == Simulation.CheckPowerUpExpiry(old(Model()), now)
    {
      if activePowerUp.Some? && now > powerUpEndTime {
        if activePowerUp == Some(Shield) {
          player := player.(hasShield := false);
        }
        activePowerUp := None;
      }
    }

    // -------------------------------------------------------------------
    // The tick and the state machine.

    /** `update`: the fixed order of one tick. */
    method Update(t: Simulation.TickInput)
      modifies this
      ensures Model() == Simulation.Tick(old(Model()), t)
    {
      ghost var w0 := Model();
      HandleInput(t.keys, t.now);
      ghost var w1 := Model();
      UpdateBullets();
      ghost var w2 := Model();
      UpdateEnemies(t.fireRoll, t.shooter);
      ghost var w3 := Model();
      UpdateEnemyBullets();
      ghost var w4 := Model();
      UpdatePowerUps();
      ghost var w5 := Model();
      CheckCollisions(t.now);
      ghost var w6 := Model();
      CheckPowerUpExpiry(t.now);
      ghost var w7 := Model();
      if t.spawnRoll < 0.002 * level as real {
        SpawnPowerUp(t.spawnKind, t.spawnXRoll);
      }
      ghost var w8 := Model();
      assert w8 == if t.spawnRoll < 0.002 * w7.level as real
                   then Simulation.SpawnPowerUp(w7, t.spawnKind, t.spawnXRoll) else w7;
      if |enemies| == 0 {
        LevelComplete();
      }
      Simulation.TickSteps(w0, t, w1, w2, w3, w4, w5, w6, w7, w8);
    }

    /** One frame of `gameLoop`: nothing runs outside the Playing state. */
    method GameLoop(t: Simulation.TickInput)
      modifies this
      ensures Model() == Simulation.GameLoop(old(Model()), t)
    {
      if state != Playing {
        return;
      }
      Update(t);
    }

    method PauseGame()
      modifies this`state
      ensures Model() == Simulation.PauseGame(old(Model()))
    {
      state := Paused;
    }

    method ResumeGame()
      modifies this`state
      ensures Model() == Simulation.ResumeGame(old(Model()))
    {
      state := Playing;
    }

    method GameOver()
      modifies this`state
      ensures Model() == Simulation.GameOver(old(Model()))
      ensures state == GameState.GameOver
    {
      state := GameState.GameOver;
    }

    method LeaveMultiplayerRoom()
      modifies this`isMultiplayer, this`isHost
      ensures Model() == Simulation.LeaveMultiplayerRoom(old(Model()))
    {
      isMultiplayer := false;
      isHost := false;
    }

    method QuitToMenu()
      modifies this`isMultiplayer, this`isHost, this`state
      ensures Model() == Simulation.QuitToMenu(old(Model()))
    {
      LeaveMultiplayerRoom();
      state := GameState.Menu;
    }
  }
}
