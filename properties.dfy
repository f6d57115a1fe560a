/**
 * What the simulation promises, stated over the step functions of module
 * Simulation: the effect of each step on the fields it writes, what it
 * leaves alone, the quirks the code has (the shield flag that sticks, lives
 * below zero, the player rebuilt on a level change), and an invariant that
 * every tick preserves.
 */
module Properties {
  import opened Wrappers
  import opened Entities
  import opened Formation
  import opened Motion
  import opened Collisions
  import S = Simulation

  // ---------------------------------------------------------------------
  // Starting a run and changing level.

  /**
   * `createEnemies`: exactly 8 enemies per row for 3 + level rows, all at
   * full health, marching right; nothing else changes.
   */
  lemma CreateEnemiesEffect(w: S.World)
    requires w.level >= 1
    ensures var r := S.CreateEnemies(w);
      && |r.enemies| == 8 * (3 + w.level)
      && Sound(r.enemies)
      && (forall k :: 0 <= k < |r.enemies| ==> r.enemies[k].health == r.enemies[k].maxHealth)
      && r.enemyDirection == 1
      && r.(enemies := w.enemies, enemyDirection := w.enemyDirection) == w
  {
    GridFullHealth(Rows(w.level));
  }

  /**
   * `levelComplete`: the level goes up by exactly one and the formation,
   * speed, cooldown and player are rebuilt for it (so a shield is lost);
   * score, lives, the active effect, its end time, the projectiles and the
   * state are kept.
   */
  lemma LevelCompleteEffect(w: S.World)
    requires w.level >= 1
    ensures var r := S.LevelComplete(w);
      && r.level == w.level + 1
      && r.enemies == LevelFormation(w.level + 1) && |r.enemies| == 8 * (4 + w.level)
      && Sound(r.enemies)
      && r.enemyDirection == 1 && r.enemySpeed == EnemySpeed(w.level + 1)
      && r.shotCooldown == ShotCooldown(w.level + 1) && r.shotCooldown >= 150
      && r.player == FreshPlayer() && !r.player.hasShield
      && r.score == w.score && r.lives == w.lives
      && r.activePowerUp == w.activePowerUp && r.powerUpEndTime == w.powerUpEndTime
      && r.bullets == w.bullets && r.enemyBullets == w.enemyBullets && r.powerUps == w.powerUps
      && r.state == w.state && r.lastShot == w.lastShot && r.mode == w.mode
  {
    GridFullHealth(Rows(w.level + 1));
  }

  /**
   * `startPvE`: a fresh run at the current level (the level is not reset),
   * with no projectiles, no effect, 3 lives and a score of 0, in the
   * Playing state.
   */
  lemma StartPvEEffect(w: S.World)
    requires w.level >= 1
    ensures var r := S.StartPvE(w);
      && r.state == Playing && r.mode == Some(PvE) && !r.isMultiplayer
      && r.level == w.level && r.score == 0 && r.lives == 3
      && r.enemies == LevelFormation(w.level) && |r.enemies| == 8 * (3 + w.level) && Sound(r.enemies)
      && r.bullets == [] && r.enemyBullets == [] && r.powerUps == []
      && r.activePowerUp == None && r.powerUpEndTime == 0
      && r.player == FreshPlayer()
      && r.shotCooldown == ShotCooldown(w.level) && r.enemySpeed == EnemySpeed(w.level)
  {
    GridFullHealth(Rows(w.level));
  }

  // ---------------------------------------------------------------------
  // Input and firing.

  /** Rapid Fire halves the cooldown; otherwise it is `shotCooldown`. */
  lemma CooldownHalved(w: S.World)
    ensures w.activePowerUp == Some(RapidFire) ==> 2.0 * S.Cooldown(w) == w.shotCooldown as real
    ensures w.activePowerUp != Some(RapidFire) ==> S.Cooldown(w) == w.shotCooldown as real
  {
  }

  /**
   * `shoot`: nothing happens unless strictly more than the cooldown has
   * passed since the last shot; then the volley (3 bullets under
   * Multi-Shot, 1 otherwise) is appended and the shot time recorded.
   */
  lemma ShootEffect(w: S.World, now: int)
    ensures (now - w.lastShot) as real <= S.Cooldown(w) ==> S.Shoot(w, now) == w
    ensures (now - w.lastShot) as real > S.Cooldown(w) ==>
      var r := S.Shoot(w, now);
      var multi := w.activePowerUp == Some(MultiShot);
      && r.lastShot == now
      && r.bullets == w.bullets + Volley(w.player, multi)
      && |r.bullets| == |w.bullets| + (if multi then 3 else 1)
      && r.(bullets := w.bullets, lastShot := w.lastShot) == w
  {
  }

  /**
   * With a 300 ms cooldown, a trigger 200 ms after the last shot fires one
   * bullet under Rapid Fire and nothing without it; at exactly 300 ms
   * nothing fires either, the test being strict.
   */
  lemma RapidFireFiresSooner(w: S.World, now: int)
    requires w.shotCooldown == 300 && now == w.lastShot + 200
    ensures |S.Shoot(w.(activePowerUp := Some(RapidFire)), now).bullets| == |w.bullets| + 1
    ensures S.Shoot(w.(activePowerUp := None), now) == w.(activePowerUp := None)
    ensures S.Shoot(w.(activePowerUp := None), now + 100) == w.(activePowerUp := None)
  {
    var v := Volley(w.player, false);
    assert |v| == 1;
  }

  /**
   * `handleInput`: only the player's x moves, and it stays in
   * [0, 800 - width]; without the fire key nothing but the player changes.
   * Holding Left alone, far enough from the edge, moves exactly speed.
   */
  lemma HandleInputEffect(w: S.World, keys: Keys, now: int)
    requires w.player.speed >= 0.0 && 0.0 <= w.player.x <= CanvasWidth - w.player.width
    ensures var r := S.HandleInput(w, keys, now);
      && r.player == w.player.(x := r.player.x)
      && 0.0 <= r.player.x <= CanvasWidth - w.player.width
      && (!keys.fire ==> r == w.(player := r.player))
      && (keys.fire ==> r == S.Shoot(w.(player := r.player), now))
      && (keys.left && !keys.right && w.player.x >= w.player.speed ==> r.player.x == w.player.x - w.player.speed)
  {
    SteerStaysOnCanvas(w.player, keys);
  }

  // ---------------------------------------------------------------------
  // The marching formation.

  /**
   * The march: every enemy's x moves by exactly enemySpeed * enemyDirection
   * and the count is unchanged; if an enemy is then at an edge the
   * direction flips and every enemy drops exactly 20, otherwise no y
   * changes. Kind, size, health and points never change.
   */
  lemma MarchEffect(w: S.World)
    ensures var r := S.March(w);
      var dx := w.enemySpeed * w.enemyDirection as real;
      var bounced := AnyAtEdge(Shifted(w.enemies, dx));
      && |r.enemies| == |w.enemies|
      && (forall k :: 0 <= k < |w.enemies| ==>
            r.enemies[k] == w.enemies[k].(x := w.enemies[k].x + dx, y := r.enemies[k].y))
      && (bounced ==> r.enemyDirection == -w.enemyDirection
                      && forall k :: 0 <= k < |w.enemies| ==> r.enemies[k].y == w.enemies[k].y + 20.0)
      && (!bounced ==> r.enemyDirection == w.enemyDirection
                       && forall k :: 0 <= k < |w.enemies| ==> r.enemies[k].y == w.enemies[k].y)
      && r.(enemies := w.enemies, enemyDirection := w.enemyDirection) == w
  {
    assert S.MarchStep(w) == w.enemySpeed * w.enemyDirection as real;
  }

  /**
   * `updateEnemies`: without enemies nothing happens. Otherwise, after the
   * march, the enemy at index shooter (if there is one) fires exactly when
   * the roll is under the level's fire chance, and the run ends exactly when
   * a marched enemy's bottom edge reaches the player's row.
   */
  lemma UpdateEnemiesEffect(w: S.World, fireRoll: real, shooter: int)
    ensures |w.enemies| == 0 ==> S.UpdateEnemies(w, fireRoll, shooter) == w
    ensures |w.enemies| > 0 ==>
      var m := S.March(w);
      var r := S.UpdateEnemies(w, fireRoll, shooter);
      var fires := fireRoll < FireChance(w.level) && 0 <= shooter < |w.enemies|;
      && r.enemies == m.enemies && r.enemyDirection == m.enemyDirection
      && (fires ==> r.enemyBullets == w.enemyBullets + [EnemyShot(m.enemies[shooter])])
      && (!fires ==> r.enemyBullets == w.enemyBullets)
      && (Breached(m.enemies, w.player.y) ==> r.state == GameState.GameOver)
      && (!Breached(m.enemies, w.player.y) ==> r.state == w.state)
      && r.(enemies := w.enemies, enemyDirection := w.enemyDirection,
            enemyBullets := w.enemyBullets, state := w.state) == w
  {
    if |w.enemies| > 0 {
      MarchEffect(w);
    }
  }

  /** A march keeps every enemy's health and points, so a sound formation stays sound. */
  lemma MarchKeepsSound(w: S.World)
    requires Sound(w.enemies)
    ensures Sound(S.March(w).enemies)
  {
    MarchEffect(w);
    var r := S.March(w);
    forall k | 0 <= k < |r.enemies|
      ensures 1 <= r.enemies[k].health <= r.enemies[k].maxHealth && r.enemies[k].points >= 0
    {
      assert r.enemies[k].health == w.enemies[k].health;
    }
  }

  // ---------------------------------------------------------------------
  // Collisions.

  /**
   * The second pass: the bullets left are exactly those that miss the
   * player; a shielded player loses nothing, an unshielded one a life per
   * hit, and the run ends exactly when a hit leaves lives at 0 or less.
   */
  lemma EnemyBulletPassEffect(w: S.World)
    ensures var r := S.EnemyBulletPass(w);
      var box := w.player.Box();
      var hits := HitCount(w.enemyBullets, box);
      && |r.enemyBullets| == |w.enemyBullets| - hits
      && (forall k :: 0 <= k < |r.enemyBullets| ==> !Colliding(r.enemyBullets[k].Box(), box))
      && (forall k :: 0 <= k < |w.enemyBullets| && !Colliding(w.enemyBullets[k].Box(), box) ==>
            w.enemyBullets[k] in r.enemyBullets)
      && (forall k :: 0 <= k < |r.enemyBullets| ==> r.enemyBullets[k] in w.enemyBullets)
      && (w.player.hasShield ==> r.lives == w.lives && r.state == w.state)
      && (!w.player.hasShield ==> r.lives == w.lives - hits)
      && (!w.player.hasShield && hits > 0 && w.lives - hits <= 0 ==> r.state == GameState.GameOver)
      && (w.player.hasShield || hits == 0 || w.lives - hits > 0 ==> r.state == w.state)
      && r.(enemyBullets := w.enemyBullets, lives := w.lives, state := w.state) == w
  {
    UnhitExactly(w.enemyBullets, w.player.Box());
  }

  /**
   * Lives can go below zero: with one life left and no shield, two enemy
   * bullets on the player in one tick leave lives at -1 (the loop goes on
   * after `gameOver`).
   */
  lemma LivesCanGoNegative(w: S.World)
    requires w.lives == 1 && !w.player.hasShield
    requires w.player.width > 0.0 && w.player.height > 0.0
    requires var b := Bullet(w.player.x, w.player.y, 4.0, 12.0, 4.0);
      w.enemyBullets == [b, b]
    ensures S.EnemyBulletPass(w).lives == -1
    ensures S.EnemyBulletPass(w).state == GameState.GameOver
  {
    var b := w.enemyBullets[0];
    var box := w.player.Box();
    assert Colliding(b.Box(), box);
    assert w.enemyBullets[1..] == [b];
    assert HitCount([b], box) == 1;
  }

  /** The first power-up, by index, that touches the player is the first one collected. */
  lemma {:induction false} FirstCollected(ps: seq<PowerUp>, p: Rect)
    requires Collected(ps, p) != []
    ensures exists k :: && 0 <= k < |ps| && Colliding(ps[k].Box(), p)
                        && (forall m :: 0 <= m < k ==> !Colliding(ps[m].Box(), p))
                        && Collected(ps, p)[0] == ps[k].kind
  {
    if Colliding(ps[0].Box(), p) {
      assert Collected(ps, p)[0] == ps[0].kind;
    } else {
      var tail := ps[1..];
      assert Collected(ps, p) == Collected(tail, p);
      FirstCollected(tail, p);
      var k :| 0 <= k < |tail| && Colliding(tail[k].Box(), p)
        && (forall m :: 0 <= m < k ==> !Colliding(tail[m].Box(), p))
        && Collected(tail, p)[0] == tail[k].kind;
      assert ps[k + 1] == tail[k];
      forall m | 0 <= m < k + 1
        ensures !Colliding(ps[m].Box(), p)
      {
        if m > 0 {
          assert ps[m] == tail[m - 1];
        }
      }
    }
  }

  /**
   * The third pass: every power-up touching the player is removed; if any
   * was, the lowest-index one is the effect left active, ending 10 s from
   * now, and the shield flag is set if any of them was a Shield (and never
   * cleared); if none was, the effect and the player are as before.
   */
  lemma PowerUpPassEffect(w: S.World, now: int)
    ensures var r := S.PowerUpPass(w, now);
      var box := w.player.Box();
      var got := Collected(w.powerUps, box);
      && (forall k :: 0 <= k < |r.powerUps| ==> !Colliding(r.powerUps[k].Box(), box))
      && (forall k :: 0 <= k < |w.powerUps| && !Colliding(w.powerUps[k].Box(), box) ==>
            w.powerUps[k] in r.powerUps)
      && (forall k :: 0 <= k < |r.powerUps| ==> r.powerUps[k] in w.powerUps)
      && |r.powerUps| == |w.powerUps| - |got|
      && (got == [] ==> r.activePowerUp == w.activePowerUp && r.powerUpEndTime == w.powerUpEndTime
                        && r.player == w.player)
      && (got != [] ==> && r.powerUpEndTime == now + 10000
                        && (exists k :: 0 <= k < |w.powerUps| && Colliding(w.powerUps[k].Box(), box)
                              && (forall m :: 0 <= m < k ==> !Colliding(w.powerUps[m].Box(), box))
                              && r.activePowerUp == Some(w.powerUps[k].kind))
                        && (r.player.hasShield <==> w.player.hasShield || Shield in got))
      && r.player == w.player.(hasShield := r.player.hasShield)
      && r.(powerUps := w.powerUps, activePowerUp := w.activePowerUp, powerUpEndTime := w.powerUpEndTime,
            player := w.player) == w
  {
    var box := w.player.Box();
    UncollectedExactly(w.powerUps, box);
    if Collected(w.powerUps, box) != [] {
      FirstCollected(w.powerUps, box);
    }
  }

  // ---------------------------------------------------------------------
  // The timed effect.

  /**
   * `activatePowerUp`: the new type replaces any active one, ending 10 s
   * from now; the shield flag is set for a Shield and otherwise left as it
   * was.
   */
  lemma ActivatePowerUpEffect(w: S.World, kind: PowerUpType, now: int)
    ensures var r := S.ActivatePowerUp(w, kind, now);
      && r.activePowerUp == Some(kind) && r.powerUpEndTime == now + 10000
      && (r.player.hasShield <==> kind == Shield || w.player.hasShield)
      && r.player == w.player.(hasShield := r.player.hasShield)
  {
  }

  /**
   * `checkPowerUpExpiry`: with no effect, or before its end time (the test
   * is strict), nothing changes; after it the effect is cleared and the
   * shield flag with it only when the effect was a Shield.
   */
  lemma ExpiryEffect(w: S.World, now: int)
    ensures w.activePowerUp == None || now <= w.powerUpEndTime ==> S.CheckPowerUpExpiry(w, now) == w
    ensures w.activePowerUp.Some? && now > w.powerUpEndTime ==>
      var r := S.CheckPowerUpExpiry(w, now);
      && r.activePowerUp == None
      && (r.player.hasShield <==> w.player.hasShield && w.activePowerUp != Some(Shield))
      && r.player == w.player.(hasShield := r.player.hasShield)
      && r.(activePowerUp := w.activePowerUp, player := w.player) == w
  {
  }

  /** An effect is still active at exactly 10 s and gone 1 ms later. */
  lemma ExpiryIsStrict(w: S.World, kind: PowerUpType, t: int)
    ensures var a := S.ActivatePowerUp(w, kind, t);
      && S.CheckPowerUpExpiry(a, t + 10000) == a
      && S.CheckPowerUpExpiry(a, t + 10001).activePowerUp == None
  {
  }

  /** A Shield picked up and left to expire takes the flag back to what it was. */
  lemma ShieldExpires(w: S.World, t: int, now: int)
    requires !w.player.hasShield && now > t + 10000
    ensures S.CheckPowerUpExpiry(S.ActivatePowerUp(w, Shield, t), now).player == w.player
  {
  }

  /**
   * The shield flag can stick: a Shield followed by Rapid Fire (or
   * Multi-Shot) leaves the flag set, and once the second effect expires no
   * later expiry check clears it.
   */
  lemma ShieldSticks(w: S.World, kind: PowerUpType, t1: int, t2: int, now: int, later: int)
    requires kind != Shield && now > t2 + 10000
    ensures var e := S.CheckPowerUpExpiry(S.ActivatePowerUp(S.ActivatePowerUp(w, Shield, t1), kind, t2), now);
      && e.activePowerUp == None && e.player.hasShield
      && S.CheckPowerUpExpiry(e, later) == e
  {
  }

  // ---------------------------------------------------------------------
  // The state machine.

  /** Outside the Playing state a frame changes nothing: paused and finished runs stay as they are. */
  lemma GameLoopGate(w: S.World, t: S.TickInput)
    ensures w.state != Playing ==> S.GameLoop(w, t) == w
    ensures w.state == Playing ==> S.GameLoop(w, t) == S.Tick(w, t)
    ensures S.GameLoop(S.PauseGame(w), t) == S.PauseGame(w)
    ensures S.GameLoop(S.GameOver(w), t) == S.GameOver(w)
  {
  }

  /** Pausing a running game and resuming it gives back the same game. */
  lemma PauseThenResume(w: S.World)
    requires w.state == Playing
    ensures S.ResumeGame(S.PauseGame(w)) == w
  {
  }

  /** `quitToMenu`: back on the menu, out of any room, with the run's fields untouched. */
  lemma QuitToMenuEffect(w: S.World)
    ensures var r := S.QuitToMenu(w);
      && r.state == GameState.Menu && !r.isMultiplayer && !r.isHost
      && r.(state := w.state, isMultiplayer := w.isMultiplayer, isHost := w.isHost) == w
  {
  }

  // ---------------------------------------------------------------------
  // An invariant of every tick.

  /**
   * Every enemy is alive with at most its maximum health and a non-negative
   * worth, and the player is on the canvas with a non-negative speed.
   */
  ghost predicate Consistent(w: S.World) {
    && Sound(w.enemies)
    && w.player.speed >= 0.0
    && 0.0 <= w.player.x <= CanvasWidth - w.player.width
  }

  /** The game starts consistent, and every run starts consistent. */
  lemma StartsConsistent(w: S.World)
    requires w.level >= 1
    ensures Consistent(S.Initial())
    ensures Consistent(S.StartPvE(w))
  {
    StartPvEEffect(w);
  }

  /** The player bullet pass keeps the formation sound and never lowers the score. */
  lemma PlayerBulletPassKeeps(w: S.World)
    requires Consistent(w)
    ensures Consistent(S.PlayerBulletPass(w)) && S.PlayerBulletPass(w).score >= w.score
  {
    BulletPassAccounting(HitState(w.bullets, w.enemies, w.score), |w.bullets|);
  }

  /**
   * The first collision pass adds to the score exactly the points of the
   * enemies it destroys; nothing else scores in a tick.
   */
  lemma PlayerBulletPassScore(w: S.World)
    ensures var r := S.PlayerBulletPass(w);
      r.score == w.score + TotalPoints(w.enemies) - TotalPoints(r.enemies)
  {
    BulletPassScore(HitState(w.bullets, w.enemies, w.score), |w.bullets|);
  }

  /** The collision passes keep the invariant and never lower the score. */
  lemma CheckCollisionsKeeps(w: S.World, now: int)
    requires Consistent(w)
    ensures Consistent(S.CheckCollisions(w, now)) && S.CheckCollisions(w, now).score >= w.score
  {
    PlayerBulletPassKeeps(w);
    var w1 := S.PlayerBulletPass(w);
    var w2 := S.EnemyBulletPass(w1);
    EnemyBulletPassEffect(w1);
    PowerUpPassEffect(w2, now);
  }

  /** Steering and firing keep the invariant, and leave score and level alone. */
  lemma HandleInputKeeps(w: S.World, keys: Keys, now: int)
    requires Consistent(w)
    ensures var r := S.HandleInput(w, keys, now);
      Consistent(r) && r.score == w.score && r.level == w.level
  {
    HandleInputEffect(w, keys, now);
    var steered := w.(player := S.HandleInput(w, keys, now).player);
    if keys.fire {
      ShootEffect(steered, now);
    }
  }

  /** The march keeps the invariant, and leaves score and level alone. */
  lemma UpdateEnemiesKeeps(w: S.World, fireRoll: real, shooter: int)
    requires Consistent(w)
    ensures var r := S.UpdateEnemies(w, fireRoll, shooter);
      Consistent(r) && r.score == w.score && r.level == w.level
  {
    UpdateEnemiesEffect(w, fireRoll, shooter);
    if |w.enemies| > 0 {
      MarchKeepsSound(w);
    }
  }

  /** The end of a tick: the expiry check, a possible spawn, and a level change once the formation is gone. */
  lemma EndOfTickKeeps(w6: S.World, t: S.TickInput)
    requires Consistent(w6) && w6.level >= 1
    ensures var w7 := S.CheckPowerUpExpiry(w6, t.now);
      var w8 := if t.spawnRoll < 0.002 * w7.level as real then S.SpawnPowerUp(w7, t.spawnKind, t.spawnXRoll) else w7;
      var r := if |w8.enemies| == 0 then S.LevelComplete(w8) else w8;
      Consistent(r) && r.score == w6.score && r.level >= w6.level
  {
    ExpiryEffect(w6, t.now);
    var w7 := S.CheckPowerUpExpiry(w6, t.now);
    var w8 := if t.spawnRoll < 0.002 * w7.level as real then S.SpawnPowerUp(w7, t.spawnKind, t.spawnXRoll) else w7;
    if |w8.enemies| == 0 {
      LevelCompleteEffect(w8);
    }
  }

  /**
   * One tick keeps the invariant and never lowers the score: points are
   * only ever added, and a level change keeps them.
   */
  lemma TickKeeps(w: S.World, t: S.TickInput)
    requires Consistent(w) && w.level >= 1
    ensures Consistent(S.Tick(w, t)) && S.Tick(w, t).score >= w.score && S.Tick(w, t).level >= w.level
  {
    var w1 := S.HandleInput(w, t.keys, t.now);
    HandleInputKeeps(w, t.keys, t.now);
    var w2 := S.UpdateBullets(w1);
    var w3 := S.UpdateEnemies(w2, t.fireRoll, t.shooter);
    UpdateEnemiesKeeps(w2, t.fireRoll, t.shooter);
    var w4 := S.UpdateEnemyBullets(w3);
    var w5 := S.UpdatePowerUps(w4);
    var w6 := S.CheckCollisions(w5, t.now);
    CheckCollisionsKeeps(w5, t.now);
    EndOfTickKeeps(w6, t);
  }

  /** The state a tick has reached when `checkCollisions` starts: after input and all motion. */
  ghost function BeforeCollisions(w: S.World, t: S.TickInput): S.World {
    S.UpdatePowerUps(S.UpdateEnemyBullets(S.UpdateEnemies(S.UpdateBullets(S.HandleInput(w, t.keys, t.now)),
                                                          t.fireRoll, t.shooter)))
  }

  /** Input and motion do not change the level. */
  lemma BeforeCollisionsLevel(w: S.World, t: S.TickInput)
    ensures BeforeCollisions(w, t).level == w.level
  {
    var w1 := S.HandleInput(w, t.keys, t.now);
    assert w1.level == w.level by {
      assert S.Shoot(w.(player := w1.player), t.now).level == w.level;
    }
    var w2 := S.UpdateBullets(w1);
    UpdateEnemiesEffect(w2, t.fireRoll, t.shooter);
  }

  /** What a tick does after `checkCollisions`: expiry, a possible spawn, and the level check. */
  ghost function AfterCollisions(w6: S.World, t: S.TickInput): S.World {
    var w7 := S.CheckPowerUpExpiry(w6, t.now);
    var w8 := if t.spawnRoll < 0.002 * w7.level as real then S.SpawnPowerUp(w7, t.spawnKind, t.spawnXRoll) else w7;
    if |w8.enemies| == 0 then S.LevelComplete(w8) else w8
  }

  /** A tick is input and motion, then the collision check, then the rest. */
  lemma TickInThreeParts(w: S.World, t: S.TickInput)
    ensures S.Tick(w, t) == AfterCollisions(S.CheckCollisions(BeforeCollisions(w, t), t.now), t)
  {
    var w1 := S.HandleInput(w, t.keys, t.now);
    var w2 := S.UpdateBullets(w1);
    var w3 := S.UpdateEnemies(w2, t.fireRoll, t.shooter);
    var w4 := S.UpdateEnemyBullets(w3);
    var w5 := S.UpdatePowerUps(w4);
    var w6 := S.CheckCollisions(w5, t.now);
    var w7 := S.CheckPowerUpExpiry(w6, t.now);
    var w8 := if t.spawnRoll < 0.002 * w7.level as real then S.SpawnPowerUp(w7, t.spawnKind, t.spawnXRoll) else w7;
    S.TickSteps(w, t, w1, w2, w3, w4, w5, w6, w7, w8);
  }

  /**
   * Expiry is checked after the collision passes, so a power-up picked up
   * in a tick is the active effect when that tick ends, with its full ten
   * seconds still to run.
   */
  lemma PickupActiveAtTickEnd(w: S.World, t: S.TickInput)
    ensures var w5 := BeforeCollisions(w, t);
      var got := Collected(w5.powerUps, w5.player.Box());
      got != [] ==> S.Tick(w, t).activePowerUp == Some(got[0]) && S.Tick(w, t).powerUpEndTime == t.now + 10000
  {
    var w5 := BeforeCollisions(w, t);
    var got := Collected(w5.powerUps, w5.player.Box());
    TickInThreeParts(w, t);
    if got != [] {
      var v := S.EnemyBulletPass(S.PlayerBulletPass(w5));
      assert v.powerUps == w5.powerUps && v.player == w5.player;
      var w6 := S.PowerUpPass(v, t.now);
      assert w6.activePowerUp == Some(got[0]) && w6.powerUpEndTime == t.now + 10000;
      assert S.CheckPowerUpExpiry(w6, t.now) == w6;
    }
  }

  /** The collision passes leave the level alone. */
  lemma CheckCollisionsLevel(w: S.World, now: int)
    ensures S.CheckCollisions(w, now).level == w.level
  {
    assert S.EnemyBulletPass(S.PlayerBulletPass(w)).level == w.level;
  }

  /**
   * The level check comes after the collision passes, so the frame whose
   * bullets destroy the last enemy also moves on to the next level, with a
   * new formation; while an enemy is left the level stays.
   */
  lemma LastKillAdvancesLevel(w: S.World, t: S.TickInput)
    requires w.state == Playing
    ensures var w6 := S.CheckCollisions(BeforeCollisions(w, t), t.now);
      && (|w6.enemies| == 0 ==> S.GameLoop(w, t).level == w.level + 1
                                && S.GameLoop(w, t).enemies == LevelFormation(w.level + 1))
      && (|w6.enemies| > 0 ==> S.GameLoop(w, t).level == w.level)
  {
    var w5 := BeforeCollisions(w, t);
    BeforeCollisionsLevel(w, t);
    var w6 := S.CheckCollisions(w5, t.now);
    CheckCollisionsLevel(w5, t.now);
    TickInThreeParts(w, t);
    var w7 := S.CheckPowerUpExpiry(w6, t.now);
    assert w7.enemies == w6.enemies && w7.level == w6.level;
  }

  /** A frame, whether it runs a tick or not, keeps the invariant and never lowers the score. */
  lemma GameLoopKeeps(w: S.World, t: S.TickInput)
    requires Consistent(w) && w.level >= 1
    ensures Consistent(S.GameLoop(w, t)) && S.GameLoop(w, t).score >= w.score
    ensures S.GameLoop(w, t).level >= w.level
  {
    if w.state == Playing {
      TickKeeps(w, t);
    }
  }

  /** The game after a sequence of frames. */
  function Run(w: S.World, ts: seq<S.TickInput>): S.World
    decreases |ts|
  {
    if ts == [] then w else Run(S.GameLoop(w, ts[0]), ts[1..])
  }

  /** However many frames run, the invariant holds and the score has not gone down. */
  lemma {:induction false} RunKeeps(w: S.World, ts: seq<S.TickInput>)
    requires Consistent(w) && w.level >= 1
    ensures Consistent(Run(w, ts)) && Run(w, ts).score >= w.score
    decreases |ts|
  {
    if ts != [] {
      GameLoopKeeps(w, ts[0]);
      RunKeeps(S.GameLoop(w, ts[0]), ts[1..]);
    }
  }
}
