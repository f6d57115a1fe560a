/** The optional value used for the game's nullable fields (`activePowerUp`, `mode`). */
module Wrappers {
  datatype Option<+T> = None | Some(value: T)
}

/**
 * The plain records of the game (player, enemies, bullets, power-ups),
 * the canvas constants and the axis-aligned rectangle test used by every
 * collision pass.
 */
module Entities {

  const CanvasWidth: real := 800.0
  const CanvasHeight: real := 600.0

  /** The screens and the running states of the game. */
  datatype GameState = Menu | LevelSelect | MultiplayerLobby | Instructions | Playing | Paused | GameOver

  datatype GameMode = PvE | Multiplayer

  datatype PowerUpType = RapidFire | Shield | MultiShot

  datatype EnemyKind = Weak | Medium | Strong

  /** An axis-aligned rectangle: the part of an entity that collisions look at. */
  datatype Rect = Rect(x: real, y: real, width: real, height: real)

  datatype Player = Player(x: real, y: real, width: real, height: real, speed: real, hasShield: bool)
  {
    function Box(): Rect { Rect(x, y, width, height) }
  }

  datatype Enemy = Enemy(x: real, y: real, width: real, height: real,
                         kind: EnemyKind, health: int, maxHealth: int, points: int)
  {
    function Box(): Rect { Rect(x, y, width, height) }
  }

  /** Player bullets and enemy bullets share one shape; only the sign of their motion differs. */
  datatype Bullet = Bullet(x: real, y: real, width: real, height: real, speed: real)
  {
    function Box(): Rect { Rect(x, y, width, height) }
  }

  datatype PowerUp = PowerUp(x: real, y: real, width: real, height: real, kind: PowerUpType)
  {
    function Box(): Rect { Rect(x, y, width, height) }
  }

  /** The player as `initGame` creates it: centred 20 to the left, 60 above the bottom edge. */
  function FreshPlayer(): Player {
    Player(CanvasWidth / 2.0 - 20.0, CanvasHeight - 60.0, 40.0, 40.0, 5.0, false)
  }

  function Max(a: real, b: real): real { if a >= b then a else b }
  function Min(a: real, b: real): real { if a <= b then a else b }

  /** The collision test: strict overlap on both axes, so touching edges do not collide. */
  predicate Colliding(a: Rect, b: Rect) {
    && a.x < b.x + b.width
    && a.x + a.width > b.x
    && a.y < b.y + b.height
    && a.y + a.height > b.y
  }

  /** The point (px, py) lies strictly inside r. */
  predicate Inside(r: Rect, px: real, py: real) {
    r.x < px < r.x + r.width && r.y < py < r.y + r.height
  }

  /**
   * An independent reading of the collision test: for rectangles of
   * positive size it holds exactly when some point lies strictly inside both.
   */
  lemma CollidingIffSharedInterior(a: Rect, b: Rect)
    requires a.width > 0.0 && a.height > 0.0 && b.width > 0.0 && b.height > 0.0
    ensures Colliding(a, b) <==> exists px, py :: Inside(a, px, py) && Inside(b, px, py)
  {
    if Colliding(a, b) {
      var px := (Max(a.x, b.x) + Min(a.x + a.width, b.x + b.width)) / 2.0;
      var py := (Max(a.y, b.y) + Min(a.y + a.height, b.y + b.height)) / 2.0;
      assert Inside(a, px, py) && Inside(b, px, py);
    } else {
      forall px, py | Inside(a, px, py)
        ensures !Inside(b, px, py)
      {
      }
    }
  }

  /** The test does not depend on the order of its arguments. */
  lemma CollidingSymmetric(a: Rect, b: Rect)
    ensures Colliding(a, b) == Colliding(b, a)
  {
  }

  /** Rectangles that only share an edge do not collide. */
  lemma TouchingEdgesDoNotCollide(a: Rect, b: Rect)
    requires a.x + a.width == b.x || b.x + b.width == a.x
             || a.y + a.height == b.y || b.y + b.height == a.y
    ensures !Colliding(a, b)
  {
  }
}
