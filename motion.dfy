/**
 * Per-tick motion of projectiles and power-ups (the `filter` calls of
 * `updateBullets`, `updateEnemyBullets` and `updatePowerUps`), and the
 * player's movement and firing pattern (`handleInput`, `shoot`).
 */
module Motion {
  import opened Entities

  /**
   * Move every item, then keep those `keep` accepts, in their old order:
   * the shape of `array.filter(item => { item.y ±= ...; return ... })`.
   */
  function MoveAndKeep<T>(s: seq<T>, move: T -> T, keep: T -> bool): (r: seq<T>)
    ensures |r| <= |s|
    ensures forall k :: 0 <= k < |r| ==> keep(r[k])
    ensures forall k :: 0 <= k < |s| && keep(move(s[k])) ==> move(s[k]) in r
    ensures forall k :: 0 <= k < |r| ==> exists m :: 0 <= m < |s| && r[k] == move(s[m])
  {
    if s == [] then []
    else
      var rest := MoveAndKeep(s[1..], move, keep);
      assert forall k :: 1 <= k < |s| ==> s[k] == s[1..][k - 1];
      if keep(move(s[0])) then [move(s[0])] + rest else rest
  }

  /** One item is moved, then kept or dropped. */
  lemma MoveAndKeepOne<T>(x: T, move: T -> T, keep: T -> bool)
    ensures MoveAndKeep([x], move, keep) == if keep(move(x)) then [move(x)] else []
  {
    assert [x][1..] == [];
  }

  /**
   * Moving and filtering a concatenation is the concatenation of the two
   * results: with `MoveAndKeepOne`, the result is the moved survivors in
   * their old order, each exactly as often as in the input.
   */
  lemma {:induction false} MoveAndKeepConcat<T>(a: seq<T>, b: seq<T>, move: T -> T, keep: T -> bool)
    ensures MoveAndKeep(a + b, move, keep) == MoveAndKeep(a, move, keep) + MoveAndKeep(b, move, keep)
    decreases |a|
  {
    if a == [] {
      assert a + b == b;
    } else {
      assert (a + b)[0] == a[0];
      assert (a + b)[1..] == a[1..] + b;
      MoveAndKeepConcat(a[1..], b, move, keep);
    }
  }

  /** A player bullet climbs by its speed. */
  function Rise(b: Bullet): Bullet { b.(y := b.y - b.speed) }
  /** A player bullet is kept while some of it is below the top edge. */
  predicate BelowTop(b: Bullet) { b.y > -b.height }

  /** An enemy bullet falls by its speed. */
  function Fall(b: Bullet): Bullet { b.(y := b.y + b.speed) }
  /** Enemy bullets and power-ups are kept while their top is above the bottom edge. */
  predicate AboveBottom(b: Bullet) { b.y < CanvasHeight }

  /** A power-up drifts down 2 units per tick. */
  function Drift(p: PowerUp): PowerUp { p.(y := p.y + 2.0) }
  predicate PowerUpOnScreen(p: PowerUp) { p.y < CanvasHeight }

  /** A power-up spawned at the top, at x = roll * (800 - 30). */
  function SpawnedPowerUp(kind: PowerUpType, xRoll: real): (p: PowerUp)
    ensures p.y == 0.0 && p.width == 30.0 && p.height == 30.0 && p.kind == kind
    ensures 0.0 <= xRoll < 1.0 ==> 0.0 <= p.x < CanvasWidth - p.width
  {
    PowerUp(xRoll * (CanvasWidth - 30.0), 0.0, 30.0, 30.0, kind)
  }

  /** Keys held this tick. */
  datatype Keys = Keys(left: bool, right: bool, fire: bool)

  /** ArrowLeft: move left by speed, clamped at 0. */
  function MoveLeft(p: Player): Player {
    p.(x := Max(0.0, p.x - p.speed))
  }

  /** ArrowRight: move right by speed, clamped at 800 - width. */
  function MoveRight(p: Player): Player {
    p.(x := Min(CanvasWidth - p.width, p.x + p.speed))
  }

  /** The left clamp, then the right clamp, as `handleInput` applies them. */
  function Steer(p: Player, keys: Keys): Player {
    var p1 := if keys.left then MoveLeft(p) else p;
    if keys.right then MoveRight(p1) else p1
  }

  /** Steering never leaves [0, 800 - width] once the player is inside it. */
  lemma SteerStaysOnCanvas(p: Player, keys: Keys)
    requires p.speed >= 0.0 && 0.0 <= p.x <= CanvasWidth - p.width
    ensures 0.0 <= Steer(p, keys).x <= CanvasWidth - p.width
    ensures Steer(p, keys) == p.(x := Steer(p, keys).x)
  {
  }

  /** The player after holding only ArrowLeft for n ticks. */
  function HoldLeft(p: Player, n: nat): Player
    decreases n
  {
    if n == 0 then p else HoldLeft(Steer(p, Keys(true, false, false)), n - 1)
  }

  /** Far enough from the edge, holding left moves exactly speed per tick. */
  lemma {:induction false} HoldLeftExact(p: Player, n: nat)
    requires p.speed >= 0.0 && p.x >= n as real * p.speed
    ensures HoldLeft(p, n) == p.(x := p.x - n as real * p.speed)
    decreases n
  {
    if n > 0 {
      var q := Steer(p, Keys(true, false, false));
      assert n as real * p.speed == (n - 1) as real * p.speed + p.speed;
      assert (n - 1) as real * p.speed >= 0.0;
      assert q == p.(x := p.x - p.speed);
      HoldLeftExact(q, n - 1);
    }
  }

  /** From the centre (x = 380), five ticks of ArrowLeft at speed 5 end at x = 355. */
  lemma FiveTicksLeftFromCentre()
    ensures HoldLeft(FreshPlayer(), 5).x == 355.0
  {
    HoldLeftExact(FreshPlayer(), 5);
  }

  /** A player bullet leaving the ship's centre, shifted by dx. */
  function PlayerShot(p: Player, dx: real): Bullet {
    Bullet(p.x + p.width / 2.0 - 2.0 + dx, p.y, 4.0, 15.0, 8.0)
  }

  /** What one trigger fires: one bullet, or three at offsets 0, -15 and +15 under Multi-Shot. */
  function Volley(p: Player, multi: bool): (v: seq<Bullet>)
    ensures |v| == if multi then 3 else 1
    ensures forall k :: 0 <= k < |v| ==>
      v[k].y == p.y && v[k].width == 4.0 && v[k].height == 15.0 && v[k].speed == 8.0
    ensures v[0].x == p.x + p.width / 2.0 - 2.0
    ensures multi ==> v[1].x == v[0].x - 15.0 && v[2].x == v[0].x + 15.0
  {
    if multi then [PlayerShot(p, 0.0), PlayerShot(p, -15.0), PlayerShot(p, 15.0)]
    else [PlayerShot(p, 0.0)]
  }
}
