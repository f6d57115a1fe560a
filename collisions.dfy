/**
 * The three passes of `checkCollisions`, as functions over the sequences
 * they splice: player bullets against enemies, enemy bullets against the
 * player, power-ups against the player. Each pass walks its array from the
 * highest index down, as the source's reverse `for` loops do.
 */
module Collisions {
  import opened Wrappers
  import opened Entities
  import opened Formation

  /** `array.splice(i, 1)`. */
  function RemoveAt<T>(s: seq<T>, i: nat): (r: seq<T>)
    requires i < |s|
    ensures |r| == |s| - 1
    ensures forall k :: 0 <= k < i ==> r[k] == s[k]
    ensures forall k :: i <= k < |r| ==> r[k] == s[k + 1]
  {
    s[..i] + s[i + 1..]
  }

  /**
   * A reverse loop that splices out of `cur` has left the prefix up to i
   * untouched: splicing out index i, or keeping it, gives the prefix before
   * i followed by what the loop has left from i on.
   */
  lemma SpliceStep<T>(s: seq<T>, cur: seq<T>, i: nat, rest: seq<T>)
    requires i < |s| && cur == s[..i + 1] + rest
    ensures i < |cur| && cur[i] == s[i]
    ensures RemoveAt(cur, i) == s[..i] + rest
    ensures cur == s[..i] + ([s[i]] + rest)
  {
    assert cur[..i] == s[..i];
    assert cur[i + 1..] == rest;
    assert s[..i + 1] == s[..i] + [s[i]];
  }

  // ---------------------------------------------------------------------
  // Pass 1: player bullets against enemies.

  /** What the first pass reads and writes. */
  datatype HitState = HitState(bullets: seq<Bullet>, enemies: seq<Enemy>, score: int)

  /**
   * The inner loop: the highest index below j whose enemy the bullet
   * touches, scanning down from j - 1 and stopping at the first hit.
   */
  function LastHit(b: Rect, es: seq<Enemy>, j: nat): (r: Option<nat>)
    requires j <= |es|
    ensures r.Some? ==> r.value < j && Colliding(b, es[r.value].Box())
    ensures r.Some? ==> forall k :: r.value < k < j ==> !Colliding(b, es[k].Box())
    ensures r.None? ==> forall k :: 0 <= k < j ==> !Colliding(b, es[k].Box())
    decreases j
  {
    if j == 0 then None
    else if Colliding(b, es[j - 1].Box()) then Some(j - 1)
    else LastHit(b, es, j - 1)
  }

  /**
   * One iteration of the outer loop, for the bullet at index i: if it
   * touches an enemy, the bullet is spliced out, that enemy loses one
   * health and, when its health is down to 0 or less, is spliced out with
   * its points added to the score.
   */
  function ResolveBullet(s: HitState, i: nat): (r: HitState)
    requires i < |s.bullets|
    ensures |r.bullets| >= i && r.bullets[..i] == s.bullets[..i]
    ensures r.bullets == s.bullets
            <==> forall k :: 0 <= k < |s.enemies| ==> !Colliding(s.bullets[i].Box(), s.enemies[k].Box())
    ensures r.bullets != s.bullets ==> r.bullets == RemoveAt(s.bullets, i)
    ensures r.bullets == s.bullets ==> r == s
  {
    match LastHit(s.bullets[i].Box(), s.enemies, |s.enemies|)
    case None => s
    case Some(j) =>
      var hit := s.enemies[j].(health := s.enemies[j].health - 1);
      if hit.health <= 0 then
        HitState(RemoveAt(s.bullets, i), RemoveAt(s.enemies, j), s.score + hit.points)
      else
        HitState(RemoveAt(s.bullets, i), s.enemies[j := hit], s.score)
  }

  /** The outer loop over the bullets at indices n-1 down to 0. */
  function BulletPass(s: HitState, n: nat): (r: HitState)
    requires n <= |s.bullets|
    decreases n
  {
    if n == 0 then s else BulletPass(ResolveBullet(s, n - 1), n - 1)
  }

  /**
   * First hit wins: a bullet touching enemy j and no enemy above index j
   * hits enemy j only. Every other enemy is left as it was; j loses
   * exactly one health, and is removed with its points scored when that
   * was its last.
   */
  lemma ResolveBulletHitsHighest(s: HitState, i: nat, j: nat)
    requires i < |s.bullets| && j < |s.enemies|
    requires Colliding(s.bullets[i].Box(), s.enemies[j].Box())
    requires forall k :: j < k < |s.enemies| ==> !Colliding(s.bullets[i].Box(), s.enemies[k].Box())
    ensures var r := ResolveBullet(s, i); var e := s.enemies[j];
      && r.bullets == RemoveAt(s.bullets, i)
      && (e.health <= 1 ==> r.enemies == RemoveAt(s.enemies, j) && r.score == s.score + e.points)
      && (e.health > 1 ==> && |r.enemies| == |s.enemies|
                           && r.enemies[j] == e.(health := e.health - 1)
                           && (forall k :: 0 <= k < |s.enemies| && k != j ==> r.enemies[k] == s.enemies[k])
                           && r.score == s.score)
  {
    var h := LastHit(s.bullets[i].Box(), s.enemies, |s.enemies|);
    assert h == Some(j);
  }

  /** The sum of the health of all enemies. */
  function TotalHealth(es: seq<Enemy>): int {
    if es == [] then 0 else es[0].health + TotalHealth(es[1..])
  }

  lemma {:induction false} TotalHealthConcat(a: seq<Enemy>, b: seq<Enemy>)
    ensures TotalHealth(a + b) == TotalHealth(a) + TotalHealth(b)
  {
    if a == [] {
      assert a + b == b;
    } else {
      assert (a + b)[1..] == a[1..] + b;
      TotalHealthConcat(a[1..], b);
    }
  }

  lemma TotalHealthSplit(es: seq<Enemy>, j: nat)
    requires j < |es|
    ensures TotalHealth(es) == TotalHealth(es[..j]) + es[j].health + TotalHealth(es[j + 1..])
  {
    assert es == es[..j] + es[j..];
    TotalHealthConcat(es[..j], es[j..]);
    assert es[j..][1..] == es[j + 1..];
  }

  /** Removing an enemy takes its health out of the total. */
  lemma TotalHealthRemoveAt(es: seq<Enemy>, j: nat)
    requires j < |es|
    ensures TotalHealth(RemoveAt(es, j)) == TotalHealth(es) - es[j].health
  {
    TotalHealthSplit(es, j);
    TotalHealthConcat(es[..j], es[j + 1..]);
  }

  /** Replacing an enemy swaps its health in the total. */
  lemma TotalHealthUpdate(es: seq<Enemy>, j: nat, e: Enemy)
    requires j < |es|
    ensures TotalHealth(es[j := e]) == TotalHealth(es) - es[j].health + e.health
  {
    TotalHealthSplit(es, j);
    TotalHealthSplit(es[j := e], j);
    assert es[j := e][..j] == es[..j];
    assert es[j := e][j + 1..] == es[j + 1..];
  }

  /**
   * One bullet spends at most one health point: the enemies that are left
   * are sound, the total health drops by exactly the number of bullets
   * consumed (0 or 1), at most that many enemies disappear, and the score
   * does not go down.
   */
  lemma ResolveBulletAccounting(s: HitState, i: nat)
    requires i < |s.bullets| && Sound(s.enemies)
    ensures var r := ResolveBullet(s, i);
      && Sound(r.enemies)
      && TotalHealth(r.enemies) == TotalHealth(s.enemies) - (|s.bullets| - |r.bullets|)
      && 0 <= |s.enemies| - |r.enemies| <= |s.bullets| - |r.bullets|
      && r.score >= s.score
  {
    var r := ResolveBullet(s, i);
    match LastHit(s.bullets[i].Box(), s.enemies, |s.enemies|)
    case None =>
    case Some(j) =>
      var hit := s.enemies[j].(health := s.enemies[j].health - 1);
      if hit.health <= 0 {
        TotalHealthRemoveAt(s.enemies, j);
      } else {
        TotalHealthUpdate(s.enemies, j, hit);
      }
  }

  /**
   * The whole first pass: each consumed bullet took exactly one health point
   * off exactly one enemy, so no bullet scored against two enemies; no enemy
   * with health 0 or less is left; the score never decreases.
   */
  lemma {:induction false} BulletPassAccounting(s: HitState, n: nat)
    requires n <= |s.bullets| && Sound(s.enemies)
    ensures var r := BulletPass(s, n);
      && Sound(r.enemies)
      && |s.bullets| - n <= |r.bullets| <= |s.bullets|
      && TotalHealth(r.enemies) == TotalHealth(s.enemies) - (|s.bullets| - |r.bullets|)
      && 0 <= |s.enemies| - |r.enemies| <= |s.bullets| - |r.bullets|
      && r.score >= s.score
    decreases n
  {
    if n > 0 {
      var m := ResolveBullet(s, n - 1);
      ResolveBulletAccounting(s, n - 1);
      BulletPassAccounting(m, n - 1);
      assert BulletPass(s, n) == BulletPass(m, n - 1);
    }
  }

  /** The points of all enemies, what destroying every one of them would score. */
  function TotalPoints(es: seq<Enemy>): int {
    if es == [] then 0 else es[0].points + TotalPoints(es[1..])
  }

  lemma {:induction false} TotalPointsConcat(a: seq<Enemy>, b: seq<Enemy>)
    ensures TotalPoints(a + b) == TotalPoints(a) + TotalPoints(b)
  {
    if a == [] {
      assert a + b == b;
    } else {
      assert (a + b)[1..] == a[1..] + b;
      TotalPointsConcat(a[1..], b);
    }
  }

  lemma TotalPointsSplit(es: seq<Enemy>, j: nat)
    requires j < |es|
    ensures TotalPoints(es) == TotalPoints(es[..j]) + es[j].points + TotalPoints(es[j + 1..])
  {
    assert es == es[..j] + es[j..];
    TotalPointsConcat(es[..j], es[j..]);
    assert es[j..][1..] == es[j + 1..];
  }

  /** Removing an enemy takes its points out of the total. */
  lemma TotalPointsRemoveAt(es: seq<Enemy>, j: nat)
    requires j < |es|
    ensures TotalPoints(RemoveAt(es, j)) == TotalPoints(es) - es[j].points
  {
    TotalPointsSplit(es, j);
    TotalPointsConcat(es[..j], es[j + 1..]);
  }

  /** Replacing an enemy by one of the same worth, as a hit that leaves it alive does, keeps the total. */
  lemma TotalPointsUpdate(es: seq<Enemy>, j: nat, e: Enemy)
    requires j < |es| && e.points == es[j].points
    ensures TotalPoints(es[j := e]) == TotalPoints(es)
  {
    TotalPointsSplit(es, j);
    TotalPointsSplit(es[j := e], j);
    assert es[j := e][..j] == es[..j];
    assert es[j := e][j + 1..] == es[j + 1..];
  }

  /** One bullet scores exactly the points of the enemy it destroys, if any. */
  lemma ResolveBulletScore(s: HitState, i: nat)
    requires i < |s.bullets|
    ensures var r := ResolveBullet(s, i);
      r.score == s.score + TotalPoints(s.enemies) - TotalPoints(r.enemies)
  {
    match LastHit(s.bullets[i].Box(), s.enemies, |s.enemies|)
    case None =>
    case Some(j) =>
      var hit := s.enemies[j].(health := s.enemies[j].health - 1);
      if hit.health <= 0 {
        TotalPointsRemoveAt(s.enemies, j);
      } else {
        TotalPointsUpdate(s.enemies, j, hit);
      }
  }

  /**
   * The whole first pass adds to the score exactly the points of the
   * enemies it destroys: the points the formation had, less those of the
   * enemies left.
   */
  lemma {:induction false} BulletPassScore(s: HitState, n: nat)
    requires n <= |s.bullets|
    ensures var r := BulletPass(s, n);
      r.score == s.score + TotalPoints(s.enemies) - TotalPoints(r.enemies)
    decreases n
  {
    if n > 0 {
      var m := ResolveBullet(s, n - 1);
      ResolveBulletScore(s, n - 1);
      BulletPassScore(m, n - 1);
      assert BulletPass(s, n) == BulletPass(m, n - 1);
    }
  }

  // ---------------------------------------------------------------------
  // Pass 2: enemy bullets against the player.

  /** The enemy bullets that do not touch the player, in order. */
  function Unhit(bs: seq<Bullet>, p: Rect): (r: seq<Bullet>)
    ensures |r| + HitCount(bs, p) == |bs|
  {
    if bs == [] then []
    else (if Colliding(bs[0].Box(), p) then [] else [bs[0]]) + Unhit(bs[1..], p)
  }

  /** How many enemy bullets touch the player. */
  function HitCount(bs: seq<Bullet>, p: Rect): (n: nat)
    ensures n <= |bs|
  {
    if bs == [] then 0
    else (if Colliding(bs[0].Box(), p) then 1 else 0) + HitCount(bs[1..], p)
  }

  /**
   * The bullets left are exactly those that do not touch the player: none
   * of them touches it, and every bullet that does not is still there.
   */
  lemma {:induction false} UnhitExactly(bs: seq<Bullet>, p: Rect)
    ensures forall k :: 0 <= k < |Unhit(bs, p)| ==> !Colliding(Unhit(bs, p)[k].Box(), p)
    ensures forall k :: 0 <= k < |bs| && !Colliding(bs[k].Box(), p) ==> bs[k] in Unhit(bs, p)
    ensures forall k :: 0 <= k < |Unhit(bs, p)| ==> Unhit(bs, p)[k] in bs
  {
    if bs != [] {
      UnhitExactly(bs[1..], p);
      assert forall k :: 1 <= k < |bs| ==> bs[k] == bs[1..][k - 1];
    }
  }

  /**
   * Each bullet is left as often as it was there when it misses the player,
   * and not at all when it touches it.
   */
  lemma {:induction false} UnhitCounts(bs: seq<Bullet>, p: Rect, b: Bullet)
    ensures multiset(Unhit(bs, p))[b] == if Colliding(b.Box(), p) then 0 else multiset(bs)[b]
  {
    if bs != [] {
      UnhitCounts(bs[1..], p, b);
      assert bs == [bs[0]] + bs[1..];
    }
  }

  /**
   * Filtering a concatenation filters each part: the bullets left keep
   * their order, and `Unhit([b], p)` is `[b]` or `[]`.
   */
  lemma {:induction false} UnhitConcat(a: seq<Bullet>, b: seq<Bullet>, p: Rect)
    ensures Unhit(a + b, p) == Unhit(a, p) + Unhit(b, p)
    decreases |a|
  {
    if a == [] {
      assert a + b == b;
    } else {
      assert (a + b)[0] == a[0];
      assert (a + b)[1..] == a[1..] + b;
      UnhitConcat(a[1..], b, p);
    }
  }

  /** No life is lost exactly when no enemy bullet touches the player. */
  lemma {:induction false} NoHitsIffNoneTouch(bs: seq<Bullet>, p: Rect)
    ensures HitCount(bs, p) == 0 <==> forall k :: 0 <= k < |bs| ==> !Colliding(bs[k].Box(), p)
  {
    if bs != [] {
      NoHitsIffNoneTouch(bs[1..], p);
      assert forall k :: 1 <= k < |bs| ==> bs[k] == bs[1..][k - 1];
    }
  }

  /** Peeling off the element at index i, as one step of the reverse loop does. */
  lemma UnhitFrom(bs: seq<Bullet>, i: nat, p: Rect)
    requires i < |bs|
    ensures Unhit(bs[i..], p) == (if Colliding(bs[i].Box(), p) then [] else [bs[i]]) + Unhit(bs[i + 1..], p)
    ensures HitCount(bs[i..], p) == (if Colliding(bs[i].Box(), p) then 1 else 0) + HitCount(bs[i + 1..], p)
  {
    assert bs[i..][1..] == bs[i + 1..];
  }

  /**
   * One step of the reverse loop over the enemy bullets: with the indices
   * above i already filtered, the bullet at i is still in place, and
   * splicing it out when it touches the player (or keeping it when it does
   * not) leaves the indices from i up filtered.
   */
  lemma UnhitStep(bs: seq<Bullet>, cur: seq<Bullet>, i: nat, p: Rect)
    requires i < |bs| && cur == bs[..i + 1] + Unhit(bs[i + 1..], p)
    ensures i < |cur| && cur[i] == bs[i]
    ensures Colliding(bs[i].Box(), p) ==> RemoveAt(cur, i) == bs[..i] + Unhit(bs[i..], p)
    ensures !Colliding(bs[i].Box(), p) ==> cur == bs[..i] + Unhit(bs[i..], p)
  {
    var rest := Unhit(bs[i + 1..], p);
    SpliceStep(bs, cur, i, rest);
    UnhitFrom(bs, i, p);
  }

  // ---------------------------------------------------------------------
  // Pass 3: power-ups against the player.

  /** The power-ups that do not touch the player, in order. */
  function Uncollected(ps: seq<PowerUp>, p: Rect): (r: seq<PowerUp>)
    ensures |r| + |Collected(ps, p)| == |ps|
  {
    if ps == [] then []
    else (if Colliding(ps[0].Box(), p) then [] else [ps[0]]) + Uncollected(ps[1..], p)
  }

  /** The types of the power-ups that touch the player, in index order. */
  function Collected(ps: seq<PowerUp>, p: Rect): (r: seq<PowerUpType>)
    ensures |r| <= |ps|
  {
    if ps == [] then []
    else (if Colliding(ps[0].Box(), p) then [ps[0].kind] else []) + Collected(ps[1..], p)
  }

  /**
   * The power-ups left are exactly those that do not touch the player, and
   * the type of every one that does is among those collected.
   */
  lemma {:induction false} UncollectedExactly(ps: seq<PowerUp>, p: Rect)
    ensures forall k :: 0 <= k < |Uncollected(ps, p)| ==> !Colliding(Uncollected(ps, p)[k].Box(), p)
    ensures forall k :: 0 <= k < |ps| && !Colliding(ps[k].Box(), p) ==> ps[k] in Uncollected(ps, p)
    ensures forall k :: 0 <= k < |ps| && Colliding(ps[k].Box(), p) ==> ps[k].kind in Collected(ps, p)
    ensures forall k :: 0 <= k < |Uncollected(ps, p)| ==> Uncollected(ps, p)[k] in ps
  {
    if ps != [] {
      UncollectedExactly(ps[1..], p);
      assert forall k :: 1 <= k < |ps| ==> ps[k] == ps[1..][k - 1];
    }
  }

  /**
   * Each power-up is left as often as it was there when it misses the
   * player, and not at all when it touches it.
   */
  lemma {:induction false} UncollectedCounts(ps: seq<PowerUp>, p: Rect, u: PowerUp)
    ensures multiset(Uncollected(ps, p))[u] == if Colliding(u.Box(), p) then 0 else multiset(ps)[u]
  {
    if ps != [] {
      UncollectedCounts(ps[1..], p, u);
      assert ps == [ps[0]] + ps[1..];
    }
  }

  /**
   * Filtering a concatenation filters each part: the power-ups left keep
   * their order, and `Uncollected([u], p)` is `[u]` or `[]`.
   */
  lemma {:induction false} UncollectedConcat(a: seq<PowerUp>, b: seq<PowerUp>, p: Rect)
    ensures Uncollected(a + b, p) == Uncollected(a, p) + Uncollected(b, p)
    decreases |a|
  {
    if a != [] {
      var ab := a + b;
      assert ab[0] == a[0];
      assert ab[1..] == a[1..] + b;
      UncollectedConcat(a[1..], b, p);
      var head := if Colliding(a[0].Box(), p) then [] else [a[0]];
      assert Uncollected(ab, p) == head + Uncollected(a[1..] + b, p);
      assert Uncollected(a, p) == head + Uncollected(a[1..], p);
    } else {
      assert a + b == b;
    }
  }

  /** The types collected from a concatenation are those of each part, in order. */
  lemma {:induction false} CollectedConcat(a: seq<PowerUp>, b: seq<PowerUp>, p: Rect)
    ensures Collected(a + b, p) == Collected(a, p) + Collected(b, p)
    decreases |a|
  {
    if a != [] {
      var ab := a + b;
      assert ab[0] == a[0];
      assert ab[1..] == a[1..] + b;
      CollectedConcat(a[1..], b, p);
      var head := if Colliding(a[0].Box(), p) then [a[0].kind] else [];
      assert Collected(ab, p) == head + Collected(a[1..] + b, p);
      assert Collected(a, p) == head + Collected(a[1..], p);
    } else {
      assert a + b == b;
    }
  }

  /** Nothing is collected exactly when no power-up touches the player. */
  lemma {:induction false} NothingCollectedIffNoneTouch(ps: seq<PowerUp>, p: Rect)
    ensures Collected(ps, p) == [] <==> forall k :: 0 <= k < |ps| ==> !Colliding(ps[k].Box(), p)
  {
    if ps != [] {
      NothingCollectedIffNoneTouch(ps[1..], p);
      assert forall k :: 1 <= k < |ps| ==> ps[k] == ps[1..][k - 1];
    }
  }

  lemma CollectedFrom(ps: seq<PowerUp>, i: nat, p: Rect)
    requires i < |ps|
    ensures Uncollected(ps[i..], p) == (if Colliding(ps[i].Box(), p) then [] else [ps[i]]) + Uncollected(ps[i + 1..], p)
    ensures Collected(ps[i..], p) == (if Colliding(ps[i].Box(), p) then [ps[i].kind] else []) + Collected(ps[i + 1..], p)
  {
    assert ps[i..][1..] == ps[i + 1..];
  }

  /** The same step for the reverse loop over the power-ups. */
  lemma UncollectedStep(ps: seq<PowerUp>, cur: seq<PowerUp>, i: nat, p: Rect)
    requires i < |ps| && cur == ps[..i + 1] + Uncollected(ps[i + 1..], p)
    ensures i < |cur| && cur[i] == ps[i]
    ensures Colliding(ps[i].Box(), p) ==> RemoveAt(cur, i) == ps[..i] + Uncollected(ps[i..], p)
    ensures !Colliding(ps[i].Box(), p) ==> cur == ps[..i] + Uncollected(ps[i..], p)
  {
    var rest := Uncollected(ps[i + 1..], p);
    SpliceStep(ps, cur, i, rest);
    CollectedFrom(ps, i, p);
  }
}
