/**
 * The enemy formation: the grid `createEnemies` builds for a level, the
 * level scaling of `setEnemySpeed`, and the pieces of the marching step of
 * `updateEnemies` (shift, bounce, drop, enemy fire, breach).
 */
module Formation {
  import opened Entities

  const Cols: nat := 8
  const EnemyWidth: real := 35.0
  const EnemyHeight: real := 35.0
  const Padding: real := 15.0
  const OffsetX: real := 80.0
  const OffsetY: real := 50.0
  /** How far the whole formation drops when it bounces. */
  const DropAmount: real := 20.0

  /** `rows = 3 + level`; a loop bound of zero or less builds no rows. */
  function Rows(level: int): nat {
    if 3 + level > 0 then 3 + level else 0
  }

  function KindOfRow(row: nat): EnemyKind {
    if row < 2 then Weak else if row < 4 then Medium else Strong
  }

  function HealthOf(k: EnemyKind): int {
    match k
    case Weak => 1
    case Medium => 2
    case Strong => 3
  }

  function PointsOf(k: EnemyKind): int {
    match k
    case Weak => 10
    case Medium => 20
    case Strong => 30
  }

  /** The enemy pushed at (row, col) of the grid. */
  function EnemyAt(row: nat, col: nat): Enemy {
    var k := KindOfRow(row);
    Enemy(OffsetX + col as real * (EnemyWidth + Padding),
          OffsetY + row as real * (EnemyHeight + Padding),
          EnemyWidth, EnemyHeight, k, HealthOf(k), HealthOf(k), PointsOf(k))
  }

  function RowOf(row: nat): (r: seq<Enemy>)
    ensures |r| == Cols
  {
    seq(Cols, (col: int) requires 0 <= col => EnemyAt(row, col))
  }

  /** The first `rows` rows of the grid, in the row-major order of the nested loops. */
  function Grid(rows: nat): (g: seq<Enemy>)
    ensures |g| == 8 * rows
  {
    if rows == 0 then [] else Grid(rows - 1) + RowOf(rows - 1)
  }

  /** The formation of a level. */
  function LevelFormation(level: int): seq<Enemy> {
    Grid(Rows(level))
  }

  /** Row-major order: the enemy at index row*8 + col is the one built at (row, col). */
  lemma {:induction false} GridAt(rows: nat, row: nat, col: nat)
    requires row < rows && col < Cols
    ensures row * 8 + col < |Grid(rows)|
    ensures Grid(rows)[row * 8 + col] == EnemyAt(row, col)
  {
    if row < rows - 1 {
      GridAt(rows - 1, row, col);
    } else {
      assert |Grid(rows - 1)| == row * 8;
    }
  }

  /** Where an enemy of the grid stands and what it is worth. */
  lemma FormationAt(level: int, row: nat, col: nat)
    requires row < Rows(level) && col < Cols
    ensures |LevelFormation(level)| == 8 * Rows(level)
    ensures var e := LevelFormation(level)[row * 8 + col];
      && e.x == 80.0 + 50.0 * col as real && e.y == 50.0 + 50.0 * row as real
      && e.width == 35.0 && e.height == 35.0
      && e.kind == (if row < 2 then Weak else if row < 4 then Medium else Strong)
      && e.health == e.maxHealth
      && e.maxHealth == (if row < 2 then 1 else if row < 4 then 2 else 3)
      && e.points == 10 * e.maxHealth
  {
    GridAt(Rows(level), row, col);
  }

  /** Every enemy alive in a formation: 1 <= health <= maxHealth and it is worth something. */
  ghost predicate Sound(es: seq<Enemy>) {
    forall k :: 0 <= k < |es| ==> 1 <= es[k].health <= es[k].maxHealth && es[k].points >= 0
  }

  /** Every freshly built enemy has full health (1, 2 or 3) and is worth ten points per health. */
  lemma {:induction false} GridFullHealth(rows: nat)
    ensures Sound(Grid(rows))
    ensures forall k :: 0 <= k < |Grid(rows)| ==>
      var e := Grid(rows)[k];
      e.health == e.maxHealth && 1 <= e.maxHealth <= 3 && e.points == 10 * e.maxHealth
  {
    if rows > 0 {
      GridFullHealth(rows - 1);
      var g := Grid(rows);
      forall k | 0 <= k < |g|
        ensures 1 <= g[k].health <= g[k].maxHealth && g[k].points >= 0
        ensures g[k].health == g[k].maxHealth && 1 <= g[k].maxHealth <= 3 && g[k].points == 10 * g[k].maxHealth
      {
        if k >= |Grid(rows - 1)| {
          assert g[k] == RowOf(rows - 1)[k - |Grid(rows - 1)|];
        } else {
          assert g[k] == Grid(rows - 1)[k];
        }
      }
    }
  }

  /** `shotCooldown = max(150, 300 - 30*level)`: never below 150 milliseconds. */
  function ShotCooldown(level: int): (c: int)
    ensures c >= 150
    ensures level <= 5 ==> c == 300 - 30 * level
    ensures level >= 5 ==> c == 150
  {
    var slowed := 300 - level * 30;
    if slowed >= 150 then slowed else 150
  }

  /** `enemySpeed = 1 + 0.3*level`, exact. */
  function EnemySpeed(level: int): real {
    1.0 + level as real * 0.3
  }

  /** Every enemy moved horizontally by dx. */
  function Shifted(es: seq<Enemy>, dx: real): (r: seq<Enemy>) {
    seq(|es|, (k: int) requires 0 <= k < |es| => es[k].(x := es[k].x + dx))
  }

  /** Every enemy moved down by dy. */
  function Dropped(es: seq<Enemy>, dy: real): (r: seq<Enemy>) {
    seq(|es|, (k: int) requires 0 <= k < |es| => es[k].(y := es[k].y + dy))
  }

  /** An enemy touching or past the left or right edge of the canvas. */
  predicate AtEdge(e: Enemy) {
    e.x <= 0.0 || e.x + e.width >= CanvasWidth
  }

  predicate AnyAtEdge(es: seq<Enemy>) {
    exists k :: 0 <= k < |es| && AtEdge(es[k])
  }

  /** An enemy whose bottom edge has reached the player's row. */
  predicate Breaches(e: Enemy, playerY: real) {
    e.y + e.height >= playerY
  }

  predicate Breached(es: seq<Enemy>, playerY: real) {
    exists k :: 0 <= k < |es| && Breaches(es[k], playerY)
  }

  /** The chance per tick that some enemy fires. */
  function FireChance(level: int): real {
    0.01 + level as real * 0.005
  }

  /** The bullet an enemy fires, from its lower centre. */
  function EnemyShot(e: Enemy): Bullet {
    Bullet(e.x + e.width / 2.0 - 2.0, e.y + e.height, 4.0, 12.0, 4.0)
  }
}
