/** Level setup: the enemy grid and the difficulty formulas of initLevel. */
module Levels {
  import opened Entities

  const EnemyCols: nat := 10
  const MaxEnemyRows: int := 6
  const EnemyPadding: real := 20.0
  const GridStartX: real := 50.0
  const GridStartY: real := 50.0
  const EnemyWidth: real := 30.0
  const EnemyHeight: real := 20.0

  /** Math.min(6, 3 + level) rows; a level below -2 gives no rows at all. */
  function EnemyRows(level: int): int
  {
    if 3 + level < MaxEnemyRows then 3 + level else MaxEnemyRows
  }

  /** How many enemies spawnEnemies pushes: the row loop runs only for positive row counts. */
  function GridSize(level: int): nat
  {
    if EnemyRows(level) <= 0 then 0 else EnemyCols * EnemyRows(level)
  }

  /** The enemy at a grid cell; its kind alternates with the row's parity. */
  function GridEnemy(row: nat, col: nat): Enemy
  {
    Enemy(GridStartX + col as real * (EnemyWidth + EnemyPadding),
          GridStartY + row as real * (EnemyHeight + EnemyPadding),
          EnemyWidth, EnemyHeight,
          if row % 2 == 0 then 0 else 1)
  }

  /** The formation of a level, in the row-major order of the nested loops. */
  function Grid(level: int): (g: seq<Enemy>)
  {
    seq(GridSize(level), k requires 0 <= k < GridSize(level) => GridEnemy(k / EnemyCols, k % EnemyCols))
  }

  lemma CellIndex(row: nat, col: nat)
    requires col < EnemyCols
    ensures (row * EnemyCols + col) / EnemyCols == row
    ensures (row * EnemyCols + col) % EnemyCols == col
  {
  }

  /** spawnEnemies: rows times columns pushes, row by row. */
  method SpawnEnemies(level: int) returns (enemies: seq<Enemy>)
    ensures enemies == Grid(level)
  {
    enemies := [];
    var rows := EnemyRows(level);
    var row := 0;
    while row < rows
      invariant 0 <= row
      invariant row <= rows || row == 0
      invariant |enemies| == EnemyCols * row
      invariant forall k :: 0 <= k < |enemies| ==> enemies[k] == GridEnemy(k / EnemyCols, k % EnemyCols)
    {
      var col := 0;
      while col < EnemyCols
        invariant 0 <= col <= EnemyCols
        invariant |enemies| == EnemyCols * row + col
        invariant forall k :: 0 <= k < |enemies| ==> enemies[k] == GridEnemy(k / EnemyCols, k % EnemyCols)
      {
        CellIndex(row, col);
        enemies := enemies + [GridEnemy(row, col)];
        col := col + 1;
      }
      row := row + 1;
    }
    assert |enemies| == GridSize(level);
  }

  /** A level's grid has ten columns and min(6, 3 + level) rows: 40 enemies at level 1,
      60 from level 3 on. */
  lemma GridShape(level: int)
    requires level >= 1
    ensures |Grid(level)| == EnemyCols * (if 3 + level < 6 then 3 + level else 6)
    ensures level == 1 ==> |Grid(level)| == 40
    ensures level >= 3 ==> |Grid(level)| == 60
  {
  }

  /** Enemy k of the grid sits in row k / 10 and column k % 10, and its kind is the row's parity. */
  lemma GridCell(level: int, k: nat)
    requires k < |Grid(level)|
    ensures Grid(level)[k].kind == (k / EnemyCols) % 2
    ensures Grid(level)[k].x == 50.0 + (k % EnemyCols) as real * 50.0
    ensures Grid(level)[k].y == 50.0 + (k / EnemyCols) as real * 40.0
    ensures Grid(level)[k].width == 30.0 && Grid(level)[k].height == 20.0
  {
  }

  /** The grid is in row-major order and no two enemies overlap: an earlier enemy is
      on a higher row, or on the same row and clear to the left of a later one. */
  lemma GridRowMajor(level: int, i: nat, j: nat)
    requires i < j < |Grid(level)|
    ensures Grid(level)[i].y + EnemyHeight < Grid(level)[j].y
         || (Grid(level)[i].y == Grid(level)[j].y && Grid(level)[i].x + EnemyWidth < Grid(level)[j].x)
  {
    var ri, rj, ci, cj := i / EnemyCols, j / EnemyCols, i % EnemyCols, j % EnemyCols;
    assert i == ri * EnemyCols + ci && j == rj * EnemyCols + cj;
    assert ri <= rj;
    if ri == rj {
      assert ci < cj;
    } else {
      assert (rj - ri) as real >= 1.0;
      assert rj as real * 40.0 >= ri as real * 40.0 + 40.0;
    }
  }

  /** enemySpeed = 20 + (level - 1) * 10. */
  function EnemySpeed(level: int): real
  {
    (20 + (level - 1) * 10) as real
  }

  /** enemyFireInterval = Math.max(500, 2000 - (level - 1) * 200), in milliseconds. */
  function FireInterval(level: int): (r: int)
    ensures r >= 500
    ensures level == 1 ==> r == 2000
    ensures level <= 8 ==> r == 2000 - (level - 1) * 200
    ensures level >= 9 ==> r == 500
  {
    var raw := 2000 - (level - 1) * 200;
    if raw > 500 then raw else 500
  }

  /** Later levels never fire less often, and the formation never marches slower. */
  lemma HarderWithLevel(a: int, b: int)
    requires a <= b
    ensures FireInterval(b) <= FireInterval(a)
    ensures EnemySpeed(b) >= EnemySpeed(a)
  {
  }
}
