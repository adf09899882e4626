/** The level grid of game.js: rows of cells, each empty (`undefined` in the source) or
    holding an obstacle tag, `'wall'` or `'lava'`. Rows may differ in length. */
module Grid {
  import opened Options

  datatype Obstacle = Wall | Lava

  type Cell = Option<Obstacle>

  /** The row `grid.reduce((a, b) => a.length > b.length ? a : b)` settles on (game.js:72):
      a left fold that keeps the row seen so far only while it is strictly longer. */
  function Longest(rows: seq<seq<Cell>>): (r: seq<Cell>)
    requires |rows| > 0
    ensures r in rows
    ensures forall k :: 0 <= k < |rows| ==> |rows[k]| <= |r|
  {
    if |rows| == 1 then rows[0]
    else
      var a := Longest(rows[..|rows| - 1]);
      var b := rows[|rows| - 1];
      if |a| > |b| then a else b
  }

  /** The first non-empty cell of a row, scanning from the left. */
  function FirstInRow(row: seq<Cell>): Cell {
    if |row| == 0 then None
    else if row[0].Some? then row[0]
    else FirstInRow(row[1..])
  }

  /** The first non-empty cell of the whole grid in row-major order: what the nested
      `for ... of` loops of Level.obstacleAt return once the boundary checks pass. */
  function FirstObstacle(grid: seq<seq<Cell>>): Cell {
    if |grid| == 0 then None
    else if FirstInRow(grid[0]).Some? then FirstInRow(grid[0])
    else FirstObstacle(grid[1..])
  }

  /** Every cell of every row is empty. */
  predicate AllEmpty(grid: seq<seq<Cell>>) {
    forall i, j :: 0 <= i < |grid| && 0 <= j < |grid[i]| ==> grid[i][j].None?
  }

  /** Every cell before (i, j) in row-major order is empty. */
  predicate EmptyBefore(grid: seq<seq<Cell>>, i: nat, j: nat)
    requires i < |grid| && j <= |grid[i]|
  {
    AllEmpty(grid[..i]) && forall c :: 0 <= c < j ==> grid[i][c].None?
  }

  lemma {:induction false} FirstInRowIsFirst(row: seq<Cell>, j: nat)
    requires j < |row| && row[j].Some?
    requires forall c :: 0 <= c < j ==> row[c].None?
    ensures FirstInRow(row) == row[j]
  {
    if j > 0 {
      FirstInRowIsFirst(row[1..], j - 1);
    }
  }

  lemma {:induction false} FirstInRowNone(row: seq<Cell>)
    ensures FirstInRow(row).None? <==> forall c :: 0 <= c < |row| ==> row[c].None?
  {
    if |row| > 0 {
      FirstInRowNone(row[1..]);
      assert forall c :: 1 <= c < |row| ==> row[c] == row[1..][c - 1];
    }
  }

  lemma {:induction false} FirstInRowFound(row: seq<Cell>)
    requires FirstInRow(row).Some?
    ensures exists j :: 0 <= j < |row| && row[j] == FirstInRow(row) && forall c :: 0 <= c < j ==> row[c].None?
  {
    if row[0].None? {
      FirstInRowFound(row[1..]);
      var j :| 0 <= j < |row[1..]| && row[1..][j] == FirstInRow(row[1..]) && forall c :: 0 <= c < j ==> row[1..][c].None?;
      assert row[j + 1] == FirstInRow(row);
      assert forall c :: 0 <= c < j + 1 ==> row[c].None? by {
        forall c | 0 <= c < j + 1 ensures row[c].None? {
          if c > 0 { assert row[c] == row[1..][c - 1]; }
        }
      }
    } else {
      assert row[0] == FirstInRow(row);
    }
  }

  /** If the cells before (i, j) are empty and (i, j) is not, the scan returns (i, j)'s tag. */
  lemma {:induction false} FirstObstacleIsFirst(grid: seq<seq<Cell>>, i: nat, j: nat)
    requires i < |grid| && j < |grid[i]| && EmptyBefore(grid, i, j) && grid[i][j].Some?
    ensures FirstObstacle(grid) == grid[i][j]
  {
    if i == 0 {
      FirstInRowIsFirst(grid[0], j);
    } else {
      assert grid[..i][0] == grid[0];
      FirstInRowNone(grid[0]);
      assert grid[1..][..i - 1] == grid[..i][1..];
      FirstObstacleIsFirst(grid[1..], i - 1, j);
    }
  }

  /** The scan finds nothing exactly when the grid has no obstacle at all. */
  lemma {:induction false} FirstObstacleNone(grid: seq<seq<Cell>>)
    ensures FirstObstacle(grid).None? <==> AllEmpty(grid)
  {
    if |grid| > 0 {
      FirstInRowNone(grid[0]);
      FirstObstacleNone(grid[1..]);
      assert forall i :: 1 <= i < |grid| ==> grid[i] == grid[1..][i - 1];
    }
  }

  /** Whatever the scan returns is the tag of a cell that every earlier cell, in
      row-major order, leaves empty. */
  lemma {:induction false} FirstObstacleFound(grid: seq<seq<Cell>>)
    requires FirstObstacle(grid).Some?
    ensures exists i, j :: 0 <= i < |grid| && 0 <= j < |grid[i]| && EmptyBefore(grid, i, j) && grid[i][j] == FirstObstacle(grid)
  {
    if FirstInRow(grid[0]).Some? {
      FirstInRowFound(grid[0]);
      var j :| 0 <= j < |grid[0]| && grid[0][j] == FirstInRow(grid[0]) && forall c :: 0 <= c < j ==> grid[0][c].None?;
      assert EmptyBefore(grid, 0, j);
    } else {
      FirstInRowNone(grid[0]);
      FirstObstacleFound(grid[1..]);
      var i, j :| 0 <= i < |grid[1..]| && 0 <= j < |grid[1..][i]| && EmptyBefore(grid[1..], i, j) && grid[1..][i][j] == FirstObstacle(grid[1..]);
      assert grid[..i + 1] == [grid[0]] + grid[1..][..i];
      assert EmptyBefore(grid, i + 1, j);
    }
  }
}
