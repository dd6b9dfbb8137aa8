/** Start-up construction of the collision grid: the flat tile-code array is cut
    into rows, and one 48 by 48 boundary is placed on every solid cell. */
module Grid {
  import opened Geometry

  /** Number of tiles in one row of the map. */
  const MapTileWidth: nat := 70
  /** Side of one tile, and of every boundary. */
  const TileSize: real := 48.0
  /** Tile code that marks a solid cell. */
  const SolidCode: int := 1025
  /** World offset of the map's top-left corner. */
  const Offset: Vec2 := Vec2(-735.0, -600.0)

  function Min(a: int, b: int): int { if a < b then a else b }

  /** The rows of the map, as the start-up loop builds them: slices of 70 tiles,
      the last one cut short by the end of the array. */
  function Chunks(tiles: seq<int>): seq<seq<int>>
    decreases |tiles|
  {
    if |tiles| == 0 then []
    else if |tiles| <= MapTileWidth then [tiles]
    else [tiles[..MapTileWidth]] + Chunks(tiles[MapTileWidth..])
  }

  /** Concatenation of all rows. */
  function Flatten(rows: seq<seq<int>>): seq<int>
  {
    if rows == [] then [] else rows[0] + Flatten(rows[1..])
  }

  /** Joining the rows gives the tile array back. */
  lemma {:induction false} ChunksFlatten(tiles: seq<int>)
    ensures Flatten(Chunks(tiles)) == tiles
    decreases |tiles|
  {
    if |tiles| > MapTileWidth {
      ChunksFlatten(tiles[MapTileWidth..]);
      assert tiles == tiles[..MapTileWidth] + tiles[MapTileWidth..];
    }
  }

  /** Every row has exactly 70 tiles except the last, which has 1 to 70; there
      are as many rows as 70-tile slices that start inside the array. */
  lemma {:induction false} ChunksShape(tiles: seq<int>)
    ensures |Chunks(tiles)| == (|tiles| + MapTileWidth - 1) / MapTileWidth
    ensures forall k :: 0 <= k < |Chunks(tiles)| - 1 ==> |Chunks(tiles)[k]| == MapTileWidth
    ensures |Chunks(tiles)| > 0 ==> 1 <= |Chunks(tiles)[|Chunks(tiles)| - 1]| <= MapTileWidth
    decreases |tiles|
  {
    if |tiles| > MapTileWidth {
      ChunksShape(tiles[MapTileWidth..]);
    }
  }

  /** Cell (r, c) of the grid is tile 70 * r + c of the flat array. */
  lemma {:induction false} ChunksIndex(tiles: seq<int>, r: nat, c: nat)
    requires c < MapTileWidth && MapTileWidth * r + c < |tiles|
    ensures r < |Chunks(tiles)| && c < |Chunks(tiles)[r]|
    ensures Chunks(tiles)[r][c] == tiles[MapTileWidth * r + c]
    decreases r
  {
    if r > 0 {
      ChunksIndex(tiles[MapTileWidth..], r - 1, c);
    }
  }

  /** One step of the chunking loop: the slice starting at i is the next row. */
  lemma ChunksStep(tiles: seq<int>, i: nat)
    requires i < |tiles|
    ensures Chunks(tiles[i..]) == [tiles[i..Min(MapTileWidth + i, |tiles|)]] + Chunks(tiles[Min(MapTileWidth + i, |tiles|)..])
  {
    var hi := Min(MapTileWidth + i, |tiles|);
    if |tiles| - i > MapTileWidth {
      assert tiles[i..][..MapTileWidth] == tiles[i..hi];
      assert tiles[i..][MapTileWidth..] == tiles[hi..];
    } else {
      assert tiles[i..hi] == tiles[i..] && tiles[hi..] == [];
    }
  }

  /** The row-chunking loop of start-up: `slice(i, 70 + i)` for i = 0, 70, 140, ... */
  method ChunkRows(tiles: seq<int>) returns (rows: seq<seq<int>>)
    ensures rows == Chunks(tiles)
    ensures Flatten(rows) == tiles
    ensures forall k :: 0 <= k < |rows| - 1 ==> |rows[k]| == MapTileWidth
    ensures |rows| > 0 ==> 1 <= |rows[|rows| - 1]| <= MapTileWidth
  {
    rows := [];
    var i := 0;
    while i < |tiles|
      invariant 0 <= i
      invariant rows + Chunks(tiles[Min(i, |tiles|)..]) == Chunks(tiles)
    {
      var hi := Min(MapTileWidth + i, |tiles|);
      ChunksStep(tiles, i);
      rows := rows + [tiles[i..hi]];
      i := i + MapTileWidth;
    }
    ChunksFlatten(tiles);
    ChunksShape(tiles);
  }

  /** The boundary created for grid cell (r, c). */
  function BoundaryAt(r: nat, c: nat): Rect
  {
    Rect(Vec2(c as real * TileSize + Offset.x, r as real * TileSize + Offset.y), TileSize, TileSize)
  }

  /** The boundaries of the first |row| cells of row r, in column order. */
  function RowBoundaries(row: seq<int>, r: nat): seq<Rect>
  {
    if |row| == 0 then []
    else RowBoundaries(row[..|row| - 1], r)
         + (if row[|row| - 1] == SolidCode then [BoundaryAt(r, |row| - 1)] else [])
  }

  /** The boundaries of all cells of the grid, row after row. */
  function GridBoundaries(grid: seq<seq<int>>): seq<Rect>
  {
    if |grid| == 0 then []
    else GridBoundaries(grid[..|grid| - 1]) + RowBoundaries(grid[|grid| - 1], |grid| - 1)
  }

  /** The nested `forEach` of start-up over rows and cells, pushing one boundary per solid cell. */
  method BuildBoundaries(grid: seq<seq<int>>) returns (bs: seq<Rect>)
    ensures bs == GridBoundaries(grid)
  {
    bs := [];
    var r := 0;
    while r < |grid|
      invariant 0 <= r <= |grid|
      invariant bs == GridBoundaries(grid[..r])
    {
      var row := grid[r];
      var c := 0;
      while c < |row|
        invariant 0 <= c <= |row|
        invariant bs == GridBoundaries(grid[..r]) + RowBoundaries(row[..c], r)
      {
        assert row[..c + 1][..c] == row[..c];
        if row[c] == SolidCode {
          bs := bs + [BoundaryAt(r, c)];
        }
        c := c + 1;
      }
      assert row[..c] == row;
      assert grid[..r + 1][..r] == grid[..r];
      r := r + 1;
    }
    assert grid[..r] == grid;
  }

  /** Row-major order of two boundary positions: strictly higher, or on the same
      row and strictly further left. */
  predicate RowMajorBefore(a: Rect, b: Rect)
  {
    a.position.y < b.position.y || (a.position.y == b.position.y && a.position.x < b.position.x)
  }

  /** Every boundary of a row is a solid cell of that row, placed at its cell. */
  lemma {:induction false} RowBoundariesSound(row: seq<int>, r: nat, b: Rect)
    requires b in RowBoundaries(row, r)
    ensures exists c :: 0 <= c < |row| && row[c] == SolidCode && b == BoundaryAt(r, c)
  {
    if |row| > 0 {
      var n := |row| - 1;
      if b in RowBoundaries(row[..n], r) {
        RowBoundariesSound(row[..n], r, b);
        var c :| 0 <= c < n && row[..n][c] == SolidCode && b == BoundaryAt(r, c);
        assert row[c] == SolidCode;
      } else {
        assert row[n] == SolidCode && b == BoundaryAt(r, n);
      }
    }
  }

  /** Every solid cell of a row has its boundary. */
  lemma {:induction false} RowBoundariesComplete(row: seq<int>, r: nat, c: nat)
    requires c < |row| && row[c] == SolidCode
    ensures BoundaryAt(r, c) in RowBoundaries(row, r)
  {
    var n := |row| - 1;
    if c < n {
      assert row[..n][c] == row[c];
      RowBoundariesComplete(row[..n], r, c);
    }
  }

  /** Every boundary of the grid is a solid cell, placed at its cell. */
  lemma {:induction false} GridBoundariesSound(grid: seq<seq<int>>, b: Rect)
    requires b in GridBoundaries(grid)
    ensures exists r, c :: 0 <= r < |grid| && 0 <= c < |grid[r]| && grid[r][c] == SolidCode && b == BoundaryAt(r, c)
  {
    var n := |grid| - 1;
    if b in GridBoundaries(grid[..n]) {
      GridBoundariesSound(grid[..n], b);
      var r, c :| 0 <= r < n && 0 <= c < |grid[..n][r]| && grid[..n][r][c] == SolidCode && b == BoundaryAt(r, c);
      assert grid[r] == grid[..n][r];
    } else {
      RowBoundariesSound(grid[n], n, b);
    }
  }

  /** Every solid cell of the grid has its boundary. */
  lemma {:induction false} GridBoundariesComplete(grid: seq<seq<int>>, r: nat, c: nat)
    requires r < |grid| && c < |grid[r]| && grid[r][c] == SolidCode
    ensures BoundaryAt(r, c) in GridBoundaries(grid)
  {
    var n := |grid| - 1;
    if r < n {
      assert grid[..n][r] == grid[r];
      GridBoundariesComplete(grid[..n], r, c);
    } else {
      RowBoundariesComplete(grid[n], n, c);
    }
  }

  /** Distinct cells give distinct boundaries. */
  lemma BoundaryAtInjective(r: nat, c: nat, r': nat, c': nat)
    requires BoundaryAt(r, c) == BoundaryAt(r', c')
    ensures r == r' && c == c'
  {
    assert r as real * TileSize == r' as real * TileSize;
    assert c as real * TileSize == c' as real * TileSize;
  }

  /** Every boundary of the grid is one tile, 48 by 48. */
  lemma GridBoundariesAreTiles(grid: seq<seq<int>>)
    ensures forall b :: b in GridBoundaries(grid) ==> b.width == TileSize && b.height == TileSize
  {
    forall b | b in GridBoundaries(grid)
      ensures b.width == TileSize && b.height == TileSize
    {
      GridBoundariesSound(grid, b);
    }
  }

  /** A boundary sits on cell (r, c) exactly when that cell holds the solid code. */
  lemma GridBoundaryIff(grid: seq<seq<int>>, r: nat, c: nat)
    requires r < |grid| && c < |grid[r]|
    ensures BoundaryAt(r, c) in GridBoundaries(grid) <==> grid[r][c] == SolidCode
  {
    if grid[r][c] == SolidCode {
      GridBoundariesComplete(grid, r, c);
    } else if BoundaryAt(r, c) in GridBoundaries(grid) {
      GridBoundariesSound(grid, BoundaryAt(r, c));
      var r', c' :| 0 <= r' < |grid| && 0 <= c' < |grid[r']| && grid[r'][c'] == SolidCode && BoundaryAt(r, c) == BoundaryAt(r', c');
      BoundaryAtInjective(r, c, r', c');
      assert false;
    }
  }

  /** Boundaries of row r lie on row r's line and left of column |row|. */
  lemma {:induction false} RowBoundariesBounds(row: seq<int>, r: nat, k: nat)
    requires k < |RowBoundaries(row, r)|
    ensures RowBoundaries(row, r)[k].position.y == r as real * TileSize + Offset.y
    ensures RowBoundaries(row, r)[k].position.x <= (|row| - 1) as real * TileSize + Offset.x
  {
    var n := |row| - 1;
    var prefix := RowBoundaries(row[..n], r);
    if k < |prefix| {
      RowBoundariesBounds(row[..n], r, k);
    }
  }

  /** Within one row the boundaries are ordered by column. */
  lemma {:induction false} RowBoundariesOrdered(row: seq<int>, r: nat)
    ensures forall i, j :: 0 <= i < j < |RowBoundaries(row, r)| ==>
      RowMajorBefore(RowBoundaries(row, r)[i], RowBoundaries(row, r)[j])
  {
    if |row| > 0 {
      var n := |row| - 1;
      var prefix := RowBoundaries(row[..n], r);
      RowBoundariesOrdered(row[..n], r);
      forall i, j | 0 <= i < j < |RowBoundaries(row, r)|
        ensures RowMajorBefore(RowBoundaries(row, r)[i], RowBoundaries(row, r)[j])
      {
        if j >= |prefix| {
          RowBoundariesBounds(row[..n], r, i);
        }
      }
    }
  }

  /** Boundaries of the first |grid| rows lie above row |grid|. */
  lemma {:induction false} GridBoundariesAbove(grid: seq<seq<int>>, k: nat)
    requires k < |GridBoundaries(grid)|
    ensures GridBoundaries(grid)[k].position.y <= (|grid| - 1) as real * TileSize + Offset.y
  {
    var n := |grid| - 1;
    var prefix := GridBoundaries(grid[..n]);
    if k < |prefix| {
      GridBoundariesAbove(grid[..n], k);
    } else {
      RowBoundariesBounds(grid[n], n, k - |prefix|);
    }
  }

  /** Boundaries appear in row-major order of their cells (so no cell appears twice). */
  lemma {:induction false} GridBoundariesOrdered(grid: seq<seq<int>>)
    ensures forall i, j :: 0 <= i < j < |GridBoundaries(grid)| ==>
      RowMajorBefore(GridBoundaries(grid)[i], GridBoundaries(grid)[j])
  {
    if |grid| > 0 {
      var n := |grid| - 1;
      var prefix := GridBoundaries(grid[..n]);
      var last := RowBoundaries(grid[n], n);
      GridBoundariesOrdered(grid[..n]);
      RowBoundariesOrdered(grid[n], n);
      forall i, j | 0 <= i < j < |GridBoundaries(grid)|
        ensures RowMajorBefore(GridBoundaries(grid)[i], GridBoundaries(grid)[j])
      {
        if i < |prefix| && j >= |prefix| {
          GridBoundariesAbove(grid[..n], i);
          RowBoundariesBounds(grid[n], n, j - |prefix|);
        }
      }
    }
  }

  /** Stated on the flat tile array: the boundary of cell (r, c), for a column
      inside the 70-wide map, exists exactly when tile 70 * r + c is solid. */
  lemma TileBoundaryIff(tiles: seq<int>, r: nat, c: nat)
    requires c < MapTileWidth && MapTileWidth * r + c < |tiles|
    ensures BoundaryAt(r, c) in GridBoundaries(Chunks(tiles)) <==> tiles[MapTileWidth * r + c] == SolidCode
  {
    ChunksIndex(tiles, r, c);
    GridBoundaryIff(Chunks(tiles), r, c);
  }
}
