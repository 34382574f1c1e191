/**
 * The tile map shared by client and server: a map from chunk coordinates to
 * 16 x 16 chunks, built as a grid of chunks centred on the origin.
 */
module CommonTilemap {
  import opened Wrappers

  /** Tiles per chunk side. */
  const CHUNK_SIZE: int := 16

  /** Rust's `i32` division, which truncates toward zero (`d` is positive here). */
  function TruncDiv(n: int, d: int): (q: int)
    requires d > 0
    ensures (n >= 0 ==> q >= 0) && (n <= 0 ==> q <= 0)
  {
    if n >= 0 then n / d else -((-n) / d)
  }

  /**
   * Truncating division is odd, unlike Euclidean division: -1 / 16 is 0 in
   * Rust and -1 in Dafny.
   */
  lemma TruncDivOdd(n: int, d: int)
    requires d > 0
    ensures TruncDiv(-n, d) == -TruncDiv(n, d)
    ensures TruncDiv(-1, 16) == 0 && -1 / 16 == -1
  {
  }

  datatype ChunkCoord = ChunkCoord(x: int, y: int)

  /** A chunk's tiles, indexed `[y][x]` as the Rust array of rows. */
  type TileChunk<T> = seq<seq<T>>

  datatype TileMap<T> = TileMap(chunks: map<ChunkCoord, TileChunk<T>>)

  /** `TileChunk::new_filled(tile)`: every one of the 16 x 16 tiles is `tile`. */
  function NewFilled<T>(tile: T): (r: TileChunk<T>)
    ensures |r| == CHUNK_SIZE && forall i :: 0 <= i < |r| ==> |r[i]| == CHUNK_SIZE
    ensures forall i, j :: 0 <= i < |r| && 0 <= j < |r[i]| ==> r[i][j] == tile
  {
    seq(CHUNK_SIZE, _ => seq(CHUNK_SIZE, _ => tile))
  }

  /** The chunks `[x0, x0 + w) x [y0, y0 + h)`. */
  predicate InGrid(c: ChunkCoord, x0: int, w: int, y0: int, h: int) {
    x0 <= c.x < x0 + w && y0 <= c.y < y0 + h
  }

  /** The number of chunks along one side: `size / 16`, truncated. */
  function ChunkCount(size: int): int {
    TruncDiv(size, CHUNK_SIZE)
  }

  /** Where the grid starts along one side: `-count / 2`, truncated. */
  function GridStart(count: int): int {
    TruncDiv(-count, 2)
  }

  /**
   * `TileMap::new(size, background)`. The capacity `cx * cy` is cast to
   * `usize`; a negative product becomes a huge capacity and the allocation
   * panics. Otherwise every chunk of the centred grid is inserted, filled
   * with the background.
   */
  method New<T>(sx: int, sy: int, background: T) returns (r: Result<TileMap<T>, Panic>)
    ensures var cx, cy := ChunkCount(sx), ChunkCount(sy);
      && (r.Err? <==> cx * cy < 0)
      && (r.Ok? ==> forall c :: c in r.value.chunks <==> InGrid(c, GridStart(cx), cx, GridStart(cy), cy))
      && (r.Ok? ==> forall c :: c in r.value.chunks ==> r.value.chunks[c] == NewFilled(background))
  {
    var cx, cy := ChunkCount(sx), ChunkCount(sy);
    if cx * cy < 0 {
      return Err(Panic("Hash table capacity overflow"));
    }
    var xstart, ystart := GridStart(cx), GridStart(cy);
    var chunks: map<ChunkCoord, TileChunk<T>> := map[];
    var x := xstart;
    while x < xstart + cx
      invariant xstart <= x && (cx > 0 ==> x <= xstart + cx) && (cx <= 0 ==> x == xstart)
      invariant forall c :: c in chunks <==> InGrid(c, xstart, x - xstart, ystart, cy)
      invariant forall c :: c in chunks ==> chunks[c] == NewFilled(background)
    {
      chunks := FillColumn(chunks, x, ystart, cy, NewFilled(background));
      x := x + 1;
    }
    return Ok(TileMap(chunks));
  }

  /** The inner loop of `TileMap::new`: one column of chunks. */
  method FillColumn<C>(chunks: map<ChunkCoord, C>, x: int, ystart: int, cy: int, chunk: C) returns (r: map<ChunkCoord, C>)
    ensures forall c :: c in r <==> c in chunks || (c.x == x && ystart <= c.y < ystart + cy)
    ensures forall c :: c in r ==> r[c] == if c.x == x && ystart <= c.y < ystart + cy then chunk else chunks[c]
  {
    r := chunks;
    var y := ystart;
    while y < ystart + cy
      invariant ystart <= y && (cy > 0 ==> y <= ystart + cy) && (cy <= 0 ==> y == ystart)
      invariant forall c :: c in r <==> c in chunks || (c.x == x && ystart <= c.y < y)
      invariant forall c :: c in r ==> r[c] == if c.x == x && ystart <= c.y < y then chunk else chunks[c]
    {
      r := r[ChunkCoord(x, y) := chunk];
      y := y + 1;
    }
  }

  /** The grid's chunk coordinates, as a set. */
  function Grid(x0: int, w: nat, y0: int, h: nat): (s: set<ChunkCoord>)
    ensures forall c :: c in s <==> InGrid(c, x0, w, y0, h)
  {
    set x, y | x0 <= x < x0 + w && y0 <= y < y0 + h :: ChunkCoord(x, y)
  }

  /** A `w` x `h` grid holds `w * h` chunks. */
  lemma {:induction false} GridSize(x0: int, w: nat, y0: int, h: nat)
    ensures |Grid(x0, w, y0, h)| == w * h
  {
    if w > 0 {
      GridSize(x0, w - 1, y0, h);
      ColumnSize(x0 + w - 1, y0, h);
      GridSplit(x0, w, y0, h);
      MulStep(w, h);
    } else {
      assert Grid(x0, w, y0, h) == {};
    }
  }

  /** A grid is the grid one column narrower plus its last column, disjointly. */
  lemma GridSplit(x0: int, w: nat, y0: int, h: nat)
    requires w > 0
    ensures |Grid(x0, w, y0, h)| == |Grid(x0, w - 1, y0, h)| + |Grid(x0 + w - 1, 1, y0, h)|
  {
    var rest, column := Grid(x0, w - 1, y0, h), Grid(x0 + w - 1, 1, y0, h);
    forall c | c in Grid(x0, w, y0, h)
      ensures c in rest + column
    {
      assert InGrid(c, x0, w, y0, h);
    }
    forall c | c in rest
      ensures c !in column
    {
      assert InGrid(c, x0, w - 1, y0, h);
    }
    assert Grid(x0, w, y0, h) == rest + column;
    assert rest * column == {};
  }

  lemma MulStep(w: int, h: int)
    ensures (w - 1) * h + h == w * h
  {
  }

  lemma {:induction false} ColumnSize(x: int, y0: int, h: nat)
    ensures |Grid(x, 1, y0, h)| == h
  {
    if h > 0 {
      ColumnSize(x, y0, h - 1);
      ColumnSplit(x, y0, h);
    } else {
      assert Grid(x, 1, y0, h) == {};
    }
  }

  /** A column is the column one chunk shorter plus its last chunk. */
  lemma ColumnSplit(x: int, y0: int, h: nat)
    requires h > 0
    ensures |Grid(x, 1, y0, h)| == |Grid(x, 1, y0, h - 1)| + 1
  {
    var shorter, last := Grid(x, 1, y0, h - 1), ChunkCoord(x, y0 + h - 1);
    forall c | c in Grid(x, 1, y0, h)
      ensures c in shorter + {last}
    {
      assert InGrid(c, x, 1, y0, h);
    }
    assert Grid(x, 1, y0, h) == shorter + {last};
    assert last !in shorter;
  }

  /**
   * The map built by `TileMap::new` holds `cx * cy` chunks when both counts
   * are positive, and none when either is zero or both are negative.
   */
  lemma NewSize<T>(sx: int, sy: int, m: TileMap<T>)
    requires var cx, cy := ChunkCount(sx), ChunkCount(sy);
      forall c :: c in m.chunks <==> InGrid(c, GridStart(cx), cx, GridStart(cy), cy)
    ensures var cx, cy := ChunkCount(sx), ChunkCount(sy);
      && (cx > 0 && cy > 0 ==> |m.chunks| == cx * cy)
      && (cx <= 0 || cy <= 0 ==> m.chunks == map[])
  {
    var cx, cy := ChunkCount(sx), ChunkCount(sy);
    if cx > 0 && cy > 0 {
      GridSize(GridStart(cx), cx, GridStart(cy), cy);
      assert m.chunks.Keys == Grid(GridStart(cx), cx, GridStart(cy), cy);
    } else {
      assert m.chunks.Keys == {};
    }
  }

  /** `ChunkCoord::to_tile_coords`: the chunk's first tile; dividing by 16 gives the chunk back. */
  function ToTileCoords(c: ChunkCoord): (r: ChunkCoord)
    ensures r.x % CHUNK_SIZE == 0 && r.x / CHUNK_SIZE == c.x
    ensures r.y % CHUNK_SIZE == 0 && r.y / CHUNK_SIZE == c.y
  {
    ChunkCoord(c.x * CHUNK_SIZE, c.y * CHUNK_SIZE)
  }
}
