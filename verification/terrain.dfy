/**
 * The game's terrain: 32 x 32 chunks of `u16` tile ids keyed by chunk
 * coordinates, generated on the server around the origin and updated on the
 * client from the chunk and tile packets it receives.
 */
module Terrain {
  import opened Wrappers
  import opened Bytes

  const CHUNK_SIZE: nat := 32

  type TileId = u16

  const DEBUG_TILE_ID: TileId := 0
  const DIRT_TILE_ID: TileId := 1
  const DIAMOND_ORE_TILE_ID: TileId := 2
  const GOLD_ORE_TILE_ID: TileId := 3

  /** `Vector2<i32>`, as chunk coordinates or tile coordinates. */
  datatype Pos = Pos(x: int, y: int)

  /** `Chunk { coords, tiles }`, the tiles indexed `[x][y]`. */
  datatype Chunk = Chunk(coords: Pos, tiles: seq<seq<TileId>>)

  /** The shape the Rust array type guarantees: 32 columns of 32 tiles. */
  predicate WellFormed(c: Chunk) {
    |c.tiles| == CHUNK_SIZE && forall x :: 0 <= x < |c.tiles| ==> |c.tiles[x]| == CHUNK_SIZE
  }

  predicate InChunk(x: int, y: int) {
    0 <= x < CHUNK_SIZE && 0 <= y < CHUNK_SIZE
  }

  /** `Chunk::new(coords)`: every tile is dirt. */
  function ChunkNew(coords: Pos): (c: Chunk)
    ensures WellFormed(c) && c.coords == coords
    ensures forall x, y :: InChunk(x, y) ==> c.tiles[x][y] == DIRT_TILE_ID
  {
    Chunk(coords, seq(CHUNK_SIZE, _ => seq(CHUNK_SIZE, _ => DIRT_TILE_ID)))
  }

  /** The integers `lo .. hi`, as Rust's range `lo..hi` yields them. */
  function Range(lo: int, hi: int): (r: seq<int>)
    decreases hi - lo
    ensures lo <= hi ==> |r| == hi - lo
    ensures lo >= hi ==> r == []
    ensures forall i :: 0 <= i < |r| ==> r[i] == lo + i
  {
    if lo >= hi then [] else [lo] + Range(lo + 1, hi)
  }

  /** `ys.map(move |y| (x, y))`: one row of pairs. */
  function Row(x: int, ys: seq<int>): (r: seq<Pos>)
    ensures |r| == |ys| && forall j :: 0 <= j < |r| ==> r[j] == Pos(x, ys[j])
  {
    seq(|ys|, j requires 0 <= j < |ys| => Pos(x, ys[j]))
  }

  /** `xs.map(|x| ys.map(move |y| (x, y))).flatten()`. */
  function Pairs(xs: seq<int>, ys: seq<int>): seq<Pos> {
    if xs == [] then [] else Row(xs[0], ys) + Pairs(xs[1..], ys)
  }

  /** `chunks_in_sight`: both coordinates range over `-2..2`, x outermost. */
  function ChunksInSight(): seq<Pos> {
    Pairs(Range(-2, 2), Range(-2, 2))
  }

  predicate Distinct<T(==)>(s: seq<T>) {
    forall i, j :: 0 <= i < j < |s| ==> s[i] != s[j]
  }

  /** The flattened pairs are exactly the product of the two ranges, each once. */
  lemma {:induction false} PairsProduct(xs: seq<int>, ys: seq<int>)
    ensures |Pairs(xs, ys)| == |xs| * |ys|
    ensures forall p :: p in Pairs(xs, ys) <==> p.x in xs && p.y in ys
    ensures Distinct(xs) && Distinct(ys) ==> Distinct(Pairs(xs, ys))
  {
    if xs != [] {
      var row, rest := Row(xs[0], ys), Pairs(xs[1..], ys);
      PairsProduct(xs[1..], ys);
      assert |row + rest| == |ys| + (|xs| - 1) * |ys| == |xs| * |ys|;
      forall p: Pos | p.x in xs && p.y in ys
        ensures p in row + rest
      {
        if p.x == xs[0] {
          var j :| 0 <= j < |ys| && ys[j] == p.y;
          assert row[j] == p;
        } else {
          assert p.x in xs[1..];
        }
      }
      if Distinct(xs) && Distinct(ys) {
        assert forall p :: p in rest ==> p.x != xs[0] by {
          forall p | p in rest ensures p.x != xs[0] {
            var i :| 0 <= i < |xs[1..]| && xs[1..][i] == p.x;
            assert xs[i + 1] == p.x;
          }
        }
        DistinctConcat(row, rest);
      }
    }
  }

  lemma DistinctConcat<T>(a: seq<T>, b: seq<T>)
    requires Distinct(a) && Distinct(b) && forall x :: x in a ==> x !in b
    ensures Distinct(a + b)
  {
    forall i, j | 0 <= i < j < |a + b|
      ensures (a + b)[i] != (a + b)[j]
    {
      if j >= |a| && i < |a| {
        assert (a + b)[i] in a && (a + b)[j] == b[j - |a|];
      }
    }
  }

  /** There are 16 chunks in sight, each listed once. */
  lemma InSightCount()
    ensures |ChunksInSight()| == 16 && Distinct(ChunksInSight())
  {
    Square(-2, 2);
  }

  /** A chunk is in sight iff both its coordinates are in {-2, -1, 0, 1}. */
  lemma InSightMembers()
    ensures forall p :: p in ChunksInSight() <==> -2 <= p.x < 2 && -2 <= p.y < 2
  {
    Square(-2, 2);
  }

  /** The pairs over one range twice: the square `lo .. hi` squared, each point once. */
  lemma Square(lo: int, hi: int)
    requires lo <= hi
    ensures |Pairs(Range(lo, hi), Range(lo, hi))| == (hi - lo) * (hi - lo)
    ensures Distinct(Pairs(Range(lo, hi), Range(lo, hi)))
    ensures forall p :: p in Pairs(Range(lo, hi), Range(lo, hi)) <==> lo <= p.x < hi && lo <= p.y < hi
  {
    RangeMembers(lo, hi);
    PairsProduct(Range(lo, hi), Range(lo, hi));
  }

  /** A range holds each integer from `lo` up to `hi` once, and nothing else. */
  lemma RangeMembers(lo: int, hi: int)
    ensures Distinct(Range(lo, hi))
    ensures forall v :: v in Range(lo, hi) <==> lo <= v < hi
  {
    var r := Range(lo, hi);
    forall v | lo <= v < hi ensures v in r {
      assert r[v - lo] == v;
    }
  }

  /** The order is x-major: the first four chunks in sight have x = -2, y = -2 .. 1. */
  lemma InSightOrder()
    ensures ChunksInSight()[..4] == [Pos(-2, -2), Pos(-2, -1), Pos(-2, 0), Pos(-2, 1)]
  {
    var r := Range(-2, 2);
    assert r[0] == -2 && |r| == 4;
    assert ChunksInSight()[..4] == Row(-2, r);
  }

  /**
   * The random choices made for one tile: whether the first draw exceeds
   * 0.90 (gold) and whether the second draw, made only when the first does
   * not, exceeds 0.95 (diamond).
   */
  datatype Roll = Roll(gold: bool, diamond: bool)

  /**
   * The tile `Chunk::generate` leaves at `(x, y)` over `before`: gold or
   * diamond as rolled, and the debug tile at the chunk's corner.
   */
  function GeneratedTile(x: nat, y: nat, before: TileId, roll: Roll): TileId {
    if x % CHUNK_SIZE == 0 && y % CHUNK_SIZE == 0 then DEBUG_TILE_ID
    else if roll.gold then GOLD_ORE_TILE_ID
    else if roll.diamond then DIAMOND_ORE_TILE_ID
    else before
  }

  /** A chunk generated at `coords` from a new chunk with the rolls `roll`. */
  ghost predicate IsGenerated(c: Chunk, coords: Pos, roll: (int, int) -> Roll) {
    && WellFormed(c) && c.coords == coords
    && forall x, y :: InChunk(x, y) ==> c.tiles[x][y] == GeneratedTile(x, y, DIRT_TILE_ID, roll(x, y))
  }

  /**
   * In a chunk generated from `Chunk::new`, the corner is the debug tile and
   * every other tile is gold exactly when its first roll says so, diamond when
   * only its second does, and dirt otherwise.
   */
  lemma GeneratedTiles(c: Chunk, coords: Pos, roll: (int, int) -> Roll, x: int, y: int)
    requires IsGenerated(c, coords, roll) && InChunk(x, y)
    ensures x == 0 && y == 0 ==> c.tiles[x][y] == DEBUG_TILE_ID
    ensures !(x == 0 && y == 0) ==>
      && (c.tiles[x][y] == GOLD_ORE_TILE_ID <==> roll(x, y).gold)
      && (c.tiles[x][y] == DIAMOND_ORE_TILE_ID <==> !roll(x, y).gold && roll(x, y).diamond)
      && (c.tiles[x][y] == DIRT_TILE_ID <==> !roll(x, y).gold && !roll(x, y).diamond)
    ensures c.tiles[x][y] in {DEBUG_TILE_ID, DIRT_TILE_ID, GOLD_ORE_TILE_ID, DIAMOND_ORE_TILE_ID}
  {
  }

  /**
   * `Chunk::generate`: visits every tile, column by column, and writes the
   * rolled ore and then the corner's debug tile in place.
   */
  method GenerateChunk(c: Chunk, roll: (int, int) -> Roll) returns (g: Chunk)
    requires WellFormed(c)
    ensures WellFormed(g) && g.coords == c.coords
    ensures forall x, y :: InChunk(x, y) ==> g.tiles[x][y] == GeneratedTile(x, y, c.tiles[x][y], roll(x, y))
  {
    var tiles := c.tiles;
    for x := 0 to CHUNK_SIZE
      invariant |tiles| == CHUNK_SIZE && forall i :: 0 <= i < CHUNK_SIZE ==> |tiles[i]| == CHUNK_SIZE
      invariant forall i, j :: 0 <= i < x && 0 <= j < CHUNK_SIZE ==> tiles[i][j] == GeneratedTile(i, j, c.tiles[i][j], roll(i, j))
      invariant forall i :: x <= i < CHUNK_SIZE ==> tiles[i] == c.tiles[i]
    {
      var column := GenerateColumn(tiles[x], x, roll);
      tiles := tiles[x := column];
    }
    g := Chunk(c.coords, tiles);
  }

  /** The inner loop of `Chunk::generate`, over one column. */
  method GenerateColumn(column: seq<TileId>, x: nat, roll: (int, int) -> Roll) returns (r: seq<TileId>)
    requires |column| == CHUNK_SIZE
    ensures |r| == CHUNK_SIZE
    ensures forall y :: 0 <= y < CHUNK_SIZE ==> r[y] == GeneratedTile(x, y, column[y], roll(x, y))
  {
    r := column;
    for y := 0 to CHUNK_SIZE
      invariant |r| == CHUNK_SIZE
      invariant forall j :: 0 <= j < y ==> r[j] == GeneratedTile(x, j, column[j], roll(x, j))
      invariant forall j :: y <= j < CHUNK_SIZE ==> r[j] == column[j]
    {
      if roll(x, y).gold {
        r := r[y := GOLD_ORE_TILE_ID];
      } else if roll(x, y).diamond {
        r := r[y := DIAMOND_ORE_TILE_ID];
      }
      if x % CHUNK_SIZE == 0 && y % CHUNK_SIZE == 0 {
        r := r[y := DEBUG_TILE_ID];
      }
    }
  }

  /** Every chunk is well formed and stored under its own coordinates. */
  ghost predicate ValidChunks(m: map<Pos, Chunk>) {
    forall p :: p in m ==> WellFormed(m[p]) && m[p].coords == p
  }

  /** `ServerWorldSetTilePacket { chunk_coords, tile_coords, new_tile_id }`. */
  datatype SetTilePacket = SetTilePacket(chunkCoords: Pos, tileCoords: Pos, newTile: TileId)

  /** The chunk `p` targets: the stored one, or a new dirt chunk. */
  function Target(m: map<Pos, Chunk>, p: SetTilePacket): Chunk {
    if p.chunkCoords in m then m[p.chunkCoords] else ChunkNew(p.chunkCoords)
  }

  /**
   * The `ServerWorldSetTilePacket` handler: the target chunk is inserted if
   * absent (`or_insert`) before the tile is written, so the insertion survives
   * a panic; tile coordinates outside `0..32` (negative ones wrap to huge
   * `usize` values) panic; otherwise exactly `tiles[x][y]` changes.
   */
  function SetTileIn(m: map<Pos, Chunk>, p: SetTilePacket): (r: (map<Pos, Chunk>, Outcome))
    requires ValidChunks(m)
    ensures ValidChunks(r.0)
    ensures r.0.Keys == m.Keys + {p.chunkCoords}
    ensures forall q :: q in m && q != p.chunkCoords ==> r.0[q] == m[q]
    ensures r.1.Panicked? <==> !InChunk(p.tileCoords.x, p.tileCoords.y)
    ensures r.1.Panicked? ==> r.0[p.chunkCoords] == Target(m, p)
    ensures r.1.Done? ==> r.0[p.chunkCoords].tiles[p.tileCoords.x][p.tileCoords.y] == p.newTile
    ensures r.1.Done? ==> forall x, y :: InChunk(x, y) && (x, y) != (p.tileCoords.x, p.tileCoords.y) ==>
      r.0[p.chunkCoords].tiles[x][y] == Target(m, p).tiles[x][y]
  {
    var m1 := m[p.chunkCoords := Target(m, p)];
    var (x, y) := (p.tileCoords.x, p.tileCoords.y);
    if !InChunk(x, y) then (m1, Panicked(Panic("index out of bounds")))
    else
      var c := m1[p.chunkCoords];
      (m1[p.chunkCoords := c.(tiles := c.tiles[x := c.tiles[x][y := p.newTile]])], Done)
  }

  /** The `ServerWorldSendChunkPacket` handler over a run of packets, in order. */
  function ReceivedChunks(m: map<Pos, Chunk>, cs: seq<Chunk>): (r: map<Pos, Chunk>)
    requires ValidChunks(m) && forall c :: c in cs ==> WellFormed(c)
    decreases |cs|
    ensures ValidChunks(r)
  {
    if cs == [] then m else ReceivedChunks(m[cs[0].coords := cs[0]], cs[1..])
  }

  /**
   * After the chunk packets, a coordinate is present iff it was before or some
   * packet carried it, and a coordinate no packet carried keeps its chunk.
   */
  lemma {:induction false} ReceivedChunksKeys(m: map<Pos, Chunk>, cs: seq<Chunk>, p: Pos)
    requires ValidChunks(m) && forall c :: c in cs ==> WellFormed(c)
    decreases |cs|
    ensures p in ReceivedChunks(m, cs) <==> p in m || exists c :: c in cs && c.coords == p
    ensures (forall c :: c in cs ==> c.coords != p) && p in m ==> ReceivedChunks(m, cs)[p] == m[p]
  {
    if cs != [] {
      ReceivedChunksKeys(m[cs[0].coords := cs[0]], cs[1..], p);
      if exists c :: c in cs && c.coords == p {
        var c :| c in cs && c.coords == p;
        assert c == cs[0] || c in cs[1..];
      }
    }
  }

  /** The last chunk packet carrying a coordinate is the one stored there. */
  lemma {:induction false} ReceivedChunksLast(m: map<Pos, Chunk>, cs: seq<Chunk>, i: nat)
    requires ValidChunks(m) && forall c :: c in cs ==> WellFormed(c)
    requires i < |cs| && forall j :: i < j < |cs| ==> cs[j].coords != cs[i].coords
    decreases |cs|
    ensures cs[i].coords in ReceivedChunks(m, cs) && ReceivedChunks(m, cs)[cs[i].coords] == cs[i]
  {
    var m1 := m[cs[0].coords := cs[0]];
    if i == 0 {
      forall c | c in cs[1..] ensures c.coords != cs[0].coords {
        var j :| 0 <= j < |cs[1..]| && cs[1..][j] == c;
        assert cs[j + 1] == c;
      }
      ReceivedChunksKeys(m1, cs[1..], cs[0].coords);
    } else {
      assert forall j :: i - 1 < j < |cs[1..]| ==> cs[1..][j] == cs[j + 1];
      ReceivedChunksLast(m1, cs[1..], i - 1);
    }
  }

  /** The `ServerWorldSetTilePacket` handler over a run of packets, stopping at the first panic. */
  function SetTiles(m: map<Pos, Chunk>, ps: seq<SetTilePacket>): (r: (map<Pos, Chunk>, Outcome))
    requires ValidChunks(m)
    decreases |ps|
    ensures ValidChunks(r.0)
    ensures r.1.Panicked? <==> exists i :: 0 <= i < |ps| && !InChunk(ps[i].tileCoords.x, ps[i].tileCoords.y)
  {
    if ps == [] then (m, Done)
    else
      var (m1, o) := SetTileIn(m, ps[0]);
      if o.Panicked? then (m1, o)
      else
        var r := SetTiles(m1, ps[1..]);
        assert forall i :: 0 < i < |ps| ==> ps[i] == ps[1..][i - 1];
        r
  }

  /** `Tile { id, client_sprite }`; the sprite is present on the client only. */
  datatype Tile = Tile(id: string, clientSprite: Option<nat>)

  /** The terrain's `TileRegistry<S> { entries }`. */
  class TileRegistry {
    var entries: seq<Tile>

    /** `TileRegistry::new(api)`: the tiles the mods registered, in their order. */
    constructor New(fromMods: seq<Tile>)
      ensures entries == fromMods
    {
      entries := fromMods;
    }

    /** `add`: appends the tile. */
    method Add(t: Tile)
      modifies this
      ensures entries == old(entries) + [t]
    {
      entries := entries + [t];
    }
  }

  /** `Terrain<S> { tile_registry, chunks }`. */
  class Terrain {
    const tileRegistry: TileRegistry
    var chunks: map<Pos, Chunk>

    ghost predicate Valid()
      reads this
    {
      ValidChunks(chunks)
    }

    /** `Terrain::new(api)`: no chunk yet. */
    constructor New(fromMods: seq<Tile>)
      ensures Valid() && chunks == map[]
      ensures fresh(tileRegistry) && tileRegistry.entries == fromMods
    {
      tileRegistry := new TileRegistry.New(fromMods);
      chunks := map[];
    }

    /**
     * The server's `generate`: for every chunk in sight a new chunk is
     * generated and inserted under its coordinates; other chunks are kept.
     */
    method Generate(rolls: Pos -> (int, int) -> Roll)
      requires Valid()
      modifies this
      ensures Valid()
      ensures forall p :: p in chunks <==> p in old(chunks) || p in ChunksInSight()
      ensures forall p :: p in ChunksInSight() ==> IsGenerated(chunks[p], p, rolls(p))
      ensures forall p :: p in old(chunks) && p !in ChunksInSight() ==> chunks[p] == old(chunks)[p]
    {
      GenerateAt(ChunksInSight(), rolls);
    }

    /** The loop of `generate`, over the coordinates `sight` in order. */
    method GenerateAt(sight: seq<Pos>, rolls: Pos -> (int, int) -> Roll)
      requires Valid()
      modifies this
      ensures Valid()
      ensures forall p :: p in chunks <==> p in old(chunks) || p in sight
      ensures forall p :: p in sight ==> IsGenerated(chunks[p], p, rolls(p))
      ensures forall p :: p in old(chunks) && p !in sight ==> chunks[p] == old(chunks)[p]
    {
      for i := 0 to |sight|
        invariant Valid()
        invariant forall p :: p in chunks <==> p in old(chunks) || p in sight[..i]
        invariant forall p :: p in sight[..i] ==> IsGenerated(chunks[p], p, rolls(p))
        invariant forall p :: p in old(chunks) && p !in sight[..i] ==> chunks[p] == old(chunks)[p]
      {
        assert sight[..i + 1] == sight[..i] + [sight[i]];
        InsertGenerated(sight[i], rolls(sight[i]));
      }
      assert sight[..|sight|] == sight;
    }

    /** One step of `generate`: a new chunk at `cc`, generated and inserted. */
    method InsertGenerated(cc: Pos, roll: (int, int) -> Roll)
      requires Valid()
      modifies this
      ensures Valid()
      ensures chunks.Keys == old(chunks).Keys + {cc}
      ensures IsGenerated(chunks[cc], cc, roll)
      ensures forall p :: p in old(chunks) && p != cc ==> chunks[p] == old(chunks)[p]
    {
      var chunk := GenerateChunk(ChunkNew(cc), roll);
      chunks := chunks[cc := chunk];
    }

    /** The `ServerWorldSendChunkPacket` handler: the chunk goes under its own coordinates. */
    method ReceiveChunk(c: Chunk)
      requires Valid() && WellFormed(c)
      modifies this
      ensures Valid()
      ensures chunks == old(chunks)[c.coords := c]
    {
      chunks := chunks[c.coords := c];
    }

    /** The `ServerWorldSetTilePacket` handler, as `SetTileIn` states it. */
    method SetTile(p: SetTilePacket) returns (o: Outcome)
      requires Valid()
      modifies this
      ensures Valid()
      ensures (chunks, o) == SetTileIn(old(chunks), p)
    {
      if p.chunkCoords !in chunks {
        chunks := chunks[p.chunkCoords := ChunkNew(p.chunkCoords)];
      }
      assert chunks == old(chunks)[p.chunkCoords := Target(old(chunks), p)];
      var (x, y) := (p.tileCoords.x, p.tileCoords.y);
      if !(0 <= x < CHUNK_SIZE && 0 <= y < CHUNK_SIZE) {
        return Panicked(Panic("index out of bounds"));
      }
      var c := chunks[p.chunkCoords];
      chunks := chunks[p.chunkCoords := c.(tiles := c.tiles[x := c.tiles[x][y := p.newTile]])];
      o := Done;
    }

    /**
     * `client_update`: the chunk packets received this tick are applied in
     * order, then the tile packets, up to the first panic.
     */
    method ClientUpdate(sent: seq<Chunk>, setTiles: seq<SetTilePacket>) returns (o: Outcome)
      requires Valid() && forall c :: c in sent ==> WellFormed(c)
      modifies this
      ensures Valid()
      ensures (chunks, o) == SetTiles(ReceivedChunks(old(chunks), sent), setTiles)
    {
      ReceiveChunks(sent);
      o := SetTilesInOrder(setTiles);
    }

    /** The `ServerWorldSendChunkPacket` handler, once per packet received. */
    method ReceiveChunks(sent: seq<Chunk>)
      requires Valid() && forall c :: c in sent ==> WellFormed(c)
      modifies this
      ensures Valid()
      ensures chunks == ReceivedChunks(old(chunks), sent)
    {
      for i := 0 to |sent|
        invariant Valid()
        invariant ReceivedChunks(old(chunks), sent) == ReceivedChunks(chunks, sent[i..])
      {
        assert sent[i..][1..] == sent[i + 1..];
        ReceiveChunk(sent[i]);
      }
      assert sent[|sent|..] == [];
    }

    /** The `ServerWorldSetTilePacket` handler, once per packet received, up to a panic. */
    method SetTilesInOrder(setTiles: seq<SetTilePacket>) returns (o: Outcome)
      requires Valid()
      modifies this
      ensures Valid()
      ensures (chunks, o) == SetTiles(old(chunks), setTiles)
    {
      o := Done;
      var i := 0;
      assert setTiles[0..] == setTiles;
      while i < |setTiles|
        invariant 0 <= i <= |setTiles|
        invariant Valid() && o == Done
        invariant SetTiles(old(chunks), setTiles) == SetTiles(chunks, setTiles[i..])
      {
        assert setTiles[i..][1..] == setTiles[i + 1..];
        o := SetTile(setTiles[i]);
        if o.Panicked? {
          return;
        }
        i := i + 1;
      }
      assert setTiles[i..] == [];
    }
  }
}
