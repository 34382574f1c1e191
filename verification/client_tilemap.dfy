/**
 * The client's tile maps: the storage that holds the tile registry and the
 * loaded maps, and the client's chunk-to-tile conversion, which centres a
 * chunk on its tiles. The client `TileMap::new` and `TileChunk::new_filled`
 * are the same code as the common ones and are modelled by
 * `CommonTilemap.New` and `CommonTilemap.NewFilled`.
 */
module ClientTilemap {
  import opened Wrappers
  import CommonTilemap
  import Registries

  /** `TileId(usize)`. */
  type TileId = nat

  /** A tile's sprite, standing for the graphics `Sprite` it is drawn with. */
  datatype Tile = Tile(sprite: nat)

  type TileMap = CommonTilemap.TileMap<TileId>

  /** Offset of a chunk's drawing origin from its first tile. */
  const CENTRE_X: int := 7
  const CENTRE_Y: int := 8

  /**
   * The client `ChunkCoord::to_tile_coords`: the chunk's first tile moved back
   * by (7, 8); adding the offset back and dividing by 16 gives the chunk.
   */
  function ToTileCoords(c: CommonTilemap.ChunkCoord): (r: CommonTilemap.ChunkCoord)
    ensures (r.x + CENTRE_X) % CommonTilemap.CHUNK_SIZE == 0 && (r.x + CENTRE_X) / CommonTilemap.CHUNK_SIZE == c.x
    ensures (r.y + CENTRE_Y) % CommonTilemap.CHUNK_SIZE == 0 && (r.y + CENTRE_Y) / CommonTilemap.CHUNK_SIZE == c.y
  {
    var t := CommonTilemap.ToTileCoords(c);
    CommonTilemap.ChunkCoord(t.x - CENTRE_X, t.y - CENTRE_Y)
  }

  /** The client and common conversions differ by exactly the (7, 8) offset. */
  lemma ToTileCoordsOffset(c: CommonTilemap.ChunkCoord)
    ensures ToTileCoords(c).x == CommonTilemap.ToTileCoords(c).x - 7
    ensures ToTileCoords(c).y == CommonTilemap.ToTileCoords(c).y - 8
  {
  }

  /** `TileMapStorage { tile_registry, tile_maps }`. */
  class TileMapStorage {
    const tileRegistry: Registries.Registry<Tile>
    var tileMaps: seq<TileMap>

    /** `TileMapStorage::new`: an empty registry and no map. */
    constructor New()
      ensures fresh(tileRegistry) && tileRegistry.entries == []
      ensures tileMaps == []
    {
      tileRegistry := new Registries.Registry.New();
      tileMaps := [];
    }

    /**
     * `add_tile_map`: appends; the registry is not touched. A selection, once
     * there is one, stays the same, and the first map added becomes it.
     */
    method AddTileMap(m: TileMap)
      modifies this
      ensures tileMaps == old(tileMaps) + [m]
      ensures old(SelectedTilemap()).Some? ==> SelectedTilemap() == old(SelectedTilemap())
      ensures old(SelectedTilemap()).None? ==> SelectedTilemap() == Some(m)
    {
      tileMaps := tileMaps + [m];
    }

    /** `selected_tilemap`: the first map added, if any. */
    function SelectedTilemap(): (r: Option<TileMap>)
      reads this
      ensures r.None? <==> tileMaps == []
      ensures r.Some? ==> r.value == tileMaps[0]
    {
      if tileMaps == [] then None else Some(tileMaps[0])
    }
  }
}
