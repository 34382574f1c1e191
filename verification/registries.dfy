/**
 * The append-only registries that hand out indices: `Registry<T>`
 * (`RecordId`), the client's `TileRegistry` (`TileId`) and the graphics
 * `SpriteSheetsRegistry` (`SpriteSheetHandle`) share one shape: a vector that
 * is pushed to, the handle being the new element's index.
 */
module Registries {
  import opened Wrappers

  class Registry<T> {
    var entries: seq<T>

    /** `new` / `Default::default`: nothing registered. */
    constructor New()
      ensures entries == []
    {
      entries := [];
    }

    /**
     * `register` / `add_tile` / `push`: appends, and returns the previous
     * entry count as the new entry's index; earlier entries keep theirs.
     */
    method Register(x: T) returns (id: nat)
      modifies this
      ensures entries == old(entries) + [x]
      ensures id == |old(entries)|
      ensures Get(id) == Ok(x)
      ensures forall i :: 0 <= i < |old(entries)| ==> Get(i) == old(Get(i))
    {
      entries := entries + [x];
      id := |entries| - 1;
    }

    /** `get(id)`: the entry at that index; an index past the end panics. */
    function Get(id: nat): (r: Result<T, Panic>)
      reads this
      ensures r.Ok? <==> id < |entries|
      ensures r.Ok? ==> r.value == entries[id]
    {
      if id < |entries| then Ok(entries[id]) else Err(Panic("Invalid tile id"))
    }
  }
}
