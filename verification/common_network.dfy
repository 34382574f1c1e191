/**
 * The older packet protocol shared by the client and the server crates: a
 * two-way table between packet types and 16-bit ids, and the bincode frame
 * `RawPacket { id, data }` that carries one serialised packet.
 */
module CommonNetwork {
  import opened Wrappers
  import opened Bytes

  /** A packet type, standing for its `TypeId`. */
  type TypeKey = string

  type PacketId = u16

  /** Largest length bincode can write as a `u64` prefix; every Rust slice is shorter. */
  const U64_LIMIT: nat := 0x1_0000_0000_0000_0000

  /** `bimap::BiMap`: the pairs, looked up from either side. */
  datatype BiMap<L, R> = BiMap(byLeft: map<L, R>, byRight: map<R, L>)

  /** Both directions hold the same pairs. */
  ghost predicate Coherent<L, R>(b: BiMap<L, R>) {
    && (forall l :: l in b.byLeft ==> b.byLeft[l] in b.byRight && b.byRight[b.byLeft[l]] == l)
    && (forall r :: r in b.byRight ==> b.byRight[r] in b.byLeft && b.byLeft[b.byRight[r]] == r)
  }

  /**
   * `BiMap::insert`: any pair that shares the new left value or the new right
   * value is dropped, then the new pair is added.
   */
  function Insert<L, R>(b: BiMap<L, R>, l: L, r: R): (res: BiMap<L, R>)
    requires Coherent(b)
    ensures Coherent(res)
    ensures l in res.byLeft && res.byLeft[l] == r
    ensures forall k :: k != l && k in b.byLeft && b.byLeft[k] != r ==> k in res.byLeft && res.byLeft[k] == b.byLeft[k]
    ensures forall k :: k != l && k in res.byLeft ==> k in b.byLeft && b.byLeft[k] != r
  {
    var left1 := b.byLeft - {l};
    var right1 := if l in b.byLeft then b.byRight - {b.byLeft[l]} else b.byRight;
    var left2 := if r in right1 then left1 - {right1[r]} else left1;
    var right2 := right1 - {r};
    BiMap(left2[l := r], right2[r := l])
  }

  /** The table after `add_packet` inserts `t` with the current count, cast `as u16`. */
  function Added(b: BiMap<TypeKey, PacketId>, t: TypeKey): (r: BiMap<TypeKey, PacketId>)
    requires Coherent(b)
    ensures Coherent(r)
  {
    Insert(b, t, TruncateU16(|b.byLeft|))
  }

  /** Ids are exactly 0 .. count-1. */
  ghost predicate Dense(b: BiMap<TypeKey, PacketId>) {
    forall t :: t in b.byLeft ==> b.byLeft[t] as int < |b.byLeft|
  }

  /** `AnyPacket`: a decoded frame, its type recovered from the id. */
  datatype AnyPacket = AnyPacket(typeId: TypeKey, data: seq<byte>) {
    /** `is::<T>()`. */
    predicate Is(t: TypeKey) {
      typeId == t
    }

    /**
     * `try_decode::<T>()`: `None` for another type; for this type the body is
     * deserialised, and a body that does not deserialise panics.
     */
    function TryDecode<V>(t: TypeKey, deserialize: seq<byte> -> Option<V>): (r: Result<Option<V>, Panic>)
      ensures !Is(t) ==> r == Ok(None)
      ensures Is(t) ==> (r.Ok? <==> deserialize(data).Some?)
      ensures Is(t) && r.Ok? ==> r.value == deserialize(data)
    {
      if !Is(t) then Ok(None)
      else if deserialize(data).None? then Err(Panic("Failed to deserialize data"))
      else Ok(deserialize(data))
    }
  }

  /** bincode's layout of `RawPacket { id, data }`: `u16` LE, `u64` LE length, the bytes. */
  function RawFrame(id: PacketId, data: seq<byte>): (r: seq<byte>)
    requires |data| < U64_LIMIT
    ensures |r| == 10 + |data|
  {
    U16ToLe(id) + NatToLe(|data|, 8) + data
  }

  /**
   * bincode's reading of a `RawPacket` from the front of `bytes`; trailing
   * bytes are allowed, and input that ends early is an error.
   */
  function ParseRawFrame(bytes: seq<byte>): (r: Option<(PacketId, seq<byte>)>)
    ensures r.Some? ==> |bytes| >= 10 && 10 + |r.value.1| <= |bytes| && r.value.1 == bytes[10..10 + |r.value.1|]
    ensures r.None? <==> |bytes| < 10 || |bytes| - 10 < NatFromLe(bytes[2..10])
  {
    if |bytes| < 10 then None
    else
      var len := NatFromLe(bytes[2..10]);
      if |bytes| - 10 < len then None
      else Some((U16FromLe(bytes[..2]), bytes[10..10 + len]))
  }

  /** A frame reads back as the id and data it was written from, whatever follows it. */
  lemma RawFrameRoundTrip(id: PacketId, data: seq<byte>, rest: seq<byte>)
    requires |data| < U64_LIMIT
    ensures ParseRawFrame(RawFrame(id, data) + rest) == Some((id, data))
  {
    var bytes := RawFrame(id, data) + rest;
    assert bytes[2..10] == NatToLe(|data|, 8);
    assert Pow256(8) == U64_LIMIT;
    LeRoundTrip(|data|, 8);
    assert bytes[..2] == U16ToLe(id);
    assert bytes[10..10 + |data|] == data;
  }

  /** `Protocol { packets: BiMap<TypeId, PacketId> }`. */
  class Protocol {
    var packets: BiMap<TypeKey, PacketId>

    ghost predicate Valid()
      reads this
    {
      Coherent(packets)
    }

    /** `Protocol::new`: no packet registered. */
    constructor New()
      ensures Valid() && Dense(packets)
      ensures packets.byLeft == map[] && packets.byRight == map[]
    {
      packets := BiMap(map[], map[]);
    }

    /**
     * `add_packet::<T>()`: a type already present panics; otherwise the type
     * is inserted with the current count, cast `as u16`, as its id.
     */
    method AddPacket(t: TypeKey) returns (o: Outcome)
      requires Valid()
      modifies this
      ensures Valid()
      ensures o.Panicked? <==> t in old(packets.byLeft)
      ensures o.Panicked? ==> packets == old(packets)
      ensures o.Done? ==> packets == Added(old(packets), t)
    {
      if t in packets.byLeft {
        return Panicked(Panic("Packet already exists"));
      }
      packets := Added(packets, t);
      o := Done;
    }

    /** `id_of::<T>()`. */
    function IdOf(t: TypeKey): (r: Option<PacketId>)
      reads this
      ensures r.Some? <==> t in packets.byLeft
      ensures r.Some? ==> packets.byLeft[t] == r.value
    {
      if t in packets.byLeft then Some(packets.byLeft[t]) else None
    }

    /** `type_id_of(id)`: panics for an id no type holds. */
    function TypeIdOf(id: PacketId): (r: Result<TypeKey, Panic>)
      reads this
      ensures r.Ok? <==> id in packets.byRight
      ensures r.Ok? && Valid() ==> IdOf(r.value) == Some(id)
    {
      if id in packets.byRight then Ok(packets.byRight[id]) else Err(Panic("Invalid packet id"))
    }

    /**
     * `encode(&data)`: `data` is the bincode serialisation of the packet; an
     * unregistered type panics, a registered one is framed with its id.
     */
    function Encode(t: TypeKey, data: seq<byte>): (r: Result<seq<byte>, Panic>)
      requires |data| < U64_LIMIT
      reads this
      ensures r.Ok? <==> t in packets.byLeft
      ensures r.Ok? ==> ParseRawFrame(r.value) == Some((packets.byLeft[t], data))
    {
      match IdOf(t)
      case None => Err(Panic("Tried to encode unknown packet, include it in the protocol"))
      case Some(id) =>
        RawFrameRoundTrip(id, data, []);
        assert RawFrame(id, data) + [] == RawFrame(id, data);
        Ok(RawFrame(id, data))
    }

    /**
     * `decode(bytes)`: `None` when no frame can be read; otherwise the frame's
     * id is looked up, and an id no type holds panics.
     */
    function Decode(bytes: seq<byte>): (r: Result<Option<AnyPacket>, Panic>)
      reads this
      ensures ParseRawFrame(bytes).None? ==> r == Ok(None)
      ensures ParseRawFrame(bytes).Some? ==>
        var (id, data) := ParseRawFrame(bytes).value;
        && (r.Ok? <==> id in packets.byRight)
        && (r.Ok? ==> r.value == Some(AnyPacket(packets.byRight[id], data)))
    {
      match ParseRawFrame(bytes)
      case None => Ok(None)
      case Some((id, data)) =>
        var t :- TypeIdOf(id);
        Ok(Some(AnyPacket(t, data)))
    }
  }

  /**
   * In a coherent table `id_of` and `type_id_of` are inverse: a type's id
   * leads back to the type, and an id that resolves leads back to itself.
   */
  lemma IdTypeInverse(p: Protocol, t: TypeKey, id: PacketId)
    requires p.Valid()
    ensures p.IdOf(t) == Some(id) <==> p.TypeIdOf(id) == Ok(t)
  {
  }

  /**
   * Registering a new type while fewer than 65536 exist gives it the count as
   * its id, keeps every earlier id, and keeps the ids dense.
   */
  lemma InsertFresh(b: BiMap<TypeKey, PacketId>, t: TypeKey)
    requires Coherent(b) && Dense(b) && t !in b.byLeft && |b.byLeft| < 0x1_0000
    ensures TruncateU16(|b.byLeft|) !in b.byRight
    ensures var b' := Added(b, t);
      && b'.byLeft == b.byLeft[t := |b.byLeft| as u16]
      && Dense(b')
  {
    var id := TruncateU16(|b.byLeft|);
    FreshId(b);
    InsertNew(b, t, id);
    DenseUpdate(b.byLeft, t, id, b.byLeft[t := id]);
  }

  /** In a dense table the count is not yet an id. */
  lemma FreshId(b: BiMap<TypeKey, PacketId>)
    requires Coherent(b) && Dense(b) && |b.byLeft| < 0x1_0000
    ensures TruncateU16(|b.byLeft|) !in b.byRight
  {
    forall r | r in b.byRight
      ensures r as int < |b.byLeft|
    {
      assert b.byLeft[b.byRight[r]] == r;
    }
  }

  /** Giving a new type the count as its id keeps the ids below the count. */
  lemma DenseUpdate(m: map<TypeKey, PacketId>, t: TypeKey, id: PacketId, m': map<TypeKey, PacketId>)
    requires t !in m && id as int == |m| && m' == m[t := id]
    requires forall u :: u in m ==> m[u] as int < |m|
    ensures |m'| == |m| + 1
    ensures forall u :: u in m' ==> m'[u] as int < |m'|
  {
  }

  /** Inserting a pair whose two values are both new just adds it. */
  lemma InsertNew<L, R>(b: BiMap<L, R>, l: L, r: R)
    requires Coherent(b) && l !in b.byLeft && r !in b.byRight
    ensures Insert(b, l, r) == BiMap(b.byLeft[l := r], b.byRight[r := l])
  {
    assert b.byLeft - {l} == b.byLeft;
    assert b.byRight - {r} == b.byRight;
  }

  /**
   * Round trip: what `encode` writes for a registered type, followed by any
   * bytes, decodes to a packet of that type with the same data.
   */
  lemma EncodeDecode(p: Protocol, t: TypeKey, data: seq<byte>, rest: seq<byte>)
    requires p.Valid() && t in p.packets.byLeft && |data| < U64_LIMIT
    ensures p.Encode(t, data).Ok?
    ensures p.Decode(p.Encode(t, data).value + rest) == Ok(Some(AnyPacket(t, data)))
    ensures p.Decode(p.Encode(t, data).value + rest).value.value.Is(t)
  {
    RawFrameRoundTrip(p.packets.byLeft[t], data, rest);
  }
  /**
   * Once the count cast `as u16` lands on an id already held (from 65536
   * types on), registering a new type silently evicts the holder of that id,
   * and the count does not grow.
   */
  lemma {:induction false} InsertWraps(b: BiMap<TypeKey, PacketId>, t: TypeKey)
    requires Coherent(b) && t !in b.byLeft && TruncateU16(|b.byLeft|) in b.byRight
    ensures var b' := Added(b, t);
      && b.byRight[TruncateU16(|b.byLeft|)] !in b'.byLeft
      && |b'.byLeft| == |b.byLeft|
  {
    var id := TruncateU16(|b.byLeft|);
    var owner := b.byRight[id];
    var b' := Insert(b, t, id);
    assert b'.byLeft == (b.byLeft - {owner})[t := id];
  }
}
