/**
 * The engine's packet registry (`NetworkProtocol`): every packet type gets a
 * dense 16-bit id in registration order.
 */
module EngineProtocol {
  import opened Wrappers
  import opened Bytes

  /** The two network sides; each packet type is sent by exactly one of them. */
  datatype Side = Client | Server

  /** A packet type: the Rust type it stands for and the side that sends it. */
  datatype PacketType = PacketType(name: string, side: Side)

  type PacketId = u16

  /** Number of ids a `u16` can hold. */
  const ID_SPACE: nat := 0x1_0000

  /** `NetworkProtocol { packets: HashMap<TypeId, PacketId> }`. */
  datatype NetworkProtocol = NetworkProtocol(packets: map<PacketType, PacketId>)

  /** Ids are exactly 0 .. count-1, one per registered type. */
  ghost predicate Dense(p: NetworkProtocol) {
    && (forall t :: t in p.packets ==> p.packets[t] as int < |p.packets|)
    && (forall t, u :: t in p.packets && u in p.packets && t != u ==> p.packets[t] != p.packets[u])
  }

  /** `NetworkProtocol::new`. */
  function New(): (p: NetworkProtocol)
    ensures forall t :: IdOf(p, t) == None
    ensures Dense(p)
  {
    NetworkProtocol(map[])
  }

  /**
   * `with_packet`: a type already present trips the assertion; once 65536
   * types exist the count no longer converts to `u16`; otherwise the new type
   * gets the current count as its id.
   */
  function WithPacket(p: NetworkProtocol, t: PacketType): (r: Result<NetworkProtocol, Panic>)
    ensures t in p.packets ==> r.Err?
    ensures t !in p.packets && |p.packets| >= ID_SPACE ==> r.Err?
    ensures t !in p.packets && |p.packets| < ID_SPACE ==> r.Ok?
    ensures r.Ok? ==> IdOf(r.value, t) == Some(|p.packets| as u16)
    ensures r.Ok? ==> forall u :: u != t ==> IdOf(r.value, u) == IdOf(p, u)
    ensures r.Ok? ==> |r.value.packets| == |p.packets| + 1
    ensures r.Ok? && Dense(p) ==> Dense(r.value)
  {
    if t in p.packets then
      Err(Panic("Cannot register the same packet twice!"))
    else if |p.packets| >= ID_SPACE then
      Err(Panic("Could not create packet id from packet type id!"))
    else
      Ok(NetworkProtocol(p.packets[t := |p.packets| as u16]))
  }

  /** `id_of`: the id of a registered type, `None` for any other. */
  function IdOf(p: NetworkProtocol, t: PacketType): (r: Option<PacketId>)
    ensures r.Some? <==> t in p.packets
  {
    if t in p.packets then Some(p.packets[t]) else None
  }

  /** Registering a list of types, one `with_packet` after another, starting from `new`. */
  function Build(ts: seq<PacketType>): Result<NetworkProtocol, Panic>
    decreases |ts|
  {
    if ts == [] then Ok(New())
    else
      var p :- Build(ts[..|ts| - 1]);
      WithPacket(p, ts[|ts| - 1])
  }

  ghost predicate Distinct<T>(s: seq<T>) {
    forall i, j :: 0 <= i < j < |s| ==> s[i] != s[j]
  }

  /**
   * Registering distinct types, at most 65536 of them, succeeds and gives the
   * i-th type the id i; every other type stays unregistered.
   */
  lemma {:induction false} BuildAssignsIndices(ts: seq<PacketType>)
    requires Distinct(ts) && |ts| <= ID_SPACE
    ensures Build(ts).Ok?
    ensures Dense(Build(ts).value) && |Build(ts).value.packets| == |ts|
    ensures forall i :: 0 <= i < |ts| ==> IdOf(Build(ts).value, ts[i]) == Some(i as u16)
    ensures forall t :: t !in ts ==> IdOf(Build(ts).value, t) == None
  {
    if ts != [] {
      var init := ts[..|ts| - 1];
      BuildAssignsIndices(init);
      var p := Build(init).value;
      assert ts[|ts| - 1] !in init by {
        forall i | 0 <= i < |init|
          ensures init[i] != ts[|ts| - 1]
        {
          assert init[i] == ts[i];
        }
      }
      assert IdOf(p, ts[|ts| - 1]) == None;
      forall t | t !in ts
        ensures IdOf(Build(ts).value, t) == None
      {
        assert t !in init;
      }
      forall i | 0 <= i < |ts|
        ensures IdOf(Build(ts).value, ts[i]) == Some(i as u16)
      {
        if i < |ts| - 1 {
          assert init[i] == ts[i];
        }
      }
    }
  }

  /** Registering a type twice fails, wherever the second registration comes. */
  lemma {:induction false} BuildRejectsDuplicate(ts: seq<PacketType>, i: nat, j: nat)
    requires i < j < |ts| && ts[i] == ts[j]
    ensures Build(ts).Err?
  {
    var init := ts[..|ts| - 1];
    if j < |ts| - 1 {
      BuildRejectsDuplicate(init, i, j);
    } else if Build(init).Ok? {
      BuildKnowsRegistered(init, i);
    }
  }

  /** After a successful build every listed type is registered. */
  lemma {:induction false} BuildKnowsRegistered(ts: seq<PacketType>, i: nat)
    requires i < |ts| && Build(ts).Ok?
    ensures ts[i] in Build(ts).value.packets
  {
    var init := ts[..|ts| - 1];
    if i < |ts| - 1 {
      BuildKnowsRegistered(init, i);
    }
  }
}
