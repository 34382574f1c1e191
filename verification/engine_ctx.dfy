/**
 * The engine's network context (`Network<Client>` and `Network<Server>`):
 * polling connections into the received-packet table, dispatching received
 * packets to a handler, and sending packets to one or several connections.
 *
 * Handlers are not modelled as code: `On` returns the calls the handler
 * receives, in order, which is what the table determines.
 */
module EngineCtx {
  import opened Wrappers
  import opened Bytes
  import opened EngineProtocol
  import opened EngineConnection

  // ---------------------------------------------------------------------------
  // Dispatching received packets

  /** The calls made to a handler by `on`, and whether `on` returned or panicked. */
  datatype Dispatch<P, H> = Dispatch(calls: seq<(P, H)>, outcome: Outcome)

  /**
   * The calls `on` makes for one bucket: each entry is wrapped as a raw packet
   * (its size cast `as u16`) and decoded; the first body that does not decode
   * panics, after the handler has seen every earlier one.
   */
  function DecodeBucket<P, H>(id: PacketId, entries: seq<Entry<H>>, decode: seq<byte> -> Option<P>): (r: Dispatch<P, H>)
    ensures |r.calls| <= |entries|
    ensures forall i :: 0 <= i < |r.calls| ==>
      decode(entries[i].bytes).Some? && r.calls[i] == (decode(entries[i].bytes).value, entries[i].origin)
    ensures r.outcome.Done? <==> forall i :: 0 <= i < |entries| ==> decode(entries[i].bytes).Some?
    ensures r.outcome.Done? ==> |r.calls| == |entries|
    ensures r.outcome.Panicked? ==> |r.calls| < |entries| && decode(entries[|r.calls|].bytes).None?
  {
    if entries == [] then Dispatch([], Done)
    else
      var raw := RawPacket(id, TruncateU16(|entries[0].bytes|), entries[0].bytes);
      match decode(raw.bytes)
      case None => Dispatch([], Panicked(Panic("Could not deserialize packet")))
      case Some(p) =>
        var rest := DecodeBucket(id, entries[1..], decode);
        Dispatch([(p, entries[0].origin)] + rest.calls, rest.outcome)
  }

  /**
   * `Network::on` for packet type `t` on a network of side `side`: handling a
   * packet sent by one's own side panics, so does a type missing from the
   * protocol; with no bucket for the id nothing is called.
   */
  function On<P, H>(protocol: NetworkProtocol, received: Buckets<H>, side: Side, t: PacketType,
                    decode: seq<byte> -> Option<P>): (r: Dispatch<P, H>)
    ensures t.side == side || t !in protocol.packets ==> r == Dispatch([], r.outcome) && r.outcome.Panicked?
    ensures t.side != side && t in protocol.packets ==>
      r == DecodeBucket(protocol.packets[t], Bucket(received, protocol.packets[t] as nat), decode)
  {
    if t.side == side then Dispatch([], Panicked(Panic("Cannot handle packets from own network side!")))
    else match IdOf(protocol, t)
      case None => Dispatch([], Panicked(Panic("Tried to handle packet that isn't in the protocol!")))
      case Some(id) =>
        if |received| <= id as int then Dispatch([], Done)
        else DecodeBucket(id, received[id], decode)
  }

  // ---------------------------------------------------------------------------
  // Sending

  /**
   * What `emit` called on each packet in turn writes, and whether it panicked:
   * the first packet whose size field differs from its body length is still
   * written, then the write panics.
   */
  function EmitAll(ps: seq<RawPacket>): (r: (seq<byte>, Outcome))
    ensures r.1.Done? <==> forall i :: 0 <= i < |ps| ==> WellSized(ps[i])
    ensures r.1.Done? ==> r.0 == Frames(ps)
  {
    if ps == [] then ([], Done)
    else if !WellSized(ps[0]) then (Frame(ps[0]), Panicked(Panic("Emitting packet with wrong size!")))
    else
      var rest := EmitAll(ps[1..]);
      (Frame(ps[0]) + rest.0, rest.1)
  }

  /** The loop `for p in packets { c.emit(p) }` on one connection. */
  method EmitEach(conn: Socket, ps: seq<RawPacket>) returns (after: Socket, o: Outcome)
    ensures o.Done? <==> EmitAll(ps).1.Done?
    ensures after.stream == conn.stream && after.closed == conn.closed
    ensures o.Done? ==> after.output == conn.output + Frames(ps)
  {
    after := conn;
    var i: nat := 0;
    while i < |ps|
      invariant 0 <= i <= |ps|
      invariant forall j :: 0 <= j < i ==> WellSized(ps[j])
      invariant after == conn.(output := conn.output + Frames(ps[..i]))
    {
      var emitted := Emit(after, ps[i]);
      if emitted.1.Panicked? {
        return emitted.0, emitted.1;
      }
      EmittedStep(conn.output, ps, i);
      after := emitted.0;
      i := i + 1;
    }
    assert ps[..i] == ps;
    o := Done;
  }

  /** Emitting packet `i` after the first `i` extends the output to the frames of the first `i + 1`. */
  lemma EmittedStep(written: seq<byte>, ps: seq<RawPacket>, i: nat)
    requires i < |ps|
    ensures written + Frames(ps[..i]) + Frame(ps[i]) == written + Frames(ps[..i + 1])
  {
    FramesAppend(ps[..i], ps[i]);
    assert ps[..i + 1] == ps[..i] + [ps[i]];
  }

  lemma {:induction false} FramesAppend(ps: seq<RawPacket>, p: RawPacket)
    ensures Frames(ps + [p]) == Frames(ps) + Frame(p)
  {
    if ps == [] {
      assert [p][1..] == [];
    } else {
      assert (ps + [p])[1..] == ps[1..] + [p];
      FramesAppend(ps[1..], p);
    }
  }

  /** A registered packet type and bodies short enough for the `u16` size field. */
  predicate Sendable(protocol: NetworkProtocol, t: PacketType, bodies: seq<seq<byte>>) {
    t in protocol.packets && forall i :: 0 <= i < |bodies| ==> |bodies[i]| < 0x1_0000
  }

  /** The raw packets `RawPacket::new` makes of some bodies of a registered type. */
  function Built(protocol: NetworkProtocol, t: PacketType, bodies: seq<seq<byte>>): (r: seq<RawPacket>)
    requires t in protocol.packets || bodies == []
    ensures |r| == |bodies|
    ensures Sendable(protocol, t, bodies) ==> forall i :: 0 <= i < |r| ==> WellSized(r[i])
  {
    seq(|bodies|, i requires 0 <= i < |bodies| => NewRawPacket(protocol, t, bodies[i]).value)
  }

  /** `RawPacket::new` on each body; a type missing from the protocol panics. */
  method NewRawPackets(protocol: NetworkProtocol, t: PacketType, bodies: seq<seq<byte>>) returns (r: Result<seq<RawPacket>, Panic>)
    ensures r.Err? <==> bodies != [] && t !in protocol.packets
    ensures r.Ok? ==> |r.value| == |bodies|
    ensures r.Ok? ==> forall i :: 0 <= i < |bodies| ==> r.value[i] == NewRawPacket(protocol, t, bodies[i]).value
  {
    var packets: seq<RawPacket> := [];
    var i: nat := 0;
    while i < |bodies|
      invariant 0 <= i <= |bodies|
      invariant i > 0 ==> t in protocol.packets
      invariant |packets| == i
      invariant forall j :: 0 <= j < i ==> packets[j] == NewRawPacket(protocol, t, bodies[j]).value
    {
      var raw := NewRawPacket(protocol, t, bodies[i]);
      if raw.Err? {
        return Err(raw.error);
      }
      packets := packets + [raw.value];
      i := i + 1;
    }
    r := Ok(packets);
  }

  // ---------------------------------------------------------------------------
  // Client

  /** `Network<Client>`: at most one connection, to the server. */
  class ClientNetwork {
    const protocol: NetworkProtocol
    const received: ReceivedPackets<()>
    var connection: Option<Socket>

    constructor (protocol: NetworkProtocol)
      ensures this.protocol == protocol && connection == None
      ensures fresh(received) && received.inner == []
    {
      this.protocol := protocol;
      received := new ReceivedPackets();
      connection := None;
    }

    /** `set_connection`: replaces any current connection. */
    method SetConnection(conn: Socket)
      modifies this
      ensures connection == Some(conn)
    {
      connection := Some(conn);
    }

    /** `is_connected`. */
    predicate IsConnected()
      reads this
    {
      connection.Some?
    }

    /**
     * `poll`: the table is cleared; the packets the connection yields this
     * tick are pushed under the unit handle; a connection that should close is
     * dropped, any other one is kept with what is left of its stream.
     */
    method Poll()
      modifies this, received
      ensures old(connection).None? ==>
        connection.None? && received.inner == Cleared(old(received.inner))
      ensures old(connection).Some? ==>
        var before := old(connection).value;
        var poll := ProcessConnSpec(before.stream);
        && received.inner == PushedAll(Cleared(old(received.inner)), (), poll.packets)
        && (connection.None? <==> poll.state == ShouldClose)
        && (connection.Some? ==> connection.value == before.(stream := poll.after))
    {
      received.Clear();
      if connection.Some? {
        var packets, state, after := ProcessConn(connection.value);
        received.PushAll((), packets);
        if state == ShouldClose {
          connection := None;
        } else {
          connection := Some(after);
        }
      }
    }

    /** `send_raw`: every packet emitted on the connection, in order; without a connection nothing happens. */
    method SendRaw(packets: seq<RawPacket>) returns (o: Outcome)
      modifies this
      ensures connection.Some? <==> old(connection).Some?
      ensures connection.None? ==> o.Done?
      ensures connection.Some? ==> (o.Done? <==> EmitAll(packets).1.Done?)
      ensures connection.Some? ==>
        var before := old(connection).value;
        && connection.value.stream == before.stream
        && connection.value.closed == before.closed
        && (o.Done? ==> connection.value.output == before.output + Frames(packets))
    {
      if connection.None? {
        return Done;
      }
      var after;
      after, o := EmitEach(connection.value, packets);
      connection := Some(after);
    }

    /** `send`: builds each packet with `RawPacket::new` and sends them. */
    method Send(t: PacketType, bodies: seq<seq<byte>>) returns (o: Outcome)
      requires t.side == Client
      modifies this
      ensures t !in protocol.packets && bodies != [] ==> o.Panicked?
      ensures t in protocol.packets || bodies == [] ==>
        var ps := Built(protocol, t, bodies);
        && (connection.Some? <==> old(connection).Some?)
        && (connection.None? ==> o.Done?)
        && (connection.Some? ==> (o.Done? <==> EmitAll(ps).1.Done?))
        && (connection.Some? ==>
              && connection.value.stream == old(connection).value.stream
              && connection.value.closed == old(connection).value.closed
              && (o.Done? ==> connection.value.output == old(connection).value.output + Frames(ps)))
      ensures Sendable(protocol, t, bodies) && old(connection).Some? ==>
        && o.Done?
        && connection.Some?
        && connection.value.output == old(connection).value.output + Frames(Built(protocol, t, bodies))
    {
      var built := NewRawPackets(protocol, t, bodies);
      if built.Err? {
        return Panicked(built.error);
      }
      assert built.value == Built(protocol, t, bodies);
      o := SendRaw(built.value);
    }
  }

  /** What a client receives for packet type `t` right after a poll that read `packets`: exactly those of that type, in arrival order. */
  lemma ClientPollThenOn<P>(protocol: NetworkProtocol, before: Buckets<()>, packets: seq<RawPacket>, t: PacketType,
                            decode: seq<byte> -> Option<P>)
    requires t.side == Server && t in protocol.packets
    ensures On(protocol, PushedAll(Cleared(before), (), packets), Client, t, decode) ==
      DecodeBucket(protocol.packets[t], Matching((), packets, protocol.packets[t] as nat), decode)
  {
    var id := protocol.packets[t] as nat;
    PushedAllBucket(Cleared(before), (), packets, id);
    ClearedBucket(before, id);
    assert [] + Matching((), packets, id) == Matching((), packets, id);
  }

  /** `PacketQueue<Client>::submit`: every queued batch sent, in push order, and the queue emptied. */
  method SubmitClient(queue: PacketQueue<()>, network: ClientNetwork) returns (o: Outcome)
    modifies queue, network
    ensures queue.batches == []
    ensures network.connection.Some? <==> old(network.connection).Some?
    ensures network.connection.None? ==> o.Done?
    ensures network.connection.Some? ==>
      (o.Done? <==> forall i :: 0 <= i < |old(queue.batches)| ==> Emittable(old(queue.batches)[i]))
    ensures network.connection.Some? && o.Done? ==>
      network.connection.value.output ==
        old(network.connection).value.output + Frames(Flatten(old(queue.batches), |old(queue.batches)|))
  {
    var batches := queue.Take();
    var i: nat := 0;
    o := Done;
    while i < |batches|
      invariant 0 <= i <= |batches|
      invariant queue.batches == [] && o.Done?
      invariant network.connection.Some? <==> old(network.connection).Some?
      invariant network.connection.Some? ==> forall j :: 0 <= j < i ==> Emittable(batches[j])
      invariant network.connection.Some? ==>
        network.connection.value.output == old(network.connection).value.output + Frames(Flatten(batches, i))
    {
      ghost var before := network.connection;
      o := network.SendRaw(batches[i].packets);
      if o.Panicked? {
        assert !Emittable(batches[i]);
        return;
      }
      if network.connection.Some? {
        FlattenStep(batches, i);
        AppendAssoc(old(network.connection).value.output, Frames(Flatten(batches, i)), Frames(batches[i].packets));
        assert network.connection.value.output == before.value.output + Frames(batches[i].packets);
      }
      i := i + 1;
    }
  }

  /** A batch whose packets `emit` writes without panicking. */
  predicate Emittable<D>(b: Batch<D>) {
    EmitAll(b.packets).1.Done?
  }

  lemma AppendAssoc<T>(a: seq<T>, b: seq<T>, c: seq<T>)
    ensures a + b + c == a + (b + c)
  {
  }

  /** The packets of the first `n` batches, batch after batch. */
  function Flatten<D>(bs: seq<Batch<D>>, n: nat): seq<RawPacket>
    requires n <= |bs|
  {
    if n == 0 then [] else Flatten(bs, n - 1) + bs[n - 1].packets
  }

  /** Sending one more batch appends its frames after those of the earlier batches. */
  lemma FlattenStep<D>(bs: seq<Batch<D>>, i: nat)
    requires i < |bs|
    ensures Frames(Flatten(bs, i + 1)) == Frames(Flatten(bs, i)) + Frames(bs[i].packets)
  {
    FramesConcat(Flatten(bs, i), bs[i].packets);
  }

  lemma {:induction false} FramesConcat(ps: seq<RawPacket>, qs: seq<RawPacket>)
    ensures Frames(ps + qs) == Frames(ps) + Frames(qs)
  {
    if ps == [] {
      assert ps + qs == qs;
    } else {
      assert (ps + qs)[0] == ps[0];
      assert (ps + qs)[1..] == ps[1..] + qs;
      FramesConcat(ps[1..], qs);
    }
  }

  // ---------------------------------------------------------------------------
  // Server

  /**
   * A connection handle. The model hands out handles from a counter, so here
   * a handle is never reused once its connection is removed, and iterating
   * the connections in handle order is iterating them in the order they were
   * accepted. A `GenMap` reuses freed slots and iterates in slot order; the
   * model does not follow it there.
   */
  type Handle = nat

  /** The connections held plus the first `n` of `more` inserted one by one under the handles from `base` on. */
  function Inserted(m: map<Handle, Socket>, base: nat, more: seq<Socket>, n: nat): (r: map<Handle, Socket>)
    requires n <= |more|
  {
    if n == 0 then m else Inserted(m, base, more, n - 1)[base + n - 1 := more[n - 1]]
  }

  /** Accepting keeps every connection held and puts the `k`-th accepted one under handle `base + k`. */
  lemma {:induction false} InsertedAt(m: map<Handle, Socket>, base: nat, more: seq<Socket>, n: nat, h: Handle)
    requires n <= |more|
    requires forall g :: g in m ==> g < base
    ensures h in Inserted(m, base, more, n) <==> h in m || base <= h < base + n
    ensures h in m ==> Inserted(m, base, more, n)[h] == m[h]
    ensures base <= h < base + n ==> Inserted(m, base, more, n)[h] == more[h - base]
  {
    if n > 0 {
      InsertedAt(m, base, more, n - 1, h);
    }
  }

  /** What `process_conn` returns for each connection. */
  function PollsOf(m: map<Handle, Socket>): (r: map<Handle, Polled>)
    ensures r.Keys == m.Keys
    ensures forall h :: h in m ==> r[h] == ProcessConnSpec(m[h].stream)
  {
    map h | h in m :: ProcessConnSpec(m[h].stream)
  }

  /** The table after pushing the packets of every connection with a handle below `n`, in handle order. */
  function PushedUpTo(t: Buckets<Handle>, polls: map<Handle, Polled>, n: nat): Buckets<Handle> {
    if n == 0 then t
    else
      var before := PushedUpTo(t, polls, n - 1);
      if n - 1 in polls then PushedAll(before, n - 1, polls[n - 1].packets) else before
  }

  /** The entries the connections with a handle below `n` contribute to bucket `id`: connection after connection, each in arrival order. */
  function DeliveredUpTo(polls: map<Handle, Polled>, id: nat, n: nat): seq<Entry<Handle>> {
    if n == 0 then []
    else DeliveredUpTo(polls, id, n - 1) + (if n - 1 in polls then Matching<Handle>(n - 1, polls[n - 1].packets, id) else [])
  }

  /** After a server poll every bucket holds exactly the packets of its id, tagged with their connection. */
  lemma {:induction false} PushedUpToBucket(t: Buckets<Handle>, polls: map<Handle, Polled>, id: nat, n: nat)
    ensures Bucket(PushedUpTo(t, polls, n), id) == Bucket(t, id) + DeliveredUpTo(polls, id, n)
  {
    if n == 0 {
      assert Bucket(t, id) + [] == Bucket(t, id);
    } else {
      PushedUpToBucket(t, polls, id, n - 1);
      if n - 1 in polls {
        PushedUpToStep(t, polls, id, n - 1);
      } else {
        SkippedStep(t, polls, id, n - 1);
      }
    }
  }

  /** The connection under `h` has its packets pushed after those of every earlier handle. */
  lemma PushedUpToStep(t: Buckets<Handle>, polls: map<Handle, Polled>, id: nat, h: Handle)
    requires h in polls
    requires Bucket(PushedUpTo(t, polls, h), id) == Bucket(t, id) + DeliveredUpTo(polls, id, h)
    ensures Bucket(PushedUpTo(t, polls, h + 1), id) == Bucket(t, id) + DeliveredUpTo(polls, id, h + 1)
  {
    var ps := polls[h].packets;
    var more := Matching<Handle>(h, ps, id);
    PushedAllBucket(PushedUpTo(t, polls, h), h, ps, id);
    assert DeliveredUpTo(polls, id, h + 1) == DeliveredUpTo(polls, id, h) + more;
    assert Bucket(t, id) + DeliveredUpTo(polls, id, h) + more == Bucket(t, id) + (DeliveredUpTo(polls, id, h) + more);
  }

  /** A handle without a connection contributes nothing. */
  lemma SkippedStep(t: Buckets<Handle>, polls: map<Handle, Polled>, id: nat, h: Handle)
    requires h !in polls
    requires Bucket(PushedUpTo(t, polls, h), id) == Bucket(t, id) + DeliveredUpTo(polls, id, h)
    ensures Bucket(PushedUpTo(t, polls, h + 1), id) == Bucket(t, id) + DeliveredUpTo(polls, id, h + 1)
  {
    assert DeliveredUpTo(polls, id, h + 1) == DeliveredUpTo(polls, id, h) + [];
  }

  /** The handles below `n` whose poll said `ShouldClose`, in handle order. */
  function ClosingUpTo(polls: map<Handle, Polled>, n: nat): seq<Handle> {
    if n == 0 then []
    else ClosingUpTo(polls, n - 1) + (if n - 1 in polls && polls[n - 1].state == ShouldClose then [n - 1] else [])
  }

  /** One more handle: listed at the end when its poll said `ShouldClose`. */
  lemma ClosingStep(polls: map<Handle, Polled>, h: Handle)
    ensures h in polls && polls[h].state == ShouldClose ==> ClosingUpTo(polls, h + 1) == ClosingUpTo(polls, h) + [h]
    ensures !(h in polls && polls[h].state == ShouldClose) ==> ClosingUpTo(polls, h + 1) == ClosingUpTo(polls, h)
  {
  }

  /** A handle is listed for closing exactly when it is below `n` and its poll said `ShouldClose`. */
  lemma {:induction false} ClosingUpToHas(polls: map<Handle, Polled>, n: nat, h: Handle)
    ensures h in ClosingUpTo(polls, n) <==> h < n && h in polls && polls[h].state == ShouldClose
  {
    if n > 0 {
      ClosingUpToHas(polls, n - 1, h);
    }
  }

  /** The handles below `n` that have a connection, in increasing order. */
  function LiveUpTo(m: map<Handle, Socket>, n: nat): (r: seq<Handle>)
    ensures forall h :: h in r <==> h < n && h in m
    ensures forall i, j :: 0 <= i < j < |r| ==> r[i] < r[j]
  {
    if n == 0 then []
    else
      var before := LiveUpTo(m, n - 1);
      if n - 1 in m then
        assert forall i :: 0 <= i < |before| ==> before[i] in before;
        before + [n - 1]
      else before
  }

  /** A connection after `process_conn` returned `poll` for it. */
  function Advanced(s: Socket, poll: Polled): (r: Socket)
    ensures r.output == s.output && r.stream == poll.after
    ensures r.closed <==> s.closed || poll.state == ShouldClose
  {
    s.(stream := poll.after, closed := s.closed || poll.state == ShouldClose)
  }

  /** The connections once those with a handle below `n` have been processed, in handle order. */
  function AdvancedUpTo(m: map<Handle, Socket>, polls: map<Handle, Polled>, n: nat): (r: map<Handle, Socket>)
    requires polls.Keys == m.Keys
    ensures r.Keys == m.Keys
  {
    if n == 0 then m
    else
      var prev := AdvancedUpTo(m, polls, n - 1);
      if n - 1 in m then prev[n - 1 := Advanced(m[n - 1], polls[n - 1])] else prev
  }

  /** Processing handles below `n` advances exactly those connections, each by its own poll. */
  lemma {:induction false} AdvancedUpToAt(m: map<Handle, Socket>, polls: map<Handle, Polled>, n: nat, h: Handle)
    requires polls.Keys == m.Keys && h in m
    ensures h < n ==> AdvancedUpTo(m, polls, n)[h] == Advanced(m[h], polls[h])
    ensures n <= h ==> AdvancedUpTo(m, polls, n)[h] == m[h]
  {
    if n > 0 {
      AdvancedUpToAt(m, polls, n - 1, h);
    }
  }

  /**
   * The connections once `bytes` was written to each of the first `n`
   * destinations in turn; a destination without a connection is skipped
   * (the caller panics there).
   */
  function SentTo(m: map<Handle, Socket>, bytes: seq<byte>, dests: seq<Handle>, n: nat): (r: map<Handle, Socket>)
    requires n <= |dests|
    ensures r.Keys == m.Keys
  {
    if n == 0 then m
    else
      var prev := SentTo(m, bytes, dests, n - 1);
      var d := dests[n - 1];
      if d in prev then prev[d := prev[d].(output := prev[d].output + bytes)] else prev
  }

  /** One more destination: the bytes appended to its connection. */
  lemma SentToStep(m: map<Handle, Socket>, bytes: seq<byte>, dests: seq<Handle>, n: nat)
    requires n < |dests| && dests[n] in m
    ensures var prev := SentTo(m, bytes, dests, n);
      SentTo(m, bytes, dests, n + 1) == prev[dests[n] := prev[dests[n]].(output := prev[dests[n]].output + bytes)]
  {
  }

  /** The connections once every batch among the first `n` went to its destinations. */
  function SentBatches(m: map<Handle, Socket>, bs: seq<Batch<seq<Handle>>>, n: nat): (r: map<Handle, Socket>)
    requires n <= |bs|
    ensures r.Keys == m.Keys
  {
    if n == 0 then m
    else SentTo(SentBatches(m, bs, n - 1), Frames(bs[n - 1].packets), bs[n - 1].dests, |bs[n - 1].dests|)
  }

  /** Every destination has a connection. */
  predicate Connected(m: map<Handle, Socket>, dests: seq<Handle>) {
    forall i :: 0 <= i < |dests| ==> dests[i] in m
  }

  /** `n` copies of some bytes, one after another. */
  function Repeat(bs: seq<byte>, n: nat): seq<byte> {
    if n == 0 then [] else Repeat(bs, n - 1) + bs
  }

  /** How many of the first `n` destinations are `h`. */
  function Count(hs: seq<Handle>, n: nat, h: Handle): nat
    requires n <= |hs|
  {
    if n == 0 then 0 else Count(hs, n - 1, h) + (if hs[n - 1] == h then 1 else 0)
  }

  /** Writing to destinations in turn appends to each connection the bytes once per occurrence of its handle. */
  lemma {:induction false} SentToOutput(m: map<Handle, Socket>, bytes: seq<byte>, dests: seq<Handle>, n: nat, h: Handle)
    requires n <= |dests| && h in m
    ensures SentTo(m, bytes, dests, n)[h].output == m[h].output + Repeat(bytes, Count(dests, n, h))
  {
    if n > 0 {
      SentToOutput(m, bytes, dests, n - 1, h);
      if dests[n - 1] == h {
        assert m[h].output + Repeat(bytes, Count(dests, n - 1, h)) + bytes
            == m[h].output + (Repeat(bytes, Count(dests, n - 1, h)) + bytes);
      }
    }
  }

  /** Writing to connections neither reads from them nor shuts them down. */
  lemma {:induction false} SentToKeeps(m: map<Handle, Socket>, bytes: seq<byte>, dests: seq<Handle>, n: nat, h: Handle)
    requires n <= |dests| && h in m
    ensures SentTo(m, bytes, dests, n)[h].stream == m[h].stream
    ensures SentTo(m, bytes, dests, n)[h].closed == m[h].closed
  {
    if n > 0 {
      SentToKeeps(m, bytes, dests, n - 1, h);
    }
  }

  /** Writing nothing leaves every connection as it was. */
  lemma {:induction false} SentNothing(m: map<Handle, Socket>, dests: seq<Handle>, n: nat)
    requires n <= |dests|
    ensures SentTo(m, [], dests, n) == m
  {
    if n > 0 {
      SentNothing(m, dests, n - 1);
      var d := dests[n - 1];
      if d in m {
        assert m[d].(output := m[d].output + []) == m[d];
      }
    }
  }

  /** The bytes the first `n` server batches write to the connection under `h`. */
  function Sent(bs: seq<Batch<seq<Handle>>>, n: nat, h: Handle): seq<byte>
    requires n <= |bs|
  {
    if n == 0 then []
    else Sent(bs, n - 1, h) + Repeat(Frames(bs[n - 1].packets), Count(bs[n - 1].dests, |bs[n - 1].dests|, h))
  }

  /** After submitting batches, each connection has received every batch addressed to it, in push order. */
  lemma {:induction false} SentBatchesOutput(m: map<Handle, Socket>, bs: seq<Batch<seq<Handle>>>, n: nat, h: Handle)
    requires n <= |bs| && h in m
    ensures SentBatches(m, bs, n)[h].output == m[h].output + Sent(bs, n, h)
    ensures SentBatches(m, bs, n)[h].stream == m[h].stream
  {
    if n > 0 {
      SentBatchesOutput(m, bs, n - 1, h);
      var prev := SentBatches(m, bs, n - 1);
      var b := bs[n - 1];
      SentToOutput(prev, Frames(b.packets), b.dests, |b.dests|, h);
      SentToKeeps(prev, Frames(b.packets), b.dests, |b.dests|, h);
      assert m[h].output + Sent(bs, n - 1, h) + Repeat(Frames(b.packets), Count(b.dests, |b.dests|, h))
          == m[h].output + (Sent(bs, n - 1, h) + Repeat(Frames(b.packets), Count(b.dests, |b.dests|, h)));
    }
  }

  /** `Network<Server>`: connections accepted from providers, under handles never reused. */
  class ServerNetwork {
    const protocol: NetworkProtocol
    const received: ReceivedPackets<Handle>
    var conns: map<Handle, Socket>
    var nextHandle: nat

    /** Every live handle was handed out already. */
    ghost predicate Valid()
      reads this
    {
      forall h :: h in conns ==> h < nextHandle
    }

    constructor (protocol: NetworkProtocol)
      ensures Valid()
      ensures this.protocol == protocol && conns == map[] && nextHandle == 0
      ensures fresh(received) && received.inner == []
    {
      this.protocol := protocol;
      received := new ReceivedPackets();
      conns := map[];
      nextHandle := 0;
    }

    /**
     * The provider loop at the start of `poll`: each connection a provider
     * hands over is inserted under a new handle, in acceptance order.
     */
    method Accept(incoming: seq<Socket>)
      requires Valid()
      modifies this
      ensures Valid()
      ensures nextHandle == old(nextHandle) + |incoming|
      ensures conns == Inserted(old(conns), old(nextHandle), incoming, |incoming|)
    {
      var k: nat := 0;
      while k < |incoming|
        invariant 0 <= k <= |incoming|
        invariant Valid()
        invariant nextHandle == old(nextHandle) + k
        invariant conns == Inserted(old(conns), old(nextHandle), incoming, k)
      {
        conns := conns[nextHandle := incoming[k]];
        nextHandle := nextHandle + 1;
        k := k + 1;
      }
    }

    /** One pass of the loop in `poll`: `process_conn` on the connection under `h`, its packets pushed under `h`. */
    method ProcessOne(h: Handle) returns (state: ConnectionState)
      requires h in conns
      modifies this, received
      ensures nextHandle == old(nextHandle)
      ensures var poll := ProcessConnSpec(old(conns)[h].stream);
        && state == poll.state
        && received.inner == PushedAll(old(received.inner), h, poll.packets)
        && conns == old(conns)[h := Advanced(old(conns)[h], poll)]
    {
      var packets, after;
      packets, state, after := ProcessConn(conns[h]);
      received.PushAll(h, packets);
      conns := conns[h := after];
    }

    /**
     * The middle of `poll`: the table is cleared, then every connection is
     * processed in handle order and its packets pushed under its handle; the
     * handles that should close are returned.
     */
    method ProcessAll() returns (shouldClose: seq<Handle>)
      requires Valid()
      modifies this, received
      ensures nextHandle == old(nextHandle) && conns.Keys == old(conns).Keys
      ensures var polls := PollsOf(old(conns));
        && received.inner == PushedUpTo(Cleared(old(received.inner)), polls, nextHandle)
        && shouldClose == ClosingUpTo(polls, nextHandle)
        && conns == AdvancedUpTo(old(conns), polls, nextHandle)
    {
      ghost var polls: map<Handle, Polled> := PollsOf(conns);
      received.Clear();
      ghost var cleared: Buckets<Handle> := received.inner;
      shouldClose := [];
      var h: Handle := 0;
      while h < nextHandle
        invariant h <= nextHandle == old(nextHandle)
        invariant ProcessedUpTo(h, shouldClose, old(conns), polls, cleared)
      {
        shouldClose := ProcessNext(h, shouldClose, old(conns), polls, cleared);
        h := h + 1;
      }
    }

    /** The state of `poll`'s loop once every handle below `h` has been processed. */
    ghost predicate ProcessedUpTo(h: Handle, shouldClose: seq<Handle>, start: map<Handle, Socket>,
                                  polls: map<Handle, Polled>, cleared: Buckets<Handle>)
      reads this, received
    {
      && polls == PollsOf(start)
      && received.inner == PushedUpTo(cleared, polls, h)
      && shouldClose == ClosingUpTo(polls, h)
      && conns == AdvancedUpTo(start, polls, h)
    }

    /** The loop of `poll` over handle `h`: skipped when it has no connection. */
    method ProcessNext(h: Handle, shouldClose: seq<Handle>, ghost start: map<Handle, Socket>,
                       ghost polls: map<Handle, Polled>, ghost cleared: Buckets<Handle>) returns (closing: seq<Handle>)
      requires ProcessedUpTo(h, shouldClose, start, polls, cleared)
      modifies this, received
      ensures nextHandle == old(nextHandle)
      ensures ProcessedUpTo(h + 1, closing, start, polls, cleared)
    {
      closing := shouldClose;
      if h in conns {
        AdvancedUpToAt(start, polls, h, h);
        assert polls[h] == ProcessConnSpec(conns[h].stream);
        var state := ProcessOne(h);
        if state == ShouldClose {
          closing := closing + [h];
        }
      }
      ClosingStep(polls, h);
    }

    /** The removal loop at the end of `poll`. */
    method RemoveAll(shouldClose: seq<Handle>)
      requires Valid()
      modifies this
      ensures Valid()
      ensures nextHandle == old(nextHandle)
      ensures forall h :: h in conns <==> h in old(conns) && h !in shouldClose
      ensures forall h :: h in conns ==> conns[h] == old(conns)[h]
    {
      var i: nat := 0;
      while i < |shouldClose|
        invariant 0 <= i <= |shouldClose|
        invariant Valid()
        invariant nextHandle == old(nextHandle)
        invariant forall h :: h in conns <==> h in old(conns) && h !in shouldClose[..i]
        invariant forall h :: h in conns ==> conns[h] == old(conns)[h]
      {
        assert shouldClose[..i + 1] == shouldClose[..i] + [shouldClose[i]];
        conns := conns - {shouldClose[i]};
        i := i + 1;
      }
      assert shouldClose[..i] == shouldClose;
    }

    /**
     * `poll`: accepts what the providers hand over, processes every
     * connection, then removes exactly those that should close; the others
     * stay, with what is left of their streams.
     */
    method Poll(incoming: seq<Socket>)
      requires Valid()
      modifies this, received
      ensures Valid()
      ensures nextHandle == old(nextHandle) + |incoming|
      ensures var accepted := Inserted(old(conns), old(nextHandle), incoming, |incoming|);
        var polls := PollsOf(accepted);
        && received.inner == PushedUpTo(Cleared(old(received.inner)), polls, nextHandle)
        && (forall h :: h in conns <==> h in polls && polls[h].state.Valid?)
        && (forall h :: h in conns ==> conns[h] == accepted[h].(stream := polls[h].after))
    {
      Accept(incoming);
      ghost var accepted: map<Handle, Socket> := conns;
      ghost var polls: map<Handle, Polled> := PollsOf(accepted);
      var shouldClose := ProcessAll();
      ghost var processed: map<Handle, Socket> := conns;
      RemoveAll(shouldClose);
      forall h | h in conns
        ensures conns[h] == accepted[h].(stream := polls[h].after)
      {
        assert h in processed && h !in shouldClose && conns[h] == processed[h];
        ClosingUpToHas(polls, nextHandle, h);
        AdvancedUpToAt(accepted, polls, nextHandle, h);
      }
      forall h ensures h in conns <==> h in polls && polls[h].state.Valid? {
        ClosingUpToHas(polls, nextHandle, h);
      }
    }

    /** `all_connections`: every live handle, once each, in handle order. */
    function AllConnections(): (r: seq<Handle>)
      reads this
      ensures forall h :: h in r <==> h in conns && h < nextHandle
      ensures forall i, j :: 0 <= i < j < |r| ==> r[i] < r[j]
    {
      LiveUpTo(conns, nextHandle)
    }

    /**
     * `send_raw`: for each destination in turn, every packet emitted in
     * order. A destination without a connection panics (only when there is a
     * packet to send), and so does a packet whose size field is wrong.
     */
    method SendRaw(packets: seq<RawPacket>, dests: seq<Handle>) returns (o: Outcome)
      modifies this
      ensures nextHandle == old(nextHandle) && conns.Keys == old(conns).Keys
      ensures o.Panicked? <==> packets != [] && dests != [] && (!Connected(old(conns), dests) || !EmitAll(packets).1.Done?)
      ensures o.Done? ==> conns == SentTo(old(conns), Frames(packets), dests, |dests|)
    {
      if packets == [] {
        // Each destination gets an empty loop: not even its handle is looked up.
        assert Frames(packets) == [];
        SentNothing(conns, dests, |dests|);
        return Done;
      }
      var d: nat := 0;
      while d < |dests|
        invariant d <= |dests| && nextHandle == old(nextHandle)
        invariant SentUpTo(packets, dests, d, old(conns))
      {
        o := SendNext(packets, dests, d, old(conns));
        if o.Panicked? {
          return;
        }
        d := d + 1;
      }
      o := Done;
    }

    /** The state of `send_raw`'s loop once the first `d` destinations were served. */
    ghost predicate SentUpTo(packets: seq<RawPacket>, dests: seq<Handle>, d: nat, start: map<Handle, Socket>)
      reads this
    {
      && d <= |dests|
      && (forall i :: 0 <= i < d ==> dests[i] in start)
      && (d > 0 ==> EmitAll(packets).1.Done?)
      && conns == SentTo(start, Frames(packets), dests, d)
    }

    /**
     * One pass of `send_raw`'s outer loop, for destination `dests[d]`: its
     * handle unwrapped, then every packet emitted on it.
     */
    method SendNext(packets: seq<RawPacket>, dests: seq<Handle>, d: nat, ghost start: map<Handle, Socket>) returns (o: Outcome)
      requires d < |dests| && SentUpTo(packets, dests, d, start)
      modifies this
      ensures nextHandle == old(nextHandle) && conns.Keys == start.Keys
      ensures o.Panicked? <==> dests[d] !in start || !EmitAll(packets).1.Done?
      ensures o.Done? ==> SentUpTo(packets, dests, d + 1, start)
    {
      if dests[d] !in conns {
        return Panicked(Panic("called `Option::unwrap()` on a `None` value"));
      }
      SentToStep(start, Frames(packets), dests, d);
      var after;
      after, o := EmitEach(conns[dests[d]], packets);
      conns := conns[dests[d] := after];
    }

    /** `send`: builds each packet with `RawPacket::new`, then `send_raw`. */
    method Send(t: PacketType, bodies: seq<seq<byte>>, dests: seq<Handle>) returns (o: Outcome)
      requires t.side == Server
      modifies this
      ensures nextHandle == old(nextHandle) && conns.Keys == old(conns).Keys
      ensures t !in protocol.packets && bodies != [] ==> o.Panicked?
      ensures t in protocol.packets || bodies == [] ==>
        var ps := Built(protocol, t, bodies);
        && (o.Panicked? <==> bodies != [] && dests != [] && (!Connected(old(conns), dests) || !EmitAll(ps).1.Done?))
        && (o.Done? ==> conns == SentTo(old(conns), Frames(ps), dests, |dests|))
      ensures Sendable(protocol, t, bodies) && Connected(old(conns), dests) ==> o.Done?
      ensures Sendable(protocol, t, bodies) && o.Done? ==>
        conns == SentTo(old(conns), Frames(Built(protocol, t, bodies)), dests, |dests|)
    {
      var built := NewRawPackets(protocol, t, bodies);
      if built.Err? {
        return Panicked(built.error);
      }
      assert built.value == Built(protocol, t, bodies);
      o := SendRaw(built.value, dests);
    }
  }

  /** What a server receives for packet type `t` right after a poll: exactly the packets of that type, connection by connection in handle order. */
  lemma ServerPollThenOn<P>(protocol: NetworkProtocol, before: Buckets<Handle>, polls: map<Handle, Polled>, n: nat,
                            t: PacketType, decode: seq<byte> -> Option<P>)
    requires t.side == Client && t in protocol.packets
    ensures On(protocol, PushedUpTo(Cleared(before), polls, n), Server, t, decode) ==
      DecodeBucket(protocol.packets[t], DeliveredUpTo(polls, protocol.packets[t] as nat, n), decode)
  {
    var id := protocol.packets[t] as nat;
    PushedUpToBucket(Cleared(before), polls, id, n);
    ClearedBucket(before, id);
    assert [] + DeliveredUpTo(polls, id, n) == DeliveredUpTo(polls, id, n);
  }

  /** `PacketQueue<Server>::submit`: every queued batch sent to its destinations, in push order, and the queue emptied. */
  method SubmitServer(queue: PacketQueue<seq<Handle>>, network: ServerNetwork) returns (o: Outcome)
    modifies queue, network
    ensures queue.batches == []
    ensures network.nextHandle == old(network.nextHandle) && network.conns.Keys == old(network.conns).Keys
    ensures o.Panicked? <==>
      exists i :: 0 <= i < |old(queue.batches)| && Fails(old(queue.batches)[i], old(network.conns))
    ensures o.Done? ==> network.conns == SentBatches(old(network.conns), old(queue.batches), |old(queue.batches)|)
  {
    var batches := queue.Take();
    var i: nat := 0;
    o := Done;
    while i < |batches|
      invariant 0 <= i <= |batches|
      invariant queue.batches == [] && o.Done?
      invariant network.nextHandle == old(network.nextHandle) && network.conns.Keys == old(network.conns).Keys
      invariant forall j :: 0 <= j < i ==> !Fails(batches[j], old(network.conns))
      invariant network.conns == SentBatches(old(network.conns), batches, i)
    {
      o := network.SendRaw(batches[i].packets, batches[i].dests);
      if o.Panicked? {
        assert Fails(batches[i], old(network.conns));
        return;
      }
      i := i + 1;
    }
  }

  /**
   * A batch on which `send_raw` panics: it has packets and destinations, and
   * a destination has no connection or a packet's size field is wrong.
   */
  predicate Fails(b: Batch<seq<Handle>>, m: map<Handle, Socket>) {
    b.packets != [] && b.dests != [] && (!Connected(m, b.dests) || !Emittable(b))
  }
}
