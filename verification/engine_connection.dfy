/**
 * The engine's connection layer: the `[id: u16 BE][size: u16 BE][body]`
 * framing read by `next_packet` and written by `emit`, the classification of
 * poll errors, the per-tick `process_conn` loop, the table of received packets
 * and the outgoing packet queue.
 *
 * A connection's socket is modelled as the bytes that have arrived and are not
 * yet read, followed by what a read reports once they are used up, plus the
 * bytes written to it so far.
 */
module EngineConnection {
  import opened Wrappers
  import opened Bytes
  import opened Io
  import opened EngineProtocol

  /** What a non-blocking socket reports once the bytes that have arrived are used up. */
  datatype StreamEnd =
    | Blocked                      // nothing more yet: `WouldBlock`
    | Failed(kind: IoErrorKind)    // an I/O error
    | Eof                          // the peer closed its side: `read` returns `Ok(0)`

  datatype Stream = Stream(input: seq<byte>, end: StreamEnd)

  /** `RawPacket { id, size, bytes }`. */
  datatype RawPacket = RawPacket(id: PacketId, size: u16, bytes: seq<byte>)

  /** A packet whose size field equals its body length, as `emit` demands. */
  predicate WellSized(p: RawPacket) {
    p.size as int == |p.bytes|
  }

  datatype PacketPollError = InvalidPacket | Io(kind: IoErrorKind)

  datatype ConnectionState = Valid | ShouldClose

  // ---------------------------------------------------------------------------
  // Reading

  /**
   * `Read::read` into a buffer of `n` bytes: up to `n` of the bytes that have
   * arrived, or, with none left, what the end of the stream reports.
   */
  function ReadStream(s: Stream, n: nat): (r: (Result<seq<byte>, IoErrorKind>, Stream))
    requires n > 0
    ensures Consumed(s, r.1)
    ensures r.0.Ok? ==> |r.0.value| <= n && s.input == r.0.value + r.1.input
    ensures r.0.Ok? && s.input != [] ==> |r.0.value| > 0
    ensures r.0.Ok? && r.0.value == [] ==> s.input == [] && s.end == Eof
    ensures r.0.Err? ==> r.1 == s && s.input == [] && !s.end.Eof?
  {
    if s.input != [] then
      var k := if n < |s.input| then n else |s.input|;
      (Ok(s.input[..k]), Stream(s.input[k..], s.end))
    else
      match s.end
      case Blocked => (Err(WouldBlock), s)
      case Failed(kind) => (Err(kind), s)
      case Eof => (Ok([]), s)
  }

  /** A zero-initialised buffer of `n` bytes after a read put `got` at its front. */
  function Filled(got: seq<byte>, n: nat): (b: seq<byte>)
    requires |got| <= n
    ensures |b| == n && b[..|got|] == got
    ensures forall i :: |got| <= i < n ==> b[i] == 0
  {
    got + seq(n - |got|, _ => 0)
  }

  /** `t` is what is left of `s` after some reads: no more bytes than before, the same end. */
  predicate Consumed(s: Stream, t: Stream) {
    t.end == s.end && |t.input| <= |s.input|
  }

  /**
   * One header read of `next_packet`: two bytes into a zeroed buffer, taken as
   * a big-endian `u16`. The number of bytes read is not checked, so a short
   * read leaves zeros. With `eofIsError` true a read that returns no bytes
   * reports `UnexpectedEof` instead.
   */
  function ReadField(s: Stream, eofIsError: bool): (r: (Result<u16, PacketPollError>, Stream))
    ensures Consumed(s, r.1)
    ensures eofIsError && r.0.Ok? ==> |r.1.input| < |s.input|
    ensures !eofIsError && s.input == [] && s.end == Eof ==> r == (Ok(0), s)
  {
    var (got, s1) := ReadStream(s, 2);
    if got.Err? then (Err(Io(got.error)), s1)
    else if eofIsError && got.value == [] then (Err(Io(UnexpectedEof)), s1)
    else
      var buf := Filled(got.value, 2);
      (Ok(U16FromBe(buf[0], buf[1])), s1)
  }

  /**
   * `Connection::next_packet`. With `eofIsError` false this is the code as
   * written, where a header read that returns no bytes at all (the peer has
   * closed the stream) leaves zeros, so the result is an empty packet with
   * id 0 and nothing is consumed. With `eofIsError` true such a header read
   * reports `UnexpectedEof` instead.
   */
  function NextPacketWith(s: Stream, eofIsError: bool): (r: (Result<RawPacket, PacketPollError>, Stream))
    ensures Consumed(s, r.1)
    ensures eofIsError && r.0.Ok? ==> |r.1.input| + 2 <= |s.input|
    ensures r.0.Ok? ==> WellSized(r.0.value)
  {
    var (id, s1) := ReadField(s, eofIsError);
    if id.Err? then (Err(id.error), s1)
    else
      var (size, s2) := ReadField(s1, eofIsError);
      if size.Err? then (Err(size.error), s2)
      else if size.value == 0 then (Ok(RawPacket(id.value, size.value, [])), s2)
      else
        var (body, s3) := ReadStream(s2, size.value as nat);
        if body.Err? then (Err(Io(body.error)), s3)
        else if |body.value| != size.value as int then (Err(InvalidPacket), s3)
        else (Ok(RawPacket(id.value, size.value, body.value)), s3)
  }

  /** `next_packet` as written. */
  function NextPacketAsWritten(s: Stream): (Result<RawPacket, PacketPollError>, Stream) {
    NextPacketWith(s, false)
  }

  /** `next_packet` with end of stream reported as `UnexpectedEof`; the rest of the model uses this one. */
  function NextPacketCorrected(s: Stream): (Result<RawPacket, PacketPollError>, Stream) {
    NextPacketWith(s, true)
  }

  /**
   * As written, a stream whose peer has closed and whose bytes are all read
   * yields an empty id-0 packet and stays as it was, so `process_conn`, which
   * reads until an error, never stops.
   */
  lemma ClosedStreamNeverFails(s: Stream)
    requires s.input == [] && s.end == Eof
    ensures NextPacketAsWritten(s) == (Ok(RawPacket(0, 0, [])), s)
  {
  }

  /** With the correction, a stream whose peer has closed ends the poll with `UnexpectedEof`. */
  lemma ClosedStreamReportsEof(s: Stream)
    requires s.input == [] && s.end == Eof
    ensures NextPacketCorrected(s) == (Err(Io(UnexpectedEof)), s)
  {
  }

  /**
   * The correction changes nothing on a stream whose peer has not closed:
   * there a read never returns zero bytes, so both readers take the same path.
   */
  lemma {:induction false} ReadersAgreeBeforeEof(s: Stream)
    requires !s.end.Eof?
    ensures NextPacketAsWritten(s) == NextPacketCorrected(s)
  {
    var (a, s1) := ReadField(s, false);
    var (b, t1) := ReadField(s, true);
    assert a == b && s1 == t1;
    if a.Ok? {
      assert ReadField(s1, false) == ReadField(s1, true);
    }
  }

  // ---------------------------------------------------------------------------
  // Writing

  /** The bytes `emit` writes for a packet: id (big-endian), size (big-endian), body. */
  function Frame(p: RawPacket): (b: seq<byte>)
    ensures |b| == 4 + |p.bytes|
  {
    U16ToBe(p.id) + U16ToBe(p.size) + p.bytes
  }

  function Frames(ps: seq<RawPacket>): seq<byte> {
    if ps == [] then [] else Frame(ps[0]) + Frames(ps[1..])
  }

  /**
   * `RawPacket::new` on an already serialised body: the id comes from the
   * protocol (unknown type: panic) and the size is the body length cast `as u16`.
   */
  function NewRawPacket(protocol: NetworkProtocol, t: PacketType, body: seq<byte>): (r: Result<RawPacket, Panic>)
    ensures r.Ok? <==> t in protocol.packets
    ensures r.Ok? ==> r.value.bytes == body && Some(r.value.id) == IdOf(protocol, t)
    ensures r.Ok? ==> (WellSized(r.value) <==> |body| < 0x1_0000)
  {
    match IdOf(protocol, t)
    case None => Err(Panic("Unknown packet, you need to define it in your NetworkProtocol!"))
    case Some(id) => Ok(RawPacket(id, TruncateU16(|body|), body))
  }

  /**
   * On a lossless stream, reading back what `emit` wrote gives the same id,
   * size and bytes and leaves whatever followed; this holds for the code as
   * written and for the corrected reader.
   */
  lemma {:induction false} FrameRoundTrip(p: RawPacket, rest: seq<byte>, end: StreamEnd, eofIsError: bool)
    requires WellSized(p)
    ensures NextPacketWith(Stream(Frame(p) + rest, end), eofIsError) == (Ok(p), Stream(rest, end))
  {
    var s := Stream(Frame(p) + rest, end);
    var s1 := Stream(U16ToBe(p.size) + (p.bytes + rest), end);
    var s2 := Stream(p.bytes + rest, end);
    assert s.input == U16ToBe(p.id) + s1.input;
    FieldRoundTrip(p.id, s1.input, end, eofIsError);
    FieldRoundTrip(p.size, s2.input, end, eofIsError);
    if p.size != 0 {
      assert ReadStream(s2, p.size as nat) == (Ok(p.bytes), Stream(rest, end));
    }
  }

  /**
   * A header announcing more bytes than have arrived, followed by a stream
   * that has ended, gives `InvalidPacket`: the body read returns fewer bytes
   * than `size`. The partial body is consumed.
   */
  lemma ShortBodyIsInvalid(id: u16, size: u16, body: seq<byte>, eofIsError: bool)
    requires 0 < |body| < size as int
    ensures NextPacketWith(Stream(U16ToBe(id) + U16ToBe(size) + body, Eof), eofIsError) == (Err(InvalidPacket), Stream([], Eof))
  {
    var s1 := Stream(U16ToBe(size) + body, Eof);
    var s2 := Stream(body, Eof);
    assert U16ToBe(id) + U16ToBe(size) + body == U16ToBe(id) + s1.input;
    FieldRoundTrip(id, s1.input, Eof, eofIsError);
    FieldRoundTrip(size, body, Eof, eofIsError);
    assert body[..|body|] == body && body[|body|..] == [];
    assert ReadStream(s2, size as nat) == (Ok(body), Stream([], Eof));
  }

  /** A header field written big-endian reads back as the same value. */
  lemma FieldRoundTrip(v: u16, rest: seq<byte>, end: StreamEnd, eofIsError: bool)
    ensures ReadField(Stream(U16ToBe(v) + rest, end), eofIsError) == (Ok(v), Stream(rest, end))
  {
    var s := Stream(U16ToBe(v) + rest, end);
    assert ReadStream(s, 2) == (Ok(U16ToBe(v)), Stream(rest, end));
    assert Filled(U16ToBe(v), 2) == U16ToBe(v);
    BeRoundTrip(v);
  }

  // ---------------------------------------------------------------------------
  // Classifying poll errors

  /** `ConnectionState::aggregate`: `ShouldClose` wins and then stays. */
  function Aggregate(current: ConnectionState, other: ConnectionState): (r: ConnectionState)
    ensures r == ShouldClose <==> current == ShouldClose || other == ShouldClose
  {
    if other == ShouldClose then other else current
  }

  /** The error kinds `process` treats as fatal for the connection. */
  predicate IsFatal(kind: IoErrorKind) {
    kind in {ConnectionAborted, ConnectionRefused, ConnectionReset, Interrupted, Unsupported}
  }

  /**
   * `PacketPollError::process`: `WouldBlock` keeps the connection, the fatal
   * kinds close it, and every other error (`InvalidPacket` included) is only
   * logged.
   */
  function Classify(e: PacketPollError): (r: ConnectionState)
    ensures r == ShouldClose <==> e.Io? && IsFatal(e.kind)
    ensures e == Io(WouldBlock) || e == InvalidPacket || e == Io(UnexpectedEof) ==> r == Valid
  {
    match e
    case Io(WouldBlock) => Valid
    case Io(kind) => if IsFatal(kind) then ShouldClose else Valid
    case InvalidPacket => Valid
  }

  /** What `process_conn` returns for one connection in one tick, and the stream it leaves. */
  datatype Polled = Polled(packets: seq<RawPacket>, state: ConnectionState, after: Stream)

  /** `process_conn`: read packets until the first error, which decides the state. */
  function ProcessConnSpec(s: Stream): (r: Polled)
    ensures r.after.end == s.end
    decreases |s.input|
  {
    var (res, s1) := NextPacketCorrected(s);
    match res
    case Err(e) => Polled([], Aggregate(Valid, Classify(e)), s1)
    case Ok(p) =>
      var rest := ProcessConnSpec(s1);
      Polled([p] + rest.packets, rest.state, rest.after)
  }

  /** One step of `process_conn` on a stream whose next read fails. */
  lemma ProcessConnStops(s: Stream, e: PacketPollError, s1: Stream)
    requires NextPacketCorrected(s) == (Err(e), s1)
    ensures ProcessConnSpec(s) == Polled([], Classify(e), s1)
  {
  }

  /** One step of `process_conn` on a stream that yields a packet. */
  lemma ProcessConnContinues(s: Stream, p: RawPacket, s1: Stream)
    requires NextPacketCorrected(s) == (Ok(p), s1)
    ensures ProcessConnSpec(s) ==
      Polled([p] + ProcessConnSpec(s1).packets, ProcessConnSpec(s1).state, ProcessConnSpec(s1).after)
  {
  }

  /** The packets read so far followed by what the rest of the stream yields, one packet further on. */
  lemma ProcessConnAdvances(read: seq<RawPacket>, s: Stream, p: RawPacket, s1: Stream)
    requires NextPacketCorrected(s) == (Ok(p), s1)
    ensures read + ProcessConnSpec(s).packets == (read + [p]) + ProcessConnSpec(s1).packets
    ensures ProcessConnSpec(s).state == ProcessConnSpec(s1).state
    ensures ProcessConnSpec(s).after == ProcessConnSpec(s1).after
  {
    ProcessConnContinues(s, p, s1);
    assert read + ([p] + ProcessConnSpec(s1).packets) == (read + [p]) + ProcessConnSpec(s1).packets;
  }

  /** Every packet `process_conn` returns has a size field equal to its body length. */
  lemma {:induction false} PolledWellSized(s: Stream)
    ensures forall i :: 0 <= i < |ProcessConnSpec(s).packets| ==> WellSized(ProcessConnSpec(s).packets[i])
    decreases |s.input|
  {
    var (res, s1) := NextPacketCorrected(s);
    if res.Ok? {
      PolledWellSized(s1);
    }
  }

  /** The error that ends reading a stream once every byte has been consumed. */
  function EndError(end: StreamEnd): PacketPollError {
    match end
    case Blocked => Io(WouldBlock)
    case Failed(kind) => Io(kind)
    case Eof => Io(UnexpectedEof)
  }

  /** Once every byte is consumed, the next read reports the end of the stream as the error. */
  lemma DrainedStreamStops(end: StreamEnd)
    ensures NextPacketCorrected(Stream([], end)) == (Err(EndError(end)), Stream([], end))
  {
  }

  /** A drained stream yields no packet and the state its end decides. */
  lemma ProcessDrained(end: StreamEnd)
    ensures ProcessConnSpec(Stream([], end)) == Polled([], Classify(EndError(end)), Stream([], end))
  {
    DrainedStreamStops(end);
    ProcessConnStops(Stream([], end), EndError(end), Stream([], end));
  }

  /** A stream starting with one frame yields its packet and then whatever the rest yields. */
  lemma ProcessFrameThen(p: RawPacket, rest: seq<byte>, end: StreamEnd)
    requires WellSized(p)
    ensures var tail := ProcessConnSpec(Stream(rest, end));
      ProcessConnSpec(Stream(Frame(p) + rest, end)) == Polled([p] + tail.packets, tail.state, tail.after)
  {
    FrameRoundTrip(p, rest, end, true);
    ProcessConnContinues(Stream(Frame(p) + rest, end), p, Stream(rest, end));
  }

  /**
   * A stream holding exactly the frames `emit` wrote for some packets yields
   * those packets, in order, and the state the end of the stream decides; a
   * stream that merely runs dry (`WouldBlock`) stays `Valid`.
   */
  lemma {:induction false} ProcessFramesRoundTrip(ps: seq<RawPacket>, end: StreamEnd)
    requires forall i :: 0 <= i < |ps| ==> WellSized(ps[i])
    ensures ProcessConnSpec(Stream(Frames(ps), end)) == Polled(ps, Classify(EndError(end)), Stream([], end))
    ensures end == Blocked ==> ProcessConnSpec(Stream(Frames(ps), end)).state == Valid
  {
    if ps == [] {
      ProcessDrained(end);
    } else {
      ProcessFramesRoundTrip(ps[1..], end);
      ProcessFramesCons(ps[0], ps[1..], end, Classify(EndError(end)));
      assert [ps[0]] + ps[1..] == ps;
    }
  }

  /** The frames of one more packet in front: that packet comes first, the rest is unchanged. */
  lemma ProcessFramesCons(p: RawPacket, ps: seq<RawPacket>, end: StreamEnd, state: ConnectionState)
    requires WellSized(p)
    requires ProcessConnSpec(Stream(Frames(ps), end)) == Polled(ps, state, Stream([], end))
    ensures ProcessConnSpec(Stream(Frames([p] + ps), end)) == Polled([p] + ps, state, Stream([], end))
  {
    assert ([p] + ps)[1..] == ps;
    assert Frames([p] + ps) == Frame(p) + Frames(ps);
    ProcessFrameThen(p, Frames(ps), end);
  }

  // ---------------------------------------------------------------------------
  // A connection

  /**
   * One peer-facing socket (`dyn Connection<S>` over a `TcpStream`): what is
   * left to read, every byte written so far, and whether it was shut down.
   * A connection is owned by the network that holds it, so it is a value
   * the network replaces when it reads from or writes to it.
   */
  datatype Socket = Socket(stream: Stream, output: seq<byte>, closed: bool)

  /** `emit`: id, size and body are written; a body write of another length than `size` panics. */
  function Emit(s: Socket, p: RawPacket): (r: (Socket, Outcome))
    ensures r.0 == s.(output := s.output + Frame(p))
    ensures r.1.Done? <==> WellSized(p)
  {
    var written := s.output + U16ToBe(p.id) + U16ToBe(p.size) + p.bytes;
    var after := s.(output := written);
    if |p.bytes| != p.size as int then (after, Panicked(Panic("Emitting packet with wrong size!")))
    else (after, Done)
  }

  /** `PacketPollError::process`: the verdict on an error, and the connection shut down on a fatal one. */
  function Process(e: PacketPollError, s: Socket): (r: (ConnectionState, Socket))
    ensures r.0 == Classify(e)
    ensures r.1 == s.(closed := s.closed || r.0 == ShouldClose)
  {
    var state := Classify(e);
    if state == ShouldClose then (state, s.(closed := true)) else (state, s)
  }

  /**
   * `process_conn`: reads packets until the first error; returns them in
   * order, that error's verdict and the connection as it is left.
   */
  method ProcessConn(conn: Socket) returns (packets: seq<RawPacket>, state: ConnectionState, after: Socket)
    ensures ProcessConnSpec(conn.stream) == Polled(packets, state, after.stream)
    ensures after.output == conn.output
    ensures after.closed == (conn.closed || state == ShouldClose)
  {
    var c := conn;
    packets := [];
    while true
      invariant c.output == conn.output && c.closed == conn.closed
      invariant ProcessConnSpec(conn.stream).packets == packets + ProcessConnSpec(c.stream).packets
      invariant ProcessConnSpec(conn.stream).state == ProcessConnSpec(c.stream).state
      invariant ProcessConnSpec(conn.stream).after == ProcessConnSpec(c.stream).after
      decreases |c.stream.input|
    {
      var (r, rest) := NextPacketCorrected(c.stream);
      if r.Err? {
        ProcessConnStops(c.stream, r.error, rest);
        var processed := Process(r.error, c.(stream := rest));
        state, after := Aggregate(Valid, processed.0), processed.1;
        assert packets + [] == packets;
        return;
      }
      ProcessConnAdvances(packets, c.stream, r.value, rest);
      packets := packets + [r.value];
      c := c.(stream := rest);
    }
  }

  // ---------------------------------------------------------------------------
  // Received packets

  /** One received packet body with the handle of the connection it came from. */
  datatype Entry<H> = Entry(origin: H, bytes: seq<byte>)

  type Buckets<H> = seq<seq<Entry<H>>>

  /** The bucket for an id, empty when the table has no bucket for it. */
  function Bucket<H>(t: Buckets<H>, id: nat): seq<Entry<H>> {
    if id < |t| then t[id] else []
  }

  /** `ReceivedPackets::push` on the table's value: grow to `id + 1` buckets if needed, then append to bucket `id`. */
  function Pushed<H>(t: Buckets<H>, h: H, p: RawPacket): (r: Buckets<H>)
    ensures |r| == if |t| <= p.id as int then p.id as int + 1 else |t|
  {
    var grown := if |t| <= p.id as int then t + seq(p.id as int + 1 - |t|, _ => []) else t;
    grown[p.id as int := grown[p.id as int] + [Entry(h, p.bytes)]]
  }

  /** Pushing a packet appends one entry to the bucket of its id and leaves every other bucket as it was. */
  lemma PushedBucket<H>(t: Buckets<H>, h: H, p: RawPacket, id: nat)
    ensures Bucket(Pushed(t, h, p), id) == Bucket(t, id) + (if id == p.id as int then [Entry(h, p.bytes)] else [])
  {
  }

  /** The table after `clear`: as many buckets, all empty. */
  function Cleared<H>(t: Buckets<H>): (r: Buckets<H>)
    ensures |r| == |t|
  {
    seq(|t|, _ => [])
  }

  /** After `clear` no bucket holds anything. */
  lemma ClearedBucket<H>(t: Buckets<H>, id: nat)
    ensures Bucket(Cleared(t), id) == []
  {
  }

  /** Pushing a list of packets from one origin, in order. */
  function PushedAll<H>(t: Buckets<H>, h: H, ps: seq<RawPacket>): Buckets<H>
    decreases |ps|
  {
    if ps == [] then t else PushedAll(Pushed(t, h, ps[0]), h, ps[1..])
  }

  /** The entries a list of packets from one origin contributes to bucket `id`, in order. */
  function Matching<H>(h: H, ps: seq<RawPacket>, id: nat): seq<Entry<H>> {
    if ps == [] then []
    else (if ps[0].id as int == id then [Entry(h, ps[0].bytes)] else []) + Matching(h, ps[1..], id)
  }

  /** After pushing, bucket `id` holds what it held plus exactly the packets with that id, in order. */
  lemma {:induction false} PushedAllBucket<H>(t: Buckets<H>, h: H, ps: seq<RawPacket>, id: nat)
    ensures Bucket(PushedAll(t, h, ps), id) == Bucket(t, id) + Matching(h, ps, id)
    decreases |ps|
  {
    if ps != [] {
      var t1 := Pushed(t, h, ps[0]);
      PushedAllBucket(t1, h, ps[1..], id);
      PushedBucket(t, h, ps[0], id);
    }
  }

  /** `ReceivedPackets`: per id, the packets received this tick with their origin. */
  class ReceivedPackets<H> {
    var inner: Buckets<H>

    constructor ()
      ensures inner == []
    {
      inner := [];
    }

    /** `push`: the table grows to at least `id + 1` buckets and only bucket `id` gains an entry. */
    method Push(h: H, p: RawPacket)
      modifies this
      ensures inner == Pushed(old(inner), h, p)
    {
      var minLen := p.id as int + 1;
      if |inner| < minLen {
        inner := inner + seq(minLen - |inner|, _ => []);
      }
      inner := inner[p.id as int := inner[p.id as int] + [Entry(h, p.bytes)]];
    }

    /** The loop pushing every packet a connection yielded this tick, in order, under its handle. */
    method PushAll(h: H, ps: seq<RawPacket>)
      modifies this
      ensures inner == PushedAll(old(inner), h, ps)
    {
      var i: nat := 0;
      while i < |ps|
        invariant 0 <= i <= |ps|
        invariant PushedAll(old(inner), h, ps) == PushedAll(inner, h, ps[i..])
      {
        Push(h, ps[i]);
        assert ps[i..][1..] == ps[i + 1..];
        i := i + 1;
      }
    }

    /** `clear`: every bucket emptied, the bucket count kept. */
    method Clear()
      modifies this
      ensures inner == Cleared(old(inner))
    {
      var i: nat := 0;
      while i < |inner|
        invariant 0 <= i <= |inner| == |old(inner)|
        invariant forall j :: 0 <= j < i ==> inner[j] == []
      {
        inner := inner[i := []];
        i := i + 1;
      }
      assert inner == Cleared(old(inner));
    }

    /** `bytes_with_id`: `None` exactly when the table has no bucket for the id. */
    function BytesWithId(id: PacketId): (r: Option<seq<Entry<H>>>)
      reads this
      ensures r.None? <==> |inner| <= id as int
      ensures r.Some? ==> r.value == Bucket(inner, id as nat)
    {
      if |inner| <= id as int then None else Some(inner[id])
    }
  }

  // ---------------------------------------------------------------------------
  // Outgoing queue

  /** One `push`: the packets and their destinations (the unit value on a client). */
  datatype Batch<D> = Batch(packets: seq<RawPacket>, dests: D)

  /** `PacketQueue<S>`: batches of outgoing packets, sent once per tick by `submit`. */
  class PacketQueue<D> {
    const protocol: NetworkProtocol
    /** The side that owns the queue; it may only push packets of its own side. */
    const side: Side
    var batches: seq<Batch<D>>

    constructor (protocol: NetworkProtocol, side: Side)
      ensures this.protocol == protocol && this.side == side && batches == []
    {
      this.protocol := protocol;
      this.side := side;
      batches := [];
    }

    /**
     * `push`: appends one batch of packets built with `RawPacket::new`; a
     * packet type missing from the protocol panics.
     */
    method Push(t: PacketType, bodies: seq<seq<byte>>, dests: D) returns (o: Outcome)
      requires t.side == side
      modifies this
      ensures o.Panicked? <==> bodies != [] && t !in protocol.packets
      ensures o.Done? ==> batches == old(batches) + [Batch(
        seq(|bodies|, i requires 0 <= i < |bodies| => NewRawPacket(protocol, t, bodies[i]).value), dests)]
    {
      var packets: seq<RawPacket> := [];
      var i: nat := 0;
      while i < |bodies|
        invariant 0 <= i <= |bodies|
        invariant i > 0 ==> t in protocol.packets
        invariant |packets| == i
        invariant forall j :: 0 <= j < i ==> packets[j] == NewRawPacket(protocol, t, bodies[j]).value
      {
        var raw := NewRawPacket(protocol, t, bodies[i]);
        if raw.Err? {
          return Panicked(raw.error);
        }
        packets := packets + [raw.value];
        i := i + 1;
      }
      assert packets == seq(|bodies|, i requires 0 <= i < |bodies| => NewRawPacket(protocol, t, bodies[i]).value);
      batches := batches + [Batch(packets, dests)];
      o := Done;
    }

    /** The `mem::replace` at the start of `submit`: hands over every batch, in push order, and leaves the queue empty. */
    method Take() returns (taken: seq<Batch<D>>)
      modifies this
      ensures taken == old(batches) && batches == []
    {
      taken := batches;
      batches := [];
    }
  }
}
