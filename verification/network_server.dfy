/**
 * The older server network (`NetworkServer`): three address-keyed tables of
 * clients that are connecting, accepted, and disconnected but not yet handed
 * back, and the accept, timeout and send rules over them.
 */
module NetworkServer {
  import opened Wrappers
  import opened Bytes
  import opened Io
  import opened CommonNetwork
  import opened CommonProto

  /** A `SocketAddr`. */
  datatype SocketAddr = SocketAddr(host: seq<byte>, port: u16)

  /** A `TcpStream`: which accepted socket it is, and the bytes written to it. */
  datatype TcpStream = TcpStream(id: nat, written: seq<byte>)

  /** `NetRemoteClient`; `lastPacket` is an instant in nanoseconds. */
  datatype RemoteClient = RemoteClient(username: string, lastPacket: int, entity: nat)

  /** What one `accept()` on the non-blocking listener returns. */
  datatype AcceptResult = Accepted(socket: TcpStream, addr: SocketAddr) | AcceptFailed(kind: IoErrorKind)

  /** The error of one `decode` on a socket: an I/O error, or bytes that do not decode. */
  datatype NetError = Io(kind: IoErrorKind) | Malformed

  /** What one `decode` on a socket returns. */
  type DecodeStep = Result<AnyPacket, NetError>

  /** The timeout of `NetworkServer::new`: five seconds, in nanoseconds. */
  const TIMEOUT: nat := 5_000_000_000

  /** The three tables, as one value. */
  datatype Tables = Tables(
    connecting: map<SocketAddr, TcpStream>,
    clients: map<SocketAddr, (TcpStream, RemoteClient)>,
    disconnected: map<SocketAddr, RemoteClient>)

  /** No address is both connecting and accepted. */
  ghost predicate Disjoint(t: Tables) {
    t.connecting.Keys !! t.clients.Keys
  }

  /**
   * `disconnect(addr)`: the address leaves the connecting table; an accepted
   * client moves its profile to the disconnected table.
   */
  function Disconnected(t: Tables, a: SocketAddr): (r: Tables)
    ensures Disjoint(t) ==> Disjoint(r)
    ensures a !in r.connecting && a !in r.clients
    ensures a in t.clients ==> a in r.disconnected && r.disconnected[a] == t.clients[a].1
    ensures a !in t.connecting && a !in t.clients ==> r == t
    ensures forall b :: b != a ==> (b in r.clients <==> b in t.clients)
  {
    Tables(t.connecting - {a}, t.clients - {a},
      if a in t.clients then t.disconnected[a := t.clients[a].1] else t.disconnected)
  }

  /**
   * `accept_connection(addr, profile)`: a connecting address becomes a client
   * with its socket and the profile; any other address changes nothing.
   */
  function Promoted(t: Tables, a: SocketAddr, profile: RemoteClient): (r: Tables)
    ensures Disjoint(t) ==> Disjoint(r)
    ensures a in t.connecting ==> a !in r.connecting && a in r.clients && r.clients[a] == (t.connecting[a], profile)
    ensures a !in t.connecting ==> r == t
  {
    if a in t.connecting then
      Tables(t.connecting - {a}, t.clients[a := (t.connecting[a], profile)], t.disconnected)
    else t
  }

  /** One accepted socket: a known client is disconnected instead of connecting again. */
  function AcceptOne(t: Tables, socket: TcpStream, a: SocketAddr): (r: Tables)
    ensures Disjoint(t) ==> Disjoint(r)
    ensures r.clients.Keys <= t.clients.Keys
  {
    if a !in t.clients then t.(connecting := t.connecting[a := socket])
    else Disconnected(t, a)
  }

  /**
   * `listen_for_connections`: every result up to the first `WouldBlock` is
   * handled in order; other errors are skipped; the listener has nothing
   * more once the results run out.
   */
  function Listened(t: Tables, results: seq<AcceptResult>): (r: Tables)
    ensures Disjoint(t) ==> Disjoint(r)
    ensures r.clients.Keys <= t.clients.Keys
    decreases |results|
  {
    if results == [] then t
    else match results[0]
      case AcceptFailed(WouldBlock) => t
      case AcceptFailed(_) => Listened(t, results[1..])
      case Accepted(socket, a) => Listened(AcceptOne(t, socket, a), results[1..])
  }

  /** The results the accept loop handles: those before the first `WouldBlock`. */
  function Handled(results: seq<AcceptResult>): (r: seq<AcceptResult>)
    ensures |r| <= |results| && r == results[..|r|]
    ensures forall i :: 0 <= i < |r| ==> r[i] != AcceptFailed(WouldBlock)
    decreases |results|
  {
    if results == [] || results[0] == AcceptFailed(WouldBlock) then []
    else [results[0]] + Handled(results[1..])
  }

  /**
   * A new address that the accept loop reaches ends up connecting, and an
   * address that was already a client ends up disconnected.
   */
  lemma {:induction false} ListenedFate(t: Tables, results: seq<AcceptResult>, i: nat)
    requires i < |Handled(results)| && results[i].Accepted?
    ensures results[i].addr !in t.clients ==> results[i].addr in Listened(t, results).connecting
    ensures results[i].addr in t.clients ==>
      results[i].addr !in Listened(t, results).clients && results[i].addr in Listened(t, results).disconnected
    decreases |results|
  {
    var a := results[i].addr;
    var next := match results[0]
      case Accepted(socket, b) => AcceptOne(t, socket, b)
      case _ => t;
    if i == 0 {
      ListenedKeeps(next, results[1..], a);
    } else {
      ListenedFate(next, results[1..], i - 1);
      if a in t.clients && a !in next.clients {
        ListenedKeeps(next, results[1..], a);
      }
    }
  }

  /**
   * Once an address is connecting, or disconnected and no longer a client,
   * later accept results never undo it.
   */
  lemma {:induction false} ListenedKeeps(t: Tables, results: seq<AcceptResult>, a: SocketAddr)
    ensures a in t.connecting && a !in t.clients ==> a in Listened(t, results).connecting
    ensures a in t.disconnected && a !in t.clients ==>
      a in Listened(t, results).disconnected && a !in Listened(t, results).clients
    decreases |results|
  {
    if results != [] && results[0] != AcceptFailed(WouldBlock) {
      var next := match results[0]
        case Accepted(socket, b) => AcceptOne(t, socket, b)
        case _ => t;
      ListenedKeeps(next, results[1..], a);
    }
  }

  /** A tick's `decode` results on one socket, until `WouldBlock`, collected into a `Result`. */
  function Collect(steps: seq<DecodeStep>): (r: Result<seq<AnyPacket>, NetError>)
    ensures r.Err? ==> r.error != Io(WouldBlock) && r.error in Errors(steps)
    ensures r.Ok? ==> |r.value| <= |steps| && forall i :: 0 <= i < |r.value| ==> steps[i] == Ok(r.value[i])
    decreases |steps|
  {
    if steps == [] then Ok([])
    else match steps[0]
      case Err(Io(WouldBlock)) => Ok([])
      case Err(e) => Err(e)
      case Ok(p) =>
        var rest :- Collect(steps[1..]);
        Ok([p] + rest)
  }

  /** The errors among the steps. */
  function Errors(steps: seq<DecodeStep>): set<NetError> {
    set i | 0 <= i < |steps| && steps[i].Err? :: steps[i].error
  }

  /** The I/O errors on which `handle_packets` drops a client. */
  predicate Fatal(e: NetError) {
    e.Io? && e.kind in {ConnectionAborted, ConnectionReset, ConnectionRefused, UnexpectedEof}
  }

  /** What `decode` returns on an address's socket this tick; an address with nothing would block. */
  function StepsOf(inbox: map<SocketAddr, seq<DecodeStep>>, a: SocketAddr): seq<DecodeStep> {
    if a in inbox then inbox[a] else []
  }

  /** The tables after the first `n` addresses of `order` were handled. */
  function HandledUpTo(t: Tables, order: seq<SocketAddr>, inbox: map<SocketAddr, seq<DecodeStep>>, n: nat): (r: Tables)
    requires n <= |order|
    ensures Disjoint(t) ==> Disjoint(r)
  {
    if n == 0 then t
    else
      var prev := HandledUpTo(t, order, inbox, n - 1);
      var c := Collect(StepsOf(inbox, order[n - 1]));
      if c.Err? && Fatal(c.error) then Disconnected(prev, order[n - 1]) else prev
  }

  /** The handler calls for the first `n` addresses of `order`, in order. */
  function DeliveredUpTo(order: seq<SocketAddr>, inbox: map<SocketAddr, seq<DecodeStep>>, n: nat): seq<(SocketAddr, AnyPacket)>
    requires n <= |order|
  {
    if n == 0 then []
    else
      var c := Collect(StepsOf(inbox, order[n - 1]));
      DeliveredUpTo(order, inbox, n - 1) + (if c.Ok? then Tag(order[n - 1], c.value) else [])
  }

  /** Each packet paired with the address it came from. */
  function Tag(a: SocketAddr, ps: seq<AnyPacket>): (r: seq<(SocketAddr, AnyPacket)>)
    ensures |r| == |ps| && forall i :: 0 <= i < |r| ==> r[i] == (a, ps[i])
  {
    if ps == [] then [] else [(a, ps[0])] + Tag(a, ps[1..])
  }

  ghost predicate Distinct<T>(s: seq<T>) {
    forall i, j :: 0 <= i < j < |s| ==> s[i] != s[j]
  }

  /** `s` lists every element of `keys` once. */
  ghost predicate Enumerates<T>(s: seq<T>, keys: set<T>) {
    Distinct(s) && (forall i :: 0 <= i < |s| ==> s[i] in keys) && (forall k :: k in keys ==> k in s)
  }

  /**
   * Over distinct addresses, `handle_packets` drops exactly the clients whose
   * socket failed with a fatal error; every other client stays.
   */
  lemma {:induction false} HandledClients(t: Tables, order: seq<SocketAddr>, inbox: map<SocketAddr, seq<DecodeStep>>, n: nat, a: SocketAddr)
    requires n <= |order| && Distinct(order)
    ensures a in HandledUpTo(t, order, inbox, n).clients <==>
      a in t.clients && !(a in order[..n] && Collect(StepsOf(inbox, a)).Err? && Fatal(Collect(StepsOf(inbox, a)).error))
  {
    if n > 0 {
      HandledClients(t, order, inbox, n - 1, a);
      assert order[..n] == order[..n - 1] + [order[n - 1]];
      if a == order[n - 1] {
        assert a !in order[..n - 1];
      }
    }
  }

  /** Enumerating a set into a sequence, in some order, as a `HashMap` iterator does. */
  method KeysInSomeOrder<T>(keys: set<T>) returns (s: seq<T>)
    ensures Enumerates(s, keys)
  {
    s := [];
    var left := keys;
    while left != {}
      invariant left !! (set i | 0 <= i < |s| :: s[i])
      invariant Distinct(s)
      invariant forall k :: k in keys ==> k in left || k in s
      invariant forall i :: 0 <= i < |s| ==> s[i] in keys
      invariant left <= keys
      decreases |left|
    {
      var k :| k in left;
      s := s + [k];
      left := left - {k};
    }
  }

  /** The clients after `data` was written to each of the first `n` addresses. */
  function SentData(m: map<SocketAddr, (TcpStream, RemoteClient)>, addrs: seq<SocketAddr>, data: seq<byte>, n: nat): (r: map<SocketAddr, (TcpStream, RemoteClient)>)
    requires n <= |addrs| && forall i :: 0 <= i < n ==> addrs[i] in m
    ensures r.Keys == m.Keys
  {
    if n == 0 then m
    else
      var prev := SentData(m, addrs, data, n - 1);
      var a := addrs[n - 1];
      prev[a := (TcpStream(prev[a].0.id, prev[a].0.written + data), prev[a].1)]
  }

  /**
   * Sending to distinct addresses writes `data` once to each listed client
   * and leaves every other client, and every profile, unchanged.
   */
  lemma {:induction false} SentDataAt(m: map<SocketAddr, (TcpStream, RemoteClient)>, addrs: seq<SocketAddr>, data: seq<byte>, n: nat, a: SocketAddr)
    requires n <= |addrs| && (forall i :: 0 <= i < n ==> addrs[i] in m) && Distinct(addrs) && a in m
    ensures var r := SentData(m, addrs, data, n)[a];
      && r.1 == m[a].1 && r.0.id == m[a].0.id
      && r.0.written == m[a].0.written + (if a in addrs[..n] then data else [])
  {
    if n > 0 {
      SentDataAt(m, addrs, data, n - 1, a);
      assert addrs[..n] == addrs[..n - 1] + [addrs[n - 1]];
      if a == addrs[n - 1] {
        assert a !in addrs[..n - 1];
      }
    }
  }

  /** Each client of `m` whose address satisfies `keep` gets `data` written once. */
  function WrittenTo(m: map<SocketAddr, (TcpStream, RemoteClient)>, targets: set<SocketAddr>, data: seq<byte>): (r: map<SocketAddr, (TcpStream, RemoteClient)>)
    ensures r.Keys == m.Keys
  {
    map a | a in m :: if a in targets then (TcpStream(m[a].0.id, m[a].0.written + data), m[a].1) else m[a]
  }

  /** Sending to an enumeration of some clients is the same as writing to each of them once. */
  lemma SentDataAll(m: map<SocketAddr, (TcpStream, RemoteClient)>, addrs: seq<SocketAddr>, targets: set<SocketAddr>, data: seq<byte>)
    requires Enumerates(addrs, targets) && targets <= m.Keys
    ensures SentData(m, addrs, data, |addrs|) == WrittenTo(m, targets, data)
  {
    var r := SentData(m, addrs, data, |addrs|);
    forall a | a in m
      ensures r[a] == WrittenTo(m, targets, data)[a]
    {
      SentDataAt(m, addrs, data, |addrs|, a);
      assert addrs[..|addrs|] == addrs;
      var written := m[a].0.written + data;
      if a in targets {
        assert a in addrs;
        assert r[a].0 == TcpStream(m[a].0.id, written);
        assert WrittenTo(m, targets, data)[a] == (TcpStream(m[a].0.id, written), m[a].1);
      } else {
        assert a !in addrs by {
          forall i | 0 <= i < |addrs|
            ensures addrs[i] != a
          {
            assert addrs[i] in targets;
          }
        }
        assert r[a].0 == m[a].0;
        assert WrittenTo(m, targets, data)[a] == m[a];
      }
    }
  }

  /** `NetworkServer` (the listener itself is the accept results handed to `ListenForConnections`). */
  class Server {
    const protocol: Protocol
    const timeout: nat
    var connecting: map<SocketAddr, TcpStream>
    var clients: map<SocketAddr, (TcpStream, RemoteClient)>
    var disconnected: map<SocketAddr, RemoteClient>

    function State(): Tables
      reads this
    {
      Tables(connecting, clients, disconnected)
    }

    ghost predicate Valid()
      reads this, protocol
    {
      protocol.Valid() && Disjoint(State())
    }

    /** `NetworkServer::new`: the login protocol, a five-second timeout, empty tables. */
    constructor New()
      ensures Valid() && fresh(protocol)
      ensures timeout == TIMEOUT
      ensures connecting == map[] && clients == map[] && disconnected == map[]
      ensures protocol.packets.byLeft.Keys == {LoginStart, LoginSuccess}
    {
      var p, _ := NetworkProtocol();
      protocol := p;
      timeout := TIMEOUT;
      connecting := map[];
      clients := map[];
      disconnected := map[];
    }

    method Disconnect(a: SocketAddr)
      modifies this
      ensures State() == Disconnected(old(State()), a)
    {
      connecting := connecting - {a};
      if a in clients {
        disconnected := disconnected[a := clients[a].1];
        clients := clients - {a};
      }
    }

    method ListenForConnections(results: seq<AcceptResult>)
      modifies this
      ensures State() == Listened(old(State()), results)
    {
      var i := 0;
      while i < |results|
        invariant i <= |results|
        invariant Listened(old(State()), results) == Listened(State(), results[i..])
      {
        match results[i] {
          case AcceptFailed(kind) =>
            if kind == WouldBlock {
              return;
            }
          case Accepted(socket, a) =>
            if a !in clients {
              connecting := connecting[a := socket];
            } else {
              Disconnect(a);
            }
        }
        assert results[i..][1..] == results[i + 1..];
        i := i + 1;
      }
    }

    /**
     * `handle_packets`: `order` is the iteration order of the connecting
     * addresses followed by the clients; `inbox` is what `decode` returns on
     * each socket this tick. The handler calls are returned in order.
     */
    method HandlePackets(order: seq<SocketAddr>, inbox: map<SocketAddr, seq<DecodeStep>>)
      returns (delivered: seq<(SocketAddr, AnyPacket)>)
      requires Disjoint(State())
      requires Enumerates(order, connecting.Keys + clients.Keys)
      modifies this
      ensures State() == HandledUpTo(old(State()), order, inbox, |order|)
      ensures delivered == DeliveredUpTo(order, inbox, |order|)
    {
      delivered := [];
      var i := 0;
      while i < |order|
        invariant i <= |order|
        invariant State() == HandledUpTo(old(State()), order, inbox, i)
        invariant delivered == DeliveredUpTo(order, inbox, i)
      {
        var a := order[i];
        var c := Collect(StepsOf(inbox, a));
        match c {
          case Err(e) =>
            if Fatal(e) {
              Disconnect(a);
            }
          case Ok(packets) =>
            delivered := delivered + Tag(a, packets);
        }
        i := i + 1;
      }
    }

    /**
     * `handle_disconnections` at instant `now`: every client silent for more
     * than the timeout is disconnected, then every disconnected client is
     * handed back once and the table is emptied.
     */
    method HandleDisconnections(now: int) returns (handed: map<SocketAddr, RemoteClient>)
      requires Disjoint(State())
      modifies this
      ensures Disjoint(State())
      ensures clients == Unexpired(old(clients), now, timeout)
      ensures connecting == old(connecting)
      ensures handed == old(disconnected) + ExpiredProfiles(old(clients), now, timeout)
      ensures disconnected == map[]
    {
      DisconnectExpired(now);
      handed := disconnected;
      disconnected := map[];
    }

    /** The timeout loop of `handle_disconnections`, over a snapshot of the clients. */
    method DisconnectExpired(now: int)
      requires Disjoint(State())
      modifies this
      ensures clients == Unexpired(old(clients), now, timeout)
      ensures connecting == old(connecting)
      ensures disconnected == old(disconnected) + ExpiredProfiles(old(clients), now, timeout)
    {
      var before := clients;
      var snapshot := KeysInSomeOrder(clients.Keys);
      var i := 0;
      while i < |snapshot|
        invariant i <= |snapshot|
        invariant before == old(clients)
        invariant State() == ExpiredUpTo(old(State()), snapshot, now, timeout, i)
      {
        var a := snapshot[i];
        if now - before[a].1.lastPacket > timeout {
          Disconnect(a);
        }
        i := i + 1;
      }
      ExpiredAll(old(State()), snapshot, now, timeout);
    }

    function IsConnecting(a: SocketAddr): (r: bool)
      reads this
      ensures r <==> a in connecting
    {
      a in connecting
    }

    method AcceptConnection(a: SocketAddr, profile: RemoteClient)
      modifies this
      ensures State() == Promoted(old(State()), a, profile)
    {
      if a in connecting {
        clients := clients[a := (connecting[a], profile)];
        connecting := connecting - {a};
      }
    }

    /**
     * `send_data_to`: writes `data` to each address in turn; the first
     * address that is not a client panics, after the earlier ones were written.
     */
    method SendDataTo(addrs: seq<SocketAddr>, data: seq<byte>) returns (o: Outcome)
      modifies this
      ensures connecting == old(connecting) && disconnected == old(disconnected)
      ensures o.Panicked? <==> exists i :: 0 <= i < |addrs| && addrs[i] !in old(clients)
      ensures o.Done? ==> clients == SentData(old(clients), addrs, data, |addrs|)
    {
      var i := 0;
      while i < |addrs|
        invariant i <= |addrs|
        invariant forall j :: 0 <= j < i ==> addrs[j] in old(clients)
        invariant connecting == old(connecting) && disconnected == old(disconnected)
        invariant clients == SentData(old(clients), addrs, data, i)
      {
        var a := addrs[i];
        if a !in clients {
          return Panicked(Panic("called `Option::unwrap()` on a `None` value"));
        }
        clients := clients[a := (TcpStream(clients[a].0.id, clients[a].0.written + data), clients[a].1)];
        i := i + 1;
      }
      o := Done;
    }

    /** `send_to(addrs, packet)`: `packet` is the packet's serialisation; it is encoded once. */
    method SendTo(addrs: seq<SocketAddr>, t: TypeKey, packet: seq<byte>) returns (o: Outcome)
      requires |packet| < U64_LIMIT
      modifies this
      ensures connecting == old(connecting) && disconnected == old(disconnected)
      ensures t !in protocol.packets.byLeft ==> o.Panicked? && clients == old(clients)
      ensures t in protocol.packets.byLeft ==>
        && (o.Panicked? <==> exists i :: 0 <= i < |addrs| && addrs[i] !in old(clients))
        && (o.Done? ==> clients == SentData(old(clients), addrs, protocol.Encode(t, packet).value, |addrs|))
    {
      var data := protocol.Encode(t, packet);
      if data.Err? {
        return Panicked(data.error);
      }
      o := SendDataTo(addrs, data.value);
    }

    /** `broadcast(packet)`: encoded once, written once to every client. */
    method Broadcast(t: TypeKey, packet: seq<byte>) returns (o: Outcome)
      requires |packet| < U64_LIMIT
      modifies this
      ensures connecting == old(connecting) && disconnected == old(disconnected)
      ensures o.Done? <==> t in protocol.packets.byLeft
      ensures o.Panicked? ==> clients == old(clients)
      ensures o.Done? ==> clients == WrittenTo(old(clients), old(clients).Keys, protocol.Encode(t, packet).value)
    {
      var data := protocol.Encode(t, packet);
      if data.Err? {
        return Panicked(data.error);
      }
      var addrs := KeysInSomeOrder(clients.Keys);
      SentDataAll(clients, addrs, clients.Keys, data.value);
      o := SendDataTo(addrs, data.value);
    }

    /** `broadcast_except(except, packet)`: as `broadcast`, skipping one address. */
    method BroadcastExcept(except: SocketAddr, t: TypeKey, packet: seq<byte>) returns (o: Outcome)
      requires |packet| < U64_LIMIT
      modifies this
      ensures connecting == old(connecting) && disconnected == old(disconnected)
      ensures o.Done? <==> t in protocol.packets.byLeft
      ensures o.Panicked? ==> clients == old(clients)
      ensures o.Done? ==>
        clients == WrittenTo(old(clients), old(clients).Keys - {except}, protocol.Encode(t, packet).value)
    {
      var data := protocol.Encode(t, packet);
      if data.Err? {
        return Panicked(data.error);
      }
      var addrs := KeysInSomeOrder(clients.Keys - {except});
      SentDataAll(clients, addrs, clients.Keys - {except}, data.value);
      o := SendDataTo(addrs, data.value);
    }

    /** `get_remote(addr)`: only accepted clients have a profile. */
    function GetRemote(a: SocketAddr): (r: Option<RemoteClient>)
      reads this
      ensures r.Some? <==> a in clients
      ensures r.Some? ==> r.value == clients[a].1
    {
      if a in clients then Some(clients[a].1) else None
    }
  }

  /** A client silent for strictly longer than the timeout has expired. */
  predicate Expired(r: RemoteClient, now: int, timeout: nat) {
    now - r.lastPacket > timeout
  }

  /** The profiles of the expired clients of `m`. */
  function ExpiredProfiles(m: map<SocketAddr, (TcpStream, RemoteClient)>, now: int, timeout: nat): (r: map<SocketAddr, RemoteClient>)
    ensures forall a :: a in r <==> a in m && Expired(m[a].1, now, timeout)
  {
    map a | a in m && Expired(m[a].1, now, timeout) :: m[a].1
  }

  /** Nobody connecting is ever found by `get_remote`. */
  lemma ConnectingHasNoRemote(s: Server, a: SocketAddr)
    requires Disjoint(s.State()) && s.IsConnecting(a)
    ensures s.GetRemote(a) == None
  {
  }

  /** The clients of `m` that have not expired. */
  function Unexpired(m: map<SocketAddr, (TcpStream, RemoteClient)>, now: int, timeout: nat): (r: map<SocketAddr, (TcpStream, RemoteClient)>)
    ensures forall a :: a in r <==> a in m && !Expired(m[a].1, now, timeout)
  {
    map a | a in m && !Expired(m[a].1, now, timeout) :: m[a]
  }

  /**
   * The tables after the first `n` addresses of a snapshot of the clients were
   * checked for expiry against the profiles of `t`.
   */
  function ExpiredUpTo(t: Tables, snapshot: seq<SocketAddr>, now: int, timeout: nat, n: nat): (r: Tables)
    requires n <= |snapshot|
  {
    if n == 0 then t
    else
      var prev := ExpiredUpTo(t, snapshot, now, timeout, n - 1);
      var a := snapshot[n - 1];
      if a in t.clients && Expired(t.clients[a].1, now, timeout) then Disconnected(prev, a) else prev
  }

  /**
   * Checking distinct addresses drops exactly the expired checked clients,
   * moving their profiles to the disconnected table, and leaves the
   * connecting table alone.
   */
  lemma {:induction false} ExpiredUpToAt(t: Tables, snapshot: seq<SocketAddr>, now: int, timeout: nat, n: nat, a: SocketAddr)
    requires n <= |snapshot| && Distinct(snapshot) && Disjoint(t)
    ensures var r := ExpiredUpTo(t, snapshot, now, timeout, n);
      var gone := a in snapshot[..n] && a in t.clients && Expired(t.clients[a].1, now, timeout);
      && r.connecting == t.connecting
      && (a in r.clients <==> a in t.clients && !gone)
      && (a in r.clients ==> r.clients[a] == t.clients[a])
      && (a in r.disconnected <==> a in t.disconnected || gone)
      && (a in r.disconnected ==> r.disconnected[a] == if gone then t.clients[a].1 else t.disconnected[a])
  {
    if n > 0 {
      ExpiredUpToAt(t, snapshot, now, timeout, n - 1, a);
      var b := snapshot[n - 1];
      ExpiredUpToAt(t, snapshot, now, timeout, n - 1, b);
      assert snapshot[..n] == snapshot[..n - 1] + [b];
      if a == b {
        assert a !in snapshot[..n - 1];
      }
    }
  }

  /** Checking a snapshot of every client leaves the unexpired ones and hands over the expired ones. */
  lemma ExpiredAll(t: Tables, snapshot: seq<SocketAddr>, now: int, timeout: nat)
    requires Enumerates(snapshot, t.clients.Keys) && Disjoint(t)
    ensures var r := ExpiredUpTo(t, snapshot, now, timeout, |snapshot|);
      && r.connecting == t.connecting
      && r.clients == Unexpired(t.clients, now, timeout)
      && r.disconnected == t.disconnected + ExpiredProfiles(t.clients, now, timeout)
  {
    var r := ExpiredUpTo(t, snapshot, now, timeout, |snapshot|);
    assert snapshot[..|snapshot|] == snapshot;
    forall a
      ensures (a in r.clients <==> a in Unexpired(t.clients, now, timeout))
      ensures a in r.clients ==> r.clients[a] == Unexpired(t.clients, now, timeout)[a]
      ensures (a in r.disconnected <==> a in t.disconnected + ExpiredProfiles(t.clients, now, timeout))
      ensures a in r.disconnected ==> r.disconnected[a] == (t.disconnected + ExpiredProfiles(t.clients, now, timeout))[a]
    {
      ExpiredUpToAt(t, snapshot, now, timeout, |snapshot|, a);
    }
    var any := SocketAddr([], 0);
    ExpiredUpToAt(t, snapshot, now, timeout, |snapshot|, any);
  }
}
