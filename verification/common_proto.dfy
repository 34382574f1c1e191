/**
 * The older stack's game protocol: the login packets, registered on a
 * mutable `Protocol`.
 */
module CommonProto {
  import opened Wrappers
  import opened Bytes
  import opened CommonNetwork

  const LoginStart: TypeKey := "ServerboundLoginStart"
  const LoginSuccess: TypeKey := "ClientboundLoginSuccess"

  /**
   * `login_protocol(proto)`: registers the two login packets in turn; it
   * panics when either is already registered.
   */
  method LoginProtocol(proto: Protocol) returns (o: Outcome)
    requires proto.Valid()
    modifies proto
    ensures proto.Valid()
    ensures o.Panicked? <==>
      LoginStart in old(proto.packets.byLeft) || LoginSuccess in Added(old(proto.packets), LoginStart).byLeft
    ensures o.Done? ==> proto.packets == Added(Added(old(proto.packets), LoginStart), LoginSuccess)
  {
    o := proto.AddPacket(LoginStart);
    if o.Panicked? {
      return;
    }
    o := proto.AddPacket(LoginSuccess);
  }

  /**
   * `network_protocol()`: a new protocol with only the login packets;
   * construction does not panic, the two packets get ids 0 and 1, and no
   * other id resolves.
   */
  method NetworkProtocol() returns (proto: Protocol, o: Outcome)
    ensures fresh(proto) && proto.Valid()
    ensures o == Done
    ensures proto.IdOf(LoginStart) == Some(0) && proto.IdOf(LoginSuccess) == Some(1)
    ensures proto.packets.byLeft.Keys == {LoginStart, LoginSuccess}
    ensures proto.TypeIdOf(0) == Ok(LoginStart) && proto.TypeIdOf(1) == Ok(LoginSuccess)
    ensures forall id: PacketId :: id > 1 ==> proto.TypeIdOf(id).Err?
  {
    proto := new Protocol.New();
    ghost var empty := proto.packets;
    o := LoginProtocol(proto);
    InsertFresh(empty, LoginStart);
    InsertFresh(Added(empty, LoginStart), LoginSuccess);
  }
}
