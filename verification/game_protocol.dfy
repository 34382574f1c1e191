/**
 * The game's engine protocol: the five packet types of the game, registered
 * one `with_packet` after another.
 */
module GameProtocol {
  import opened Wrappers
  import opened Bytes
  import opened EngineProtocol

  const ClientPing := PacketType("ClientPingPacket", Client)
  const ServerPong := PacketType("ServerPongPacket", Server)
  const ClientLoadWorld := PacketType("ClientLoadWorldPacket", Client)
  const ServerWorldSendChunk := PacketType("ServerWorldSendChunkPacket", Server)
  const ServerWorldSetTile := PacketType("ServerWorldSetTilePacket", Server)

  /** The registration list, in the order of the builder chain. */
  const Registered: seq<PacketType> :=
    [ClientPing, ServerPong, ClientLoadWorld, ServerWorldSendChunk, ServerWorldSetTile]

  /** `protocol()`. */
  function Protocol(): Result<NetworkProtocol, Panic> {
    Build(Registered)
  }

  /**
   * Building the game protocol never trips the duplicate assertion; it holds
   * exactly the five types, with ids 0 to 4 in registration order.
   */
  lemma ProtocolIds()
    ensures Protocol().Ok?
    ensures |Protocol().value.packets| == 5
    ensures IdOf(Protocol().value, ClientPing) == Some(0)
    ensures IdOf(Protocol().value, ServerPong) == Some(1)
    ensures IdOf(Protocol().value, ClientLoadWorld) == Some(2)
    ensures IdOf(Protocol().value, ServerWorldSendChunk) == Some(3)
    ensures IdOf(Protocol().value, ServerWorldSetTile) == Some(4)
    ensures forall t :: t !in Registered ==> IdOf(Protocol().value, t) == None
  {
    assert Distinct(Registered);
    BuildAssignsIndices(Registered);
    assert Registered[0] == ClientPing && Registered[1] == ServerPong && Registered[2] == ClientLoadWorld;
    assert Registered[3] == ServerWorldSendChunk && Registered[4] == ServerWorldSetTile;
  }
}
