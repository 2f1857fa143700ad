/** The role asymmetry of connection-state installation: what a client writes
    with is what a server reads with, and the other way round, and neither side
    ever reads with its own write keys. */
module KeyDirections {
  import opened Base
  import opened Sessions
  import opened Handshakers

  /** Two handshakers of opposite roles that hold the same negotiated
      parameters and the same key block. */
  predicate Peers(client: Handshaker, server: Handshaker)
  {
    && client.isClient
    && !server.isClient
    && client.keys == server.keys
    && client.cipherSuite == server.cipherSuite
    && client.compressionMethod == server.compressionMethod
  }

  /** Traffic from client to server: the client's write state is the
      server's read state. */
  lemma ClientWriteIsServerRead(client: Handshaker, server: Handshaker)
    requires Peers(client, server)
    ensures SetCurrentWriteState(client).session.writeState == SetCurrentReadState(server).session.readState
  {
  }

  /** Traffic from server to client: the server's write state is the
      client's read state. */
  lemma ServerWriteIsClientRead(client: Handshaker, server: Handshaker)
    requires Peers(client, server)
    ensures SetCurrentWriteState(server).session.writeState == SetCurrentReadState(client).session.readState
  {
  }

  /** Once keys exist and the two directions' keys differ, a handshaker
      never reads with the keys it writes with. */
  lemma ReadKeysAreNotOwnWriteKeys(h: Handshaker)
    requires h.keys.Some?
    requires ClientWriteKeys(h.keys) != ServerWriteKeys(h.keys)
    ensures SetCurrentReadState(h).session.readState.value.keys != SetCurrentWriteState(h).session.writeState.value.keys
  {
  }

  /** Installing both directions on both peers leaves each side's read state
      equal to the other side's write state. */
  lemma FullInstallationMatches(client: Handshaker, server: Handshaker)
    requires Peers(client, server)
    ensures var c := SetCurrentWriteState(SetCurrentReadState(client));
      var s := SetCurrentWriteState(SetCurrentReadState(server));
      && c.session.writeState == s.session.readState
      && s.session.writeState == c.session.readState
      && (c.session.readState != c.session.writeState <==> ClientWriteKeys(client.keys) != ServerWriteKeys(client.keys))
  {
  }

  /** Keys that key generation produces are the ones the connection states
      then carry: a client reads with the new server-write half and writes
      with the new client-write half, and a server the other way round. */
  lemma GeneratedKeysAreInstalled(h: Handshaker, master: Bytes, kb: KeyBlock)
    ensures var g := GenerateKeys(h, Some(master), Some(kb));
      var server := DirectionKeys(kb.serverWriteKey, kb.serverWriteIv, kb.serverWriteMacKey);
      var client := DirectionKeys(kb.clientWriteKey, kb.clientWriteIv, kb.clientWriteMacKey);
      && SetCurrentReadState(g).session.readState.value.keys == Some(if h.isClient then server else client)
      && SetCurrentWriteState(g).session.writeState.value.keys == Some(if h.isClient then client else server)
  {
  }

  /** A failed key generation installs whatever keys were there before. */
  lemma FailedGenerationKeepsOldKeys(h: Handshaker, master: Option<Bytes>)
    ensures SetCurrentReadState(GenerateKeys(h, master, None)).session.readState
      == SetCurrentReadState(h).session.readState
  {
  }
}
