/** The bookkeeping shared by every DTLS handshake role: record admission,
    outgoing message numbering, directional key selection and record wrapping.
    Every operation is a pure transition from one handshaker value to the next. */
module Handshakers {
  import opened Base
  import opened Records
  import opened Sessions

  /** The six values the key block is split into (section 6.3 of RFC 5246).
      They come out of a key-material generator the model does not see. */
  datatype KeyBlock = KeyBlock(
    clientWriteMacKey: Bytes,
    serverWriteMacKey: Bytes,
    clientWriteKey: Bytes,
    serverWriteKey: Bytes,
    clientWriteIv: Bytes,
    serverWriteIv: Bytes)

  /** The state of one in-progress handshake. `keys` and `masterSecret` are
      `None` until key generation succeeds; `state` is the role-specific
      progress marker, -1 before the handshake starts. */
  datatype Handshaker = Handshaker(
    isClient: bool,
    state: int,
    cipherSuite: Option<CipherSuite>,
    compressionMethod: Option<CompressionMethod>,
    masterSecret: Option<Bytes>,
    keys: Option<KeyBlock>,
    session: Session,
    sequenceNumber: nat,
    nextReceiveSeq: nat,
    queuedMessages: set<Record>)

  /** The outcome of admitting one record: whether it is the next one to
      process, and the handshaker after the admission decision. */
  datatype Decision = Decision(accepted: bool, engine: Handshaker)

  /** The outcome of numbering one outgoing handshake message. */
  datatype Stamped = Stamped(engine: Handshaker, message: HandshakeMessage)

  /** A handshaker as the constructor leaves it. */
  function Fresh(isClient: bool, session: Session): Handshaker
  {
    Handshaker(isClient, -1, None, None, None, None, session, 0, 0, {})
  }

  /** A handshaker whose counters and queue are those of a fresh one. */
  predicate IsFresh(h: Handshaker)
  {
    h.sequenceNumber == 0 && h.nextReceiveSeq == 0 && h.queuedMessages == {}
  }

  lemma FreshIsFresh(isClient: bool, session: Session)
    ensures IsFresh(Fresh(isClient, session))
    ensures Fresh(isClient, session).isClient == isClient
    ensures Fresh(isClient, session).session == session
    ensures Fresh(isClient, session).keys.None?
  {
  }

  /** Decides whether `rec` is the next record to hand to the role logic.
      Older epochs are dropped, newer epochs are queued, and at the current
      epoch alerts and ChangeCipherSpec always pass while a handshake
      message passes only when it carries the expected `message_seq`. */
  function ProcessMessageNext(h: Handshaker, rec: Record): (r: Decision)
    // an older epoch: rejected, nothing changes
    ensures rec.epoch < h.session.readEpoch ==> !r.accepted && r.engine == h
    // a newer epoch: rejected and remembered in the queue, nothing else changes
    ensures rec.epoch > h.session.readEpoch ==>
      !r.accepted && r.engine == h.(queuedMessages := h.queuedMessages + {rec})
    // current epoch, alert or ChangeCipherSpec: accepted, nothing changes
    ensures rec.epoch == h.session.readEpoch && (rec.fragment.Alert? || rec.fragment.ChangeCipherSpec?) ==>
      r.accepted && r.engine == h
    // current epoch, handshake message: accepted exactly when it is the expected one
    ensures rec.epoch == h.session.readEpoch && rec.fragment.Handshake? ==>
      (r.accepted <==> rec.fragment.message.messageSeq == h.nextReceiveSeq)
    ensures rec.epoch == h.session.readEpoch && rec.fragment.Handshake? && r.accepted ==>
      r.engine == h.(nextReceiveSeq := h.nextReceiveSeq + 1)
    ensures rec.epoch == h.session.readEpoch && rec.fragment.Handshake? && !r.accepted ==>
      r.engine == h
    // current epoch, application data: rejected, nothing changes
    ensures rec.epoch == h.session.readEpoch && rec.fragment.Application? ==>
      !r.accepted && r.engine == h
    // whatever the record, only the current epoch is ever accepted
    ensures r.accepted ==> rec.epoch == h.session.readEpoch
  {
    if rec.epoch < h.session.readEpoch then
      Decision(false, h)
    else if rec.epoch == h.session.readEpoch then
      match rec.fragment
      case Alert(_, _) => Decision(true, h)
      case ChangeCipherSpec => Decision(true, h)
      case Handshake(m) =>
        if m.messageSeq == h.nextReceiveSeq then
          Decision(true, h.(nextReceiveSeq := h.nextReceiveSeq + 1))
        else
          Decision(false, h)
      case Application(_) => Decision(false, h)
    else
      Decision(false, h.(queuedMessages := h.queuedMessages + {rec}))
  }

  /** Gives `m` the next outgoing `message_seq` and advances the counter. */
  function SetSequenceNumber(h: Handshaker, m: HandshakeMessage): (r: Stamped)
    ensures r.message.messageSeq == h.sequenceNumber
    ensures r.message.body == m.body
    ensures r.engine.sequenceNumber == h.sequenceNumber + 1
    ensures r.engine == h.(sequenceNumber := r.engine.sequenceNumber)
  {
    Stamped(h.(sequenceNumber := h.sequenceNumber + 1), m.(messageSeq := h.sequenceNumber))
  }

  /** Advances the expected incoming `message_seq` by one; the argument is
      ignored. */
  function IncrementNextReceiveSeq(h: Handshaker, nextReceiveSeq: int): (r: Handshaker)
    ensures r.nextReceiveSeq == h.nextReceiveSeq + 1
    ensures r == h.(nextReceiveSeq := r.nextReceiveSeq)
  {
    h.(nextReceiveSeq := h.nextReceiveSeq + 1)
  }

  /** The client's own key, IV and MAC key, if keys have been generated. */
  function ClientWriteKeys(keys: Option<KeyBlock>): Option<DirectionKeys>
  {
    match keys
    case None => None
    case Some(kb) => Some(DirectionKeys(kb.clientWriteKey, kb.clientWriteIv, kb.clientWriteMacKey))
  }

  /** The server's own key, IV and MAC key, if keys have been generated. */
  function ServerWriteKeys(keys: Option<KeyBlock>): Option<DirectionKeys>
  {
    match keys
    case None => None
    case Some(kb) => Some(DirectionKeys(kb.serverWriteKey, kb.serverWriteIv, kb.serverWriteMacKey))
  }

  /** Installs the read state: each side reads what the other side writes. */
  function SetCurrentReadState(h: Handshaker): (r: Handshaker)
    ensures r.session.readState.Some?
    ensures r.session.readState.value.cipherSuite == h.cipherSuite
    ensures r.session.readState.value.compressionMethod == h.compressionMethod
    ensures h.keys.None? ==> r.session.readState.value.keys.None?
    ensures h.keys.Some? && h.isClient ==>
      r.session.readState.value.keys == Some(DirectionKeys(h.keys.value.serverWriteKey, h.keys.value.serverWriteIv, h.keys.value.serverWriteMacKey))
    ensures h.keys.Some? && !h.isClient ==>
      r.session.readState.value.keys == Some(DirectionKeys(h.keys.value.clientWriteKey, h.keys.value.clientWriteIv, h.keys.value.clientWriteMacKey))
    ensures r == h.(session := h.session.(readState := r.session.readState))
  {
    var keys := if h.isClient then ServerWriteKeys(h.keys) else ClientWriteKeys(h.keys);
    var state := ConnectionState(h.cipherSuite, h.compressionMethod, keys);
    h.(session := h.session.(readState := Some(state)))
  }

  /** Installs the write state: each side writes with its own keys. */
  function SetCurrentWriteState(h: Handshaker): (r: Handshaker)
    ensures r.session.writeState.Some?
    ensures r.session.writeState.value.cipherSuite == h.cipherSuite
    ensures r.session.writeState.value.compressionMethod == h.compressionMethod
    ensures h.keys.None? ==> r.session.writeState.value.keys.None?
    ensures h.keys.Some? && h.isClient ==>
      r.session.writeState.value.keys == Some(DirectionKeys(h.keys.value.clientWriteKey, h.keys.value.clientWriteIv, h.keys.value.clientWriteMacKey))
    ensures h.keys.Some? && !h.isClient ==>
      r.session.writeState.value.keys == Some(DirectionKeys(h.keys.value.serverWriteKey, h.keys.value.serverWriteIv, h.keys.value.serverWriteMacKey))
    ensures r == h.(session := h.session.(writeState := r.session.writeState))
  {
    var keys := if h.isClient then ClientWriteKeys(h.keys) else ServerWriteKeys(h.keys);
    var state := ConnectionState(h.cipherSuite, h.compressionMethod, keys);
    h.(session := h.session.(writeState := Some(state)))
  }

  /** Records the outcome of key generation. `master` is what the master-secret
      generator produced and `block` what the key-material generator produced
      from it; `None` stands for a generator that threw. A failure is swallowed
      and leaves the affected fields as they were. */
  function GenerateKeys(h: Handshaker, master: Option<Bytes>, block: Option<KeyBlock>): (r: Handshaker)
    ensures master.None? ==> r == h
    ensures master.Some? ==> r.masterSecret == master
    ensures master.Some? && block.Some? ==> r.keys == block
    ensures block.None? ==> r.keys == h.keys
    ensures r == h.(masterSecret := r.masterSecret, keys := r.keys)
  {
    match master
    case None => h
    case Some(_) =>
      var withMaster := h.(masterSecret := master);
      match block
      case None => withMaster
      case Some(_) => withMaster.(keys := block)
  }

  /** Wraps an outgoing fragment into a record of the matching content type,
      stamped with the session's write epoch and record sequence number. */
  function WrapMessage(h: Handshaker, f: Fragment): (rec: Record)
    ensures Carries(rec.contentType, f)
    ensures rec.fragment == f
    ensures rec.epoch == h.session.writeEpoch
    ensures rec.sequenceNumber == h.session.sequenceNumber
  {
    var ct :=
      match f
      case Application(_) => ApplicationDataType
      case Alert(_, _) => AlertType
      case ChangeCipherSpec => ChangeCipherSpecType
      case Handshake(_) => HandshakeType;
    Record(ct, h.session.writeEpoch, h.session.sequenceNumber, f)
  }
}
