/** The parts of a DTLS session the handshaker reads and writes: the epochs,
    the record sequence number it hands out, and the two connection states. */
module Sessions {
  import opened Base

  datatype CipherSuite = CipherSuite(code: nat)

  datatype CompressionMethod = CompressionMethod(code: nat)

  /** The key, IV and MAC key protecting one direction of traffic. */
  datatype DirectionKeys = DirectionKeys(writeKey: Bytes, writeIv: Bytes, macKey: Bytes)

  /** An immutable connection state. Every component may still be `null`
      when it is built before the handshake has negotiated or derived it. */
  datatype ConnectionState = ConnectionState(
    cipherSuite: Option<CipherSuite>,
    compressionMethod: Option<CompressionMethod>,
    keys: Option<DirectionKeys>)

  /** `sequenceNumber` is the record sequence number the session supplies to
      the next wrapped record; how the session advances it is not modelled. */
  datatype Session = Session(
    readEpoch: nat,
    writeEpoch: nat,
    sequenceNumber: nat,
    readState: Option<ConnectionState>,
    writeState: Option<ConnectionState>)
}
