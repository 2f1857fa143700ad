/** The record-layer values the handshaker consumes and produces: the four
    kinds of DTLS message that can sit in a record, and the record itself. */
module Records {
  import opened Base

  /** The record-layer content types (section 6.2.1 of RFC 5246). */
  datatype ContentType =
    | ChangeCipherSpecType
    | AlertType
    | HandshakeType
    | ApplicationDataType

  /** A handshake message; only its `message_seq` matters to the shared
      bookkeeping, the rest is an opaque body produced by the concrete roles. */
  datatype HandshakeMessage = HandshakeMessage(messageSeq: nat, body: Bytes)

  /** The four kinds of DTLS message a record can carry. */
  datatype Fragment =
    | Application(data: Bytes)
    | Alert(level: nat, description: nat)
    | ChangeCipherSpec
    | Handshake(message: HandshakeMessage)

  /** A record: content type, epoch, record sequence number and fragment. */
  datatype Record = Record(contentType: ContentType, epoch: nat, sequenceNumber: nat, fragment: Fragment)

  /** The content type `ct` is the one that announces a fragment like `f`.
      This reads the correspondence from the content-type side. */
  predicate Carries(ct: ContentType, f: Fragment)
  {
    match ct
    case ChangeCipherSpecType => f.ChangeCipherSpec?
    case AlertType => f.Alert?
    case HandshakeType => f.Handshake?
    case ApplicationDataType => f.Application?
  }

  /** Every fragment is carried by exactly one content type. */
  lemma CarriedByExactlyOneType(f: Fragment, ct1: ContentType, ct2: ContentType)
    ensures exists ct :: Carries(ct, f)
    ensures Carries(ct1, f) && Carries(ct2, f) ==> ct1 == ct2
  {
    match f
    case Application(_) => assert Carries(ApplicationDataType, f);
    case Alert(_, _) => assert Carries(AlertType, f);
    case ChangeCipherSpec => assert Carries(ChangeCipherSpecType, f);
    case Handshake(_) => assert Carries(HandshakeType, f);
  }
}
