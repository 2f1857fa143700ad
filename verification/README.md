# DTLS handshaker bookkeeping

A Dafny model of the part of Californium's DTLS handshake that every handshake
role shares (`Handshaker`): deciding which incoming record is the next one to
process, numbering outgoing handshake messages, choosing which half of the key
block protects each direction, and wrapping outgoing fragments into records.
Everything is a pure function over immutable values; a Java mutation becomes a
function that returns the updated handshaker.

Modules:

- `Base`: `Option` (for Java `null`) and opaque byte strings.
- `Records`: content types, the four kinds of DTLS message, `Record`.
- `Sessions`: cipher suite, compression method, connection state, and the
  session fields the handshaker touches (read/write epoch, the record
  sequence number the session hands out, read/write state).
- `Handshakers`: the handshaker state and its operations.
- `Admission`: properties of admission over whole delivery sequences.
- `Numbering`: outgoing numbering and the sender-to-receiver flight property.
- `KeyDirections`: the client/server asymmetry of connection states.

Record admission follows the in-order `message_seq` rule of section 4.2.2 of
RFC 6347 and the epoch handling of section 4.1 of RFC 6347; the key block halves
are those of section 6.3 of RFC 5246.

## Model

| member | source | states |
|---|---|---|
| Handshakers.ProcessMessageNext | src/ch/ethz/inf/vs/californium/dtls/Handshaker.java:246-276 | Older epoch: rejected, state unchanged. Newer epoch: rejected, record added to the queue, nothing else changes. Current epoch: alert and ChangeCipherSpec accepted without change; a handshake message accepted iff its `message_seq` equals the expected counter, which then grows by exactly 1, and on rejection nothing changes; application data rejected without change. Only current-epoch records are ever accepted. |
| Handshakers.SetSequenceNumber | src/ch/ethz/inf/vs/californium/dtls/Handshaker.java:338-341 | The message gets the current counter as `message_seq`, keeps its body, the counter grows by 1 and nothing else in the handshaker changes. |
| Handshakers.IncrementNextReceiveSeq | src/ch/ethz/inf/vs/californium/dtls/Handshaker.java:355-357 | The expected counter grows by exactly 1 whatever the argument, and nothing else changes. |
| Handshakers.SetCurrentReadState | src/ch/ethz/inf/vs/californium/dtls/Handshaker.java:194-202 | Installs a read state with the negotiated suite and compression; a client reads with the server-write key, IV and MAC key, a server with the client-write ones; no keys yet gives a state without keys; only the session's read state changes. |
| Handshakers.SetCurrentWriteState | src/ch/ethz/inf/vs/californium/dtls/Handshaker.java:204-212 | Installs a write state carrying the local side's own key, IV and MAC key; only the session's write state changes. |
| Handshakers.GenerateKeys | src/ch/ethz/inf/vs/californium/dtls/Handshaker.java:147-192 | A failed master-secret derivation changes nothing; a successful one stores the master secret; the key block is stored only when both derivations succeed, otherwise the keys stay as they were; no other field changes. |
| Handshakers.WrapMessage | src/ch/ethz/inf/vs/californium/dtls/Handshaker.java:221-235 | The record carries the fragment under the content type that announces its kind, at the session's write epoch and with the session-supplied record sequence number. |
| Handshakers.FreshIsFresh | src/ch/ethz/inf/vs/californium/dtls/Handshaker.java:88-122 | A new handshaker starts with both counters at 0, an empty queue, no keys, and the given role and session. |
| Records.CarriedByExactlyOneType | src/ch/ethz/inf/vs/californium/dtls/Handshaker.java:223-232 | Every fragment kind is announced by exactly one content type, so the type `WrapMessage` picks is the only correct one. |
| Admission.DeliverAll | src/ch/ethz/inf/vs/californium/dtls/Handshaker.java:246-276 | Over any delivery sequence, admission writes only the expected counter and the queue, and both only grow; every other field of the handshaker, the session included, is unchanged; every accepted record was delivered and is at the read epoch. |
| Admission.AcceptedHandshakesAreConsecutive | src/ch/ethz/inf/vs/californium/dtls/Handshaker.java:259-267 | Over any delivery sequence, the `message_seq` values of the accepted handshake messages are exactly the consecutive numbers from the initial expected counter up to the final one. |
| Admission.FreshAcceptsFromZero | src/ch/ethz/inf/vs/californium/dtls/Handshaker.java:92-95 | From a fresh handshaker the accepted handshake messages are numbered 0, 1, 2, ... with no gap or repeat, and the counter ends at their count. |
| Admission.QueueHoldsExactlyFutureRecords | src/ch/ethz/inf/vs/californium/dtls/Handshaker.java:271-274 | After any delivery sequence, the queue is the old queue plus exactly the delivered records whose epoch is newer than the read epoch. |
| Admission.QueueStaysAhead | src/ch/ethz/inf/vs/californium/dtls/Handshaker.java:248-275 | If every queued record is ahead of the read epoch, admission keeps it so. |
| Admission.StaleRecordsNeverAccepted | src/ch/ethz/inf/vs/californium/dtls/Handshaker.java:248-252 | A record not at the read epoch is never among the accepted ones, whatever the delivery sequence. |
| Admission.RequeueIsNoOp | src/ch/ethz/inf/vs/californium/dtls/Handshaker.java:121 | Delivering a future-epoch record already in the queue is rejected and leaves the handshaker exactly as it was. |
| Admission.AdmissionIncrementMatchesPublicIncrement | src/ch/ethz/inf/vs/californium/dtls/Handshaker.java:262-264 | Accepting a handshake message has the same effect as the public increment operation, whatever its argument. |
| Admission.ReorderedDeliveryScenario | src/ch/ethz/inf/vs/californium/dtls/Handshaker.java:259-267 | Messages 0, 1, 2 arriving as 1, 0, 1, 2 at the read epoch: the early 1 is rejected, the other three are accepted and the counter ends at 3. |
| Numbering.StampAll | src/ch/ethz/inf/vs/californium/dtls/Handshaker.java:338-341 | Numbering N messages in order gives them consecutive numbers from the counter, keeps their bodies, and advances the counter by exactly N. |
| Numbering.StampFromFresh | src/ch/ethz/inf/vs/californium/dtls/Handshaker.java:92 | From a fresh handshaker, N messages are numbered 0 .. N-1 in call order and the counter ends at N. |
| Numbering.NumberedFlightAccepted | src/ch/ethz/inf/vs/californium/dtls/Handshaker.java:259-267 | A flight at the read epoch numbered consecutively from the expected counter is accepted whole, and the counter advances by its length. |
| Numbering.SendFlight | src/ch/ethz/inf/vs/californium/dtls/Handshaker.java:221-235 | Numbering then wrapping a flight gives handshake records at the write epoch numbered from the sender's counter, and every peer reading at that epoch and expecting that number accepts all of it in order. |
| KeyDirections.ClientWriteIsServerRead | src/ch/ethz/inf/vs/californium/dtls/Handshaker.java:194-212 | With the same key material, suite and compression, a client's write state equals a server's read state. |
| KeyDirections.ServerWriteIsClientRead | src/ch/ethz/inf/vs/californium/dtls/Handshaker.java:194-212 | With the same key material, suite and compression, a server's write state equals a client's read state. |
| KeyDirections.ReadKeysAreNotOwnWriteKeys | src/ch/ethz/inf/vs/californium/dtls/Handshaker.java:194-212 | When the two directions' keys differ, a handshaker never reads with the keys it writes with. |
| KeyDirections.FullInstallationMatches | src/ch/ethz/inf/vs/californium/dtls/Handshaker.java:194-212 | After both peers install both directions, each side's read state is the other's write state, and a side's two states differ exactly when the two directions' keys differ. |
| KeyDirections.GeneratedKeysAreInstalled | src/ch/ethz/inf/vs/californium/dtls/Handshaker.java:161-168 | After key generation succeeds, a client's read state carries the new server-write key, IV and MAC key and its write state the new client-write ones; a server's are the other way round. |
| KeyDirections.FailedGenerationKeepsOldKeys | src/ch/ethz/inf/vs/californium/dtls/Handshaker.java:169-172 | When the key-material generator fails, the read state built afterwards is the one the earlier keys would give. |

## Left out

- Master-secret and key-block derivation (`generateMasterSecretKey` and the body of `generateKeys`) call the platform's TLS key generators, which are not visible; `GenerateKeys` takes their results as opaque inputs, `None` meaning the generator threw. A failed master-secret derivation is modelled as leaving the keys untouched because the key-material generator is then handed no master secret and fails.
- All logging: the `LOG.info` on the older-epoch path of `processMessageNext` and the logging and stack-trace printing in the exception handlers of `generateKeys` and `generateMasterSecretKey`; output only.
- `processMessage` and `getStartHandshakeMessage` are abstract and implemented by role classes that are not part of this model.
- The endpoint address, the CoAP message holder, `lastFlight`, the protocol version, the randoms, the key-exchange algorithm and the cipher-suite and key getters and setters: plain data with no behaviour to state.
- `DTLSSession` is not part of this model: `WrapMessage` reads the record sequence number the session supplies and does not model whether the session advances it; epochs are read as values.
- Bulk record encryption and decryption, and retransmission timers, live outside `Handshaker`; so the end-to-end "encrypt with one side's write state, decrypt with the other's read state" round trip is stated only as equality of the two states (`KeyDirections.ClientWriteIsServerRead`).
- Handshakers.SetCurrentReadState: `DTLSSession.setReadState` is modelled as a plain assignment of the read-state slot; any epoch or sequence-number side effect of that setter is not modelled, so the claim that the session's epochs and sequence number stay fixed holds for the model only.
- Handshakers.SetCurrentWriteState: `DTLSSession.setWriteState` is modelled as a plain assignment of the write-state slot; any epoch or sequence-number side effect of that setter is not modelled, so the claim that the session's epochs and sequence number stay fixed holds for the model only.
- Numbering.SendFlight: because the session's record sequence number is read and never advanced, every record of a flight carries the same record sequence number; the program would number them apart inside `DTLSSession`.
- Handshake message fragmentation: a handshake message keeps only its `message_seq` and an opaque body, without `fragment_offset` or `fragment_length`, since admission ignores them. As a consequence the model shows, as the code does, that the second fragment of a fragmented handshake message carries the same `message_seq` as the first and is therefore rejected once the first has advanced the counter.
- Handshakers.SetSequenceNumber: counters are unbounded naturals; the Java `int` counters would wrap after 2^31 - 1 increments, which no handshake reaches.
- Handshakers.ProcessMessageNext: the queue is a set of record values; a Java `HashSet<Record>` compares records by `Record.equals`, which is not part of this model (with identity equality, an equal retransmitted record would be a second element).
- `wrapMessage`'s `null` content type for an unknown fragment kind cannot arise: the model has exactly the four kinds of DTLS message.
