/** What record admission guarantees over a whole delivery sequence: handshake
    messages come out strictly in `message_seq` order, only current-epoch
    records come out at all, and the queue collects exactly the future-epoch
    records that arrived. */
module Admission {
  import opened Base
  import opened Records
  import opened Sessions
  import opened Handshakers

  /** The handshaker after a sequence of records, and the records it let
      through, in arrival order. */
  datatype Delivery = Delivery(engine: Handshaker, accepted: seq<Record>)

  /** Runs admission over `rs` in order. */
  function DeliverAll(h: Handshaker, rs: seq<Record>): (d: Delivery)
    // admission writes only the expected counter and the queue
    ensures d.engine == h.(nextReceiveSeq := d.engine.nextReceiveSeq, queuedMessages := d.engine.queuedMessages)
    ensures h.nextReceiveSeq <= d.engine.nextReceiveSeq
    ensures h.queuedMessages <= d.engine.queuedMessages
    ensures |d.accepted| <= |rs|
    ensures forall i :: 0 <= i < |d.accepted| ==>
      d.accepted[i] in rs && d.accepted[i].epoch == h.session.readEpoch
    decreases |rs|
  {
    if rs == [] then
      Delivery(h, [])
    else
      var a := ProcessMessageNext(h, rs[0]);
      var rest := DeliverAll(a.engine, rs[1..]);
      Delivery(rest.engine, (if a.accepted then [rs[0]] else []) + rest.accepted)
  }

  /** The `message_seq` values of the handshake messages among `rs`, in order. */
  function HandshakeSeqs(rs: seq<Record>): seq<nat>
  {
    if rs == [] then []
    else if rs[0].fragment.Handshake? then [rs[0].fragment.message.messageSeq] + HandshakeSeqs(rs[1..])
    else HandshakeSeqs(rs[1..])
  }

  /** The consecutive numbers lo, lo+1, ..., hi-1. */
  function Range(lo: nat, hi: nat): seq<nat>
    decreases hi - lo
  {
    if lo >= hi then [] else [lo] + Range(lo + 1, hi)
  }

  lemma {:induction false} RangeIsConsecutive(lo: nat, hi: nat)
    requires lo <= hi
    ensures |Range(lo, hi)| == hi - lo
    ensures forall i :: 0 <= i < |Range(lo, hi)| ==> Range(lo, hi)[i] == lo + i
    decreases hi - lo
  {
    if lo < hi {
      RangeIsConsecutive(lo + 1, hi);
    }
  }

  lemma HandshakeSeqsOfCons(r: Record, rs: seq<Record>)
    ensures HandshakeSeqs([r] + rs) ==
      (if r.fragment.Handshake? then [r.fragment.message.messageSeq] else []) + HandshakeSeqs(rs)
  {
  }

  /** In-order delivery: whatever the arrival order, duplicates and
      interleaved alerts, the handshake messages let through carry exactly the
      consecutive numbers from the expected counter up to its final value. */
  lemma {:induction false} AcceptedHandshakesAreConsecutive(h: Handshaker, rs: seq<Record>)
    ensures HandshakeSeqs(DeliverAll(h, rs).accepted) ==
      Range(h.nextReceiveSeq, DeliverAll(h, rs).engine.nextReceiveSeq)
    decreases |rs|
  {
    if rs != [] {
      var a := ProcessMessageNext(h, rs[0]);
      var rest := DeliverAll(a.engine, rs[1..]);
      AcceptedHandshakesAreConsecutive(a.engine, rs[1..]);
      if a.accepted {
        HandshakeSeqsOfCons(rs[0], rest.accepted);
        if rs[0].fragment.Handshake? {
          assert a.engine.nextReceiveSeq == h.nextReceiveSeq + 1;
        } else {
          assert a.engine.nextReceiveSeq == h.nextReceiveSeq;
        }
      } else {
        assert DeliverAll(h, rs).accepted == rest.accepted;
      }
    }
  }

  /** From a fresh handshaker, the accepted handshake messages are numbered
      0, 1, 2, ... without gap or repeat, and the counter ends at their count. */
  lemma FreshAcceptsFromZero(isClient: bool, session: Session, rs: seq<Record>)
    ensures var d := DeliverAll(Fresh(isClient, session), rs);
      && |HandshakeSeqs(d.accepted)| == d.engine.nextReceiveSeq
      && forall i :: 0 <= i < |HandshakeSeqs(d.accepted)| ==> HandshakeSeqs(d.accepted)[i] == i
  {
    var h := Fresh(isClient, session);
    AcceptedHandshakesAreConsecutive(h, rs);
    RangeIsConsecutive(0, DeliverAll(h, rs).engine.nextReceiveSeq);
  }

  /** The queue grows by exactly the records of a newer epoch than the
      session's read epoch, and by nothing else. */
  lemma {:induction false} QueueHoldsExactlyFutureRecords(h: Handshaker, rs: seq<Record>)
    ensures DeliverAll(h, rs).engine.queuedMessages ==
      h.queuedMessages + (set r | r in rs && r.epoch > h.session.readEpoch)
    decreases |rs|
  {
    if rs != [] {
      var a := ProcessMessageNext(h, rs[0]);
      QueueHoldsExactlyFutureRecords(a.engine, rs[1..]);
      var e := h.session.readEpoch;
      assert a.engine.session == h.session;
      assert (set r | r in rs && r.epoch > e) ==
        (if rs[0].epoch > e then {rs[0]} else {}) + (set r | r in rs[1..] && r.epoch > e) by {
        assert rs == [rs[0]] + rs[1..];
      }
    }
  }

  /** The queue holds only records of a newer epoch than the read epoch, and
      admission keeps it that way. */
  ghost predicate QueueIsAhead(h: Handshaker)
  {
    forall r :: r in h.queuedMessages ==> r.epoch > h.session.readEpoch
  }

  lemma QueueStaysAhead(h: Handshaker, rs: seq<Record>)
    requires QueueIsAhead(h)
    ensures QueueIsAhead(DeliverAll(h, rs).engine)
  {
    QueueHoldsExactlyFutureRecords(h, rs);
  }

  /** A record of an older epoch is never let through, wherever it arrives. */
  lemma StaleRecordsNeverAccepted(h: Handshaker, rs: seq<Record>, r: Record)
    requires r.epoch != h.session.readEpoch
    ensures r !in DeliverAll(h, rs).accepted
  {
  }

  /** Sending an already queued record again leaves the handshaker as it was. */
  lemma RequeueIsNoOp(h: Handshaker, rec: Record)
    requires rec in h.queuedMessages
    requires rec.epoch > h.session.readEpoch
    ensures ProcessMessageNext(h, rec) == Decision(false, h)
  {
  }

  /** Accepting a handshake message advances the counter exactly as the public
      increment operation does, whatever argument that operation is given. */
  lemma AdmissionIncrementMatchesPublicIncrement(h: Handshaker, rec: Record, arg: int)
    requires rec.fragment.Handshake?
    requires ProcessMessageNext(h, rec).accepted
    ensures ProcessMessageNext(h, rec).engine == IncrementNextReceiveSeq(h, arg)
  {
  }

  function HandshakeRecord(epoch: nat, messageSeq: nat): Record
  {
    Record(HandshakeType, epoch, 0, Handshake(HandshakeMessage(messageSeq, [])))
  }

  /** Messages 0, 1, 2 arriving as 1, 0, 1, 2: the early 1 is discarded, then
      0 is accepted, the retransmitted 1 is accepted, and 2 after it. */
  lemma ReorderedDeliveryScenario(isClient: bool, session: Session)
    ensures var e := session.readEpoch;
      var rs := [HandshakeRecord(e, 1), HandshakeRecord(e, 0), HandshakeRecord(e, 1), HandshakeRecord(e, 2)];
      var d := DeliverAll(Fresh(isClient, session), rs);
      && d.accepted == rs[1..]
      && d.engine.nextReceiveSeq == 3
  {
    var e := session.readEpoch;
    var rs := [HandshakeRecord(e, 1), HandshakeRecord(e, 0), HandshakeRecord(e, 1), HandshakeRecord(e, 2)];
    var h0 := Fresh(isClient, session);
    var h1 := h0.(nextReceiveSeq := 1);
    var h2 := h0.(nextReceiveSeq := 2);
    var h3 := h0.(nextReceiveSeq := 3);
    assert ProcessMessageNext(h2, rs[3]) == Decision(true, h3);
    assert DeliverAll(h2, rs[3..]) == Delivery(h3, rs[3..]);
    assert ProcessMessageNext(h1, rs[2]) == Decision(true, h2);
    assert DeliverAll(h1, rs[2..]) == Delivery(h3, rs[2..]) by {
      assert rs[2..][1..] == rs[3..];
    }
    assert ProcessMessageNext(h0, rs[1]) == Decision(true, h1);
    assert DeliverAll(h0, rs[1..]) == Delivery(h3, rs[1..]) by {
      assert rs[1..][1..] == rs[2..];
    }
    assert ProcessMessageNext(h0, rs[0]) == Decision(false, h0);
  }
}
