/** Outgoing handshake message numbering, and what it means for the peer:
    a flight numbered by one handshaker and wrapped at its write epoch is let
    through, message by message, by a peer reading that epoch that expects
    the first number. */
module Numbering {
  import opened Base
  import opened Records
  import opened Sessions
  import opened Handshakers
  import opened Admission

  /** Numbers `msgs` in order, one `SetSequenceNumber` call each. */
  method StampAll(h: Handshaker, msgs: seq<HandshakeMessage>) returns (h': Handshaker, stamped: seq<HandshakeMessage>)
    ensures |stamped| == |msgs|
    ensures forall i :: 0 <= i < |msgs| ==>
      stamped[i].messageSeq == h.sequenceNumber + i && stamped[i].body == msgs[i].body
    ensures h' == h.(sequenceNumber := h.sequenceNumber + |msgs|)
  {
    h' := h;
    stamped := [];
    var k := 0;
    while k < |msgs|
      invariant 0 <= k <= |msgs|
      invariant |stamped| == k
      invariant forall i :: 0 <= i < k ==>
        stamped[i].messageSeq == h.sequenceNumber + i && stamped[i].body == msgs[i].body
      invariant h' == h.(sequenceNumber := h.sequenceNumber + k)
    {
      var s := SetSequenceNumber(h', msgs[k]);
      h' := s.engine;
      stamped := stamped + [s.message];
      k := k + 1;
    }
  }

  /** From a fresh handshaker, N messages are numbered 0 .. N-1 in call order
      and the counter ends at N. */
  method StampFromFresh(isClient: bool, session: Session, msgs: seq<HandshakeMessage>)
    returns (h': Handshaker, stamped: seq<HandshakeMessage>)
    ensures |stamped| == |msgs|
    ensures forall i :: 0 <= i < |msgs| ==> stamped[i].messageSeq == i
    ensures h'.sequenceNumber == |msgs|
  {
    h', stamped := StampAll(Fresh(isClient, session), msgs);
  }

  /** `rs` is a flight of handshake records at `epoch` numbered consecutively
      from `first`. */
  predicate IsNumberedFlight(rs: seq<Record>, epoch: nat, first: nat)
  {
    forall i :: 0 <= i < |rs| ==>
      && rs[i].epoch == epoch
      && rs[i].fragment.Handshake?
      && rs[i].fragment.message.messageSeq == first + i
  }

  /** A consecutively numbered flight at the read epoch, starting at the
      expected number, is let through whole and advances the counter by its
      length. */
  lemma {:induction false} NumberedFlightAccepted(h: Handshaker, rs: seq<Record>)
    requires IsNumberedFlight(rs, h.session.readEpoch, h.nextReceiveSeq)
    ensures DeliverAll(h, rs).accepted == rs
    ensures DeliverAll(h, rs).engine.nextReceiveSeq == h.nextReceiveSeq + |rs|
    decreases |rs|
  {
    if rs != [] {
      var a := ProcessMessageNext(h, rs[0]);
      assert a.accepted && a.engine.nextReceiveSeq == h.nextReceiveSeq + 1;
      assert IsNumberedFlight(rs[1..], a.engine.session.readEpoch, a.engine.nextReceiveSeq) by {
        forall i | 0 <= i < |rs[1..]|
          ensures rs[1..][i].fragment.message.messageSeq == a.engine.nextReceiveSeq + i
        {
          assert rs[1..][i] == rs[i + 1];
        }
      }
      NumberedFlightAccepted(a.engine, rs[1..]);
    }
  }

  /** Numbers `msgs`, then wraps each as a handshake record for sending.
      The session's record sequence number is a value the model reads but
      never advances, so every record of the flight carries the same one. */
  method SendFlight(h: Handshaker, msgs: seq<HandshakeMessage>) returns (h': Handshaker, flight: seq<Record>)
    ensures |flight| == |msgs|
    ensures h' == h.(sequenceNumber := h.sequenceNumber + |msgs|)
    ensures forall i :: 0 <= i < |msgs| ==>
      && flight[i].contentType == HandshakeType
      && flight[i].fragment.Handshake?
      && flight[i].fragment.message.body == msgs[i].body
    ensures IsNumberedFlight(flight, h.session.writeEpoch, h.sequenceNumber)
    // the peer that reads at our write epoch and expects our first number takes it all, in order
    ensures forall peer: Handshaker ::
      peer.session.readEpoch == h.session.writeEpoch && peer.nextReceiveSeq == h.sequenceNumber ==>
        DeliverAll(peer, flight).accepted == flight
  {
    var stamped;
    h', stamped := StampAll(h, msgs);
    flight := [];
    var k := 0;
    while k < |stamped|
      invariant 0 <= k <= |stamped|
      invariant |flight| == k
      invariant forall i :: 0 <= i < k ==> flight[i] == WrapMessage(h, Handshake(stamped[i]))
    {
      flight := flight + [WrapMessage(h, Handshake(stamped[k]))];
      k := k + 1;
    }
    forall peer: Handshaker |
      peer.session.readEpoch == h.session.writeEpoch && peer.nextReceiveSeq == h.sequenceNumber
      ensures DeliverAll(peer, flight).accepted == flight
    {
      NumberedFlightAccepted(peer, flight);
    }
  }
}
