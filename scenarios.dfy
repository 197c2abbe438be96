/** Client-side walks through both designs with three peers, where peer 0
    multicasts "hello". For the ACK-based process the messages are carried by
    hand between outboxes; the gossip processes share their queues. Everything
    asserted here follows from the contracts of the processes alone. */
module Scenarios {
  import opened MessageIds
  import opened AckMulticast
  import G = GossipMulticast

  /** The multicast puts one DATA per peer in the outbox and waits on all. */
  method MulticastHello() {
    var p0 := new ReliableMulticastProcess(0, 3);
    p0.RMulticast("hello");
    assert Range(3) == {0, 1, 2};
    var id := FormatId(0, 1, "hello");
    assert id == "0-1-hello";
    var data := Message(Data, id, "hello", 0, 1);
    assert p0.outbox == [Send(0, data), Send(1, data), Send(2, data)];
    assert p0.pendingAcks == map[id := {0, 1, 2}];
  }

  /** A receiver delivers the first copy and only ACKs the second. */
  method ReceiveHelloTwice() {
    var p1 := new ReliableMulticastProcess(1, 3);
    var data := Message(Data, "0-1-hello", "hello", 0, 1);
    p1.Receive(data);
    assert p1.lamportClock == 3;
    assert p1.deliveries == [Delivery("0-1-hello", "hello", 1)];
    assert p1.outbox == [Send(0, Message(Ack, "0-1-hello", "", 1, 3))];
    p1.Receive(data);
    assert p1.lamportClock == 4;
    assert p1.deliveries == [Delivery("0-1-hello", "hello", 1)];
    assert p1.outbox[1] == Send(0, Message(Ack, "0-1-hello", "", 1, 4));
  }

  /** An ACK's own timestamp is not read: a fresh process receiving an ACK
      stamped 10 only ticks to 1, and stays behind that timestamp. */
  method AckTimestampIgnored() {
    var p := new ReliableMulticastProcess(0, 3);
    p.Receive(Message(Ack, "zz", "", 1, 10));
    assert p.lamportClock == 1 && p.lamportClock < 10;
    assert p.pendingAcks == map[];
  }

  /** Peer 2's ACK is lost; the retransmitter then re-sends the original
      DATA to peer 2 and to no one else, and the late ACK completes the entry. */
  method LostAck() {
    var p0 := new ReliableMulticastProcess(0, 3);
    p0.RMulticast("hello");
    assert FormatId(0, 1, "hello") == "0-1-hello";
    assert Range(3) == {0, 1, 2};
    AcksFromPeers0And1(p0);
    RetransmitToMissingPeer(p0, 1, "hello", 2);
    LateAckFromPeer2(p0);
  }

  /** Peers 0 and 1 acknowledge "hello"; peer 2's ACK never arrives. */
  method AcksFromPeers0And1(p0: ReliableMulticastProcess)
    requires p0.Valid() && p0.pendingAcks == map["0-1-hello" := {0, 1, 2}]
    modifies p0
    ensures p0.Valid() && p0.pendingAcks == map["0-1-hello" := {2}]
  {
    var id := "0-1-hello";
    var w1: set<nat> := {1, 2};
    var w2: set<nat> := {2};
    assert p0.pendingAcks[id] - {0} == w1 && w1 - {1} == w2;
    p0.Receive(Message(Ack, id, "", 0, 3));
    assert p0.pendingAcks == map[id := w1];
    p0.Receive(Message(Ack, id, "", 1, 3));
  }

  /** With one entry left, the pass re-sends the original DATA to the
      missing peer and nothing else. */
  lemma OnlyTheMissingPeer(pid: nat, ts: nat, content: string, missing: nat, added: seq<Send>)
    requires forall s :: s in added <==> IsRetransmission(pid, map[FormatId(pid, ts, content) := {missing}], s)
    ensures forall s :: s in added <==> s == Send(missing, Message(Data, FormatId(pid, ts, content), content, pid, ts))
  {
    var table := map[FormatId(pid, ts, content) := {missing}];
    forall s
      ensures IsRetransmission(pid, table, s)
        <==> s == Send(missing, Message(Data, FormatId(pid, ts, content), content, pid, ts))
    {
      RetransmissionRepeatsOriginal(pid, ts, content, table, s);
    }
  }

  /** A retransmission pass while one peer is missing sends exactly the
      original DATA, to that peer alone. */
  method RetransmitToMissingPeer(p0: ReliableMulticastProcess, ts: nat, content: string, missing: nat)
    requires p0.Valid() && p0.pendingAcks == map[FormatId(p0.processId, ts, content) := {missing}]
    modifies p0
    ensures p0.Valid() && p0.pendingAcks == old(p0.pendingAcks)
    ensures |p0.outbox| >= |old(p0.outbox)| && p0.outbox[..|old(p0.outbox)|] == old(p0.outbox)
    ensures forall s :: (s in p0.outbox[|old(p0.outbox)|..]) <==>
      (s == Send(missing, Message(Data, FormatId(p0.processId, ts, content), content, p0.processId, ts)))
  {
    var sent := |p0.outbox|;
    p0.RetransmitPass();
    OnlyTheMissingPeer(p0.processId, ts, content, missing, p0.outbox[sent..]);
  }

  /** Peer 2's late ACK crosses off the last peer and deletes the entry. */
  method LateAckFromPeer2(p0: ReliableMulticastProcess)
    requires p0.Valid() && p0.pendingAcks == map["0-1-hello" := {2}]
    modifies p0
    ensures p0.Valid() && p0.pendingAcks == map[]
  {
    p0.Receive(Message(Ack, "0-1-hello", "", 2, 3));
    assert p0.pendingAcks.Keys == {};
  }

  /** Gossip: peer 1 takes "hello" from its queue, delivers it, and floods it
      to every queue; a second copy is then ignored. */
  method GossipHello() {
    var queues := new G.AllQueues(3);
    var p0 := new G.Processo(0, queues);
    var p1 := new G.Processo(1, queues);
    p0.Multicast("hello");
    var hello := G.Msg(G.Payload("hello", 1, 0));
    assert queues.queues[0] == queues.queues[1] == queues.queues[2] == [hello];
    assert queues.queues == [[hello], [hello], [hello]];
    p1.RunStep();
    assert p1.lamportClock == 2 && p1.deliveredMessages == {(0, 1)};
    assert queues.queues[0] == queues.queues[2] == [hello, hello] && queues.queues[1] == [hello];
    assert queues.queues == [[hello, hello], [hello], [hello, hello]];
    p1.RunStep();
    assert p1.lamportClock == 2 && queues.queues == [[hello, hello], [], [hello, hello]];
  }
}
