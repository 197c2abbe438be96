/** The ACK-based reliable multicast of lamport_clock.py: one
    `ReliableMulticastProcess` per peer, with a Lamport clock, the ids it has
    delivered, the ACKs it still waits for, and a retransmitter. Every
    `socket.sendto` becomes an entry appended to `outbox`, and every
    `r_deliver` announcement an entry appended to `deliveries`. */
module AckMulticast {
  import opened Wrappers
  import opened LogicalClock
  import opened MessageIds

  /** The `type` field of a wire message; only DATA and ACK are acted upon. */
  datatype Kind = Data | Ack | Other(tag: string)

  /** The dictionary `_send_message` puts on the wire (lamport_clock.py:56-62). */
  datatype Message = Message(kind: Kind, messageId: string, content: string, senderId: int, lamport: int)

  /** One `sendto`: the message and the process it is addressed to
      (port `BASE_PORT + target`, so the port determines the process). */
  datatype Send = Send(target: int, msg: Message)

  /** One call of `r_deliver`: what is handed to the application. */
  datatype Delivery = Delivery(messageId: string, content: string, lamport: int)

  /** One value of `buffer_messages`. */
  datatype Buffered = Buffered(content: string, senderId: int, lamport: int)

  /** `set(range(n))`. */
  function Range(n: nat): (r: set<nat>)
    ensures forall i :: i in r <==> 0 <= i < n
  {
    if n == 0 then {} else Range(n - 1) + {n - 1}
  }

  predicate NoEmptyEntry(pending: map<string, set<nat>>) {
    forall id :: id in pending ==> pending[id] != {}
  }

  /** What holds of every entry of the table of process `pid` among `n`
      processes: its id was formatted from `key`, which names `pid` as sender
      and a timestamp no later than `clock`; the entry waits only for
      processes 0..n-1 and, when there are any, for at least one of them. */
  predicate EntryOk(pid: nat, clock: nat, n: nat, id: string, key: MessageKey, waiting: set<nat>) {
    && id == FormatId(key.senderId, key.lamport, key.content)
    && key.senderId == pid && key.lamport <= clock
    && waiting <= Range(n) && (n > 0 ==> waiting != {})
  }

  predicate TableOk(pid: nat, clock: nat, n: nat, pending: map<string, set<nat>>, keyOf: map<string, MessageKey>) {
    forall id :: id in pending ==> id in keyOf && EntryOk(pid, clock, n, id, keyOf[id], pending[id])
  }

  /** Handling an ACK keeps the table well formed, also as the clock advances. */
  lemma TableOkAfterAck(pid: nat, clock: nat, n: nat, pending: map<string, set<nat>>, keyOf: map<string, MessageKey>,
                        clock': nat, id: string, acker: int)
    requires TableOk(pid, clock, n, pending, keyOf) && clock <= clock'
    ensures TableOk(pid, clock', n, AckRemove(pending, id, acker), keyOf)
  {
  }

  /** Registering the id of the next multicast, waiting on every process,
      keeps the table well formed. */
  lemma TableOkAfterMulticast(pid: nat, clock: nat, n: nat, pending: map<string, set<nat>>, keyOf: map<string, MessageKey>,
                              content: string)
    requires TableOk(pid, clock, n, pending, keyOf)
    ensures var id := FormatId(pid, clock + 1, content);
      TableOk(pid, clock + 1, n, pending[id := Range(n)], keyOf[id := MessageKey(pid, clock + 1, content)])
  {
  }

  predicate NoDuplicates<T(==)>(s: seq<T>) {
    forall i, j :: 0 <= i < j < |s| ==> s[i] != s[j]
  }

  lemma NoDuplicatesAppend<T>(a: seq<T>, b: seq<T>)
    requires NoDuplicates(a) && NoDuplicates(b) && forall x :: x in b ==> x !in a
    ensures NoDuplicates(a + b)
  {
    forall i, j | 0 <= i < j < |a + b| ensures (a + b)[i] != (a + b)[j] {
      if j >= |a| && i < |a| {
        assert (a + b)[j] in b;
      }
    }
  }

  /** The ids that have been handed to the application. */
  function DeliveredIds(ds: seq<Delivery>): set<string> {
    set d | d in ds :: d.messageId
  }

  /** No id has been handed to the application twice. */
  predicate DeliveredOnce(ds: seq<Delivery>) {
    forall i, j :: 0 <= i < j < |ds| ==> ds[i].messageId != ds[j].messageId
  }

  /** The Lamport condition on deliveries: the clock is past the timestamp
      of every message delivered so far. */
  predicate ClockPast(ds: seq<Delivery>, clock: nat) {
    forall i :: 0 <= i < |ds| ==> ds[i].lamport < clock
  }

  /** What `_on_ack_received` does to the table (lamport_clock.py:152-159):
      the acker leaves the entry's set; an entry whose set empties is deleted;
      an unknown id or an acker not in the set changes nothing. */
  function AckRemove(pending: map<string, set<nat>>, id: string, acker: int): (r: map<string, set<nat>>)
    ensures r.Keys <= pending.Keys
    ensures forall k :: k in r ==> r[k] <= pending[k]
    ensures forall k :: k != id ==> (k in r <==> k in pending) && (k in r ==> r[k] == pending[k])
    ensures id in pending && acker in pending[id] ==>
      (id in r <==> pending[id] != {acker}) && (id in r ==> r[id] == pending[id] - {acker})
    ensures !(id in pending && acker in pending[id]) ==> r == pending
    ensures NoEmptyEntry(pending) ==> NoEmptyEntry(r)
  {
    if id in pending && acker in pending[id] then
      var rest := pending[id] - {acker};
      if rest == {} then pending - {id} else pending[id := rest]
    else pending
  }

  /** The table after ACKs for `id` from `ackers`, in arrival order. */
  function ApplyAcks(pending: map<string, set<nat>>, id: string, ackers: seq<int>): map<string, set<nat>>
    decreases |ackers|
  {
    if ackers == [] then pending else ApplyAcks(AckRemove(pending, id, ackers[0]), id, ackers[1..])
  }

  lemma {:induction false} CompletedStaysCompleted(pending: map<string, set<nat>>, id: string, ackers: seq<int>)
    requires id !in pending
    ensures ApplyAcks(pending, id, ackers) == pending
    decreases |ackers|
  {
    if ackers != [] {
      CompletedStaysCompleted(AckRemove(pending, id, ackers[0]), id, ackers[1..]);
    }
  }

  /** Ack completion: an entry disappears exactly when every process it was
      waiting for has acknowledged it; until then it waits for exactly those
      that have not; entries of other ids are untouched. */
  lemma {:induction false} AckCompletion(pending: map<string, set<nat>>, id: string, ackers: seq<int>)
    requires id in pending && pending[id] != {}
    ensures id !in ApplyAcks(pending, id, ackers) <==> pending[id] <= set a: nat | a in ackers
    ensures id in ApplyAcks(pending, id, ackers) ==>
      ApplyAcks(pending, id, ackers)[id] == pending[id] - set a: nat | a in ackers
    ensures forall k :: k != id ==> (k in ApplyAcks(pending, id, ackers) <==> k in pending)
    ensures forall k :: k != id && k in pending ==> ApplyAcks(pending, id, ackers)[k] == pending[k]
    decreases |ackers|
  {
    if ackers != [] {
      var next := AckRemove(pending, id, ackers[0]);
      var rest := ackers[1..];
      if id in next {
        AckCompletion(next, id, rest);
        var acked, acked' := set a: nat | a in ackers, set a: nat | a in rest;
        assert forall x: nat :: x in acked <==> x == ackers[0] || x in acked';
        if pending[id] <= acked {
          forall x | x in next[id] ensures x in acked' {
            assert x in pending[id] && x != ackers[0];
          }
        }
        if next[id] <= acked' {
          forall x | x in pending[id] ensures x in acked {
            if x != ackers[0] {
              assert x in next[id];
            }
          }
        }
      } else {
        CompletedStaysCompleted(next, id, rest);
      }
    }
  }

  /** `s` re-sends entry `s.msg.messageId` of `pending` at process `pid`, the
      id having been parsed into `key`: the entry still waits for the target,
      `key` names `pid` as sender, and the message repeats the id with the
      parsed content and timestamp. */
  predicate ResendsEntry(pid: nat, pending: map<string, set<nat>>, key: MessageKey, s: Send) {
    var id := s.msg.messageId;
    && id in pending
    && s.target in pending[id]
    && key.senderId == pid
    && s.msg == Message(Data, id, key.content, pid, key.lamport)
  }

  /** A DATA re-send the retransmitter emits for table `pending` at process
      `pid` (lamport_clock.py:166-178), with the id parsed as the source does. */
  predicate IsRetransmission(pid: nat, pending: map<string, set<nat>>, s: Send) {
    ParseId(s.msg.messageId).Some? && ResendsEntry(pid, pending, ParseId(s.msg.messageId).value, s)
  }

  /** In a well-formed table, parsing an id gives back the key it was formatted from. */
  lemma RetransmissionByKey(pid: nat, clock: nat, n: nat, pending: map<string, set<nat>>, keyOf: map<string, MessageKey>, s: Send)
    requires TableOk(pid, clock, n, pending, keyOf)
    ensures IsRetransmission(pid, pending, s)
      <==> s.msg.messageId in pending && ResendsEntry(pid, pending, keyOf[s.msg.messageId], s)
  {
    var id := s.msg.messageId;
    if id in pending {
      var key := keyOf[id];
      assert EntryOk(pid, clock, n, id, key, pending[id]);
      ParseFormatId(key.senderId, key.lamport, key.content);
    }
  }

  /** A retransmission of a multicast is the very DATA message `r_multicast`
      sent: same id, content, sender and timestamp; no new timestamp is minted. */
  lemma RetransmissionRepeatsOriginal(pid: nat, ts: nat, content: string, pending: map<string, set<nat>>, s: Send)
    requires FormatId(pid, ts, content) in pending
    ensures IsRetransmission(pid, pending, s) && s.msg.messageId == FormatId(pid, ts, content)
      <==> s.target in pending[FormatId(pid, ts, content)]
           && s.msg == Message(Data, FormatId(pid, ts, content), content, pid, ts)
  {
    ParseFormatId(pid, ts, content);
  }

  class ReliableMulticastProcess {
    const processId: nat
    const totalProcesses: nat
    var lamportClock: nat
    var deliveredMessages: set<string>
    /** For each own id, the processes that have not acknowledged it yet. */
    var pendingAcks: map<string, set<nat>>
    /** Written on every first delivery and never read. */
    ghost var bufferMessages: map<string, Buffered>
    /** The sender, timestamp and content each minted id was formatted from. */
    ghost var keyOf: map<string, MessageKey>
    /** Every message handed to the socket, oldest first. */
    var outbox: seq<Send>
    /** Every `r_deliver` call, oldest first. */
    var deliveries: seq<Delivery>

    ghost predicate Valid()
      reads this`lamportClock, this`pendingAcks, this`keyOf, this`deliveries, this`deliveredMessages, this`bufferMessages
    {
      && TableOk(processId, lamportClock, totalProcesses, pendingAcks, keyOf)
      && DeliveredOnce(deliveries)
      && ClockPast(deliveries, lamportClock)
      && DeliveredIds(deliveries) == deliveredMessages
      && bufferMessages.Keys == deliveredMessages
    }

    /** `__init__` without the socket and the two threads. */
    constructor (processId: nat, totalProcesses: nat)
      ensures Valid()
      ensures this.processId == processId && this.totalProcesses == totalProcesses
      ensures lamportClock == 0 && deliveredMessages == {} && pendingAcks == map[]
      ensures outbox == [] && deliveries == []
    {
      this.processId := processId;
      this.totalProcesses := totalProcesses;
      lamportClock := 0;
      deliveredMessages := {};
      pendingAcks := map[];
      bufferMessages := map[];
      keyOf := map[];
      outbox := [];
      deliveries := [];
    }

    /** `_increment_lamport_clock`: a local event. */
    method IncrementClock() returns (v: nat)
      modifies this`lamportClock
      ensures lamportClock == old(lamportClock) + 1 && v == lamportClock
    {
      lamportClock := lamportClock + 1;
      v := lamportClock;
    }

    /** `_update_lamport_clock`: the receive rule. */
    method UpdateClock(received: int) returns (v: nat)
      modifies this`lamportClock
      ensures lamportClock == Advance(old(lamportClock), received) && v == lamportClock
      ensures lamportClock > old(lamportClock) && lamportClock > received
    {
      lamportClock := Advance(lamportClock, received);
      v := lamportClock;
    }

    /** `_send_message`: the message goes to the end of the outbox. */
    method SendMessage(kind: Kind, messageId: string, content: string, senderId: int, lamport: int, target: int)
      modifies this`outbox
      ensures outbox == old(outbox) + [Send(target, Message(kind, messageId, content, senderId, lamport))]
    {
      outbox := outbox + [Send(target, Message(kind, messageId, content, senderId, lamport))];
    }

    /** `r_multicast`: one tick, a fresh id from the new clock, every process
        pending, and one DATA to each process 0..N-1 in turn. */
    method RMulticast(content: string)
      requires Valid()
      modifies this
      ensures Valid()
      ensures lamportClock == old(lamportClock) + 1
      ensures FormatId(processId, lamportClock, content) !in old(pendingAcks)
      ensures pendingAcks == old(pendingAcks)[FormatId(processId, lamportClock, content) := Range(totalProcesses)]
      ensures |outbox| == |old(outbox)| + totalProcesses && outbox[..|old(outbox)|] == old(outbox)
      ensures forall i :: 0 <= i < totalProcesses ==>
        outbox[|old(outbox)| + i]
          == Send(i, Message(Data, FormatId(processId, lamportClock, content), content, processId, lamportClock))
      ensures deliveredMessages == old(deliveredMessages) && deliveries == old(deliveries)
    {
      var ts := IncrementClock();
      var messageId := FormatId(processId, ts, content);
      assert messageId !in pendingAcks by {
        if messageId in pendingAcks {
          var key := keyOf[messageId];
          assert EntryOk(processId, ts - 1, totalProcesses, messageId, key, pendingAcks[messageId]);
          FormatIdInjective(processId, ts, content, key.senderId, key.lamport, key.content);
        }
      }
      TableOkAfterMulticast(processId, ts - 1, totalProcesses, pendingAcks, keyOf, content);
      pendingAcks := pendingAcks[messageId := Range(totalProcesses)];
      keyOf := keyOf[messageId := MessageKey(processId, ts, content)];
      SendToAll(messageId, content, ts);
    }

    /** The sending loop of `r_multicast` (lamport_clock.py:86-88): one DATA
        message to each process 0..N-1, in that order. */
    method SendToAll(messageId: string, content: string, ts: nat)
      modifies this`outbox
      ensures |outbox| == |old(outbox)| + totalProcesses && outbox[..|old(outbox)|] == old(outbox)
      ensures forall i :: 0 <= i < totalProcesses ==>
        outbox[|old(outbox)| + i] == Send(i, Message(Data, messageId, content, processId, ts))
    {
      var i := 0;
      while i < totalProcesses
        invariant 0 <= i <= totalProcesses
        invariant |outbox| == |old(outbox)| + i && outbox[..|old(outbox)|] == old(outbox)
        invariant forall j :: 0 <= j < i ==>
          outbox[|old(outbox)| + j] == Send(j, Message(Data, messageId, content, processId, ts))
      {
        SendMessage(Data, messageId, content, processId, ts, i);
        i := i + 1;
      }
    }

    /** `r_deliver`: the receive rule once more, then the hand-over. */
    method RDeliver(messageId: string, content: string, lamport: int)
      modifies this`lamportClock, this`deliveries
      ensures lamportClock == Advance(old(lamportClock), lamport)
      ensures deliveries == old(deliveries) + [Delivery(messageId, content, lamport)]
    {
      var _ := UpdateClock(lamport);
      deliveries := deliveries + [Delivery(messageId, content, lamport)];
    }

    /** The effect of one DATA receipt (lamport_clock.py:118-145): a new id is
        recorded and delivered, with the clock advanced twice; a known id only
        advances the clock once. Either way exactly one ACK goes back to the
        sender, stamped with the clock as it then is. */
    twostate predicate DataHandled(messageId: string, content: string, senderId: int, lamport: int)
      reads this
    {
      && pendingAcks == old(pendingAcks)
      && (if messageId in old(deliveredMessages) then
            && lamportClock == Advance(old(lamportClock), lamport)
            && deliveredMessages == old(deliveredMessages)
            && deliveries == old(deliveries)
          else
            && lamportClock == Advance(Advance(old(lamportClock), lamport), lamport)
            && deliveredMessages == old(deliveredMessages) + {messageId}
            && deliveries == old(deliveries) + [Delivery(messageId, content, lamport)])
      && outbox == old(outbox) + [Send(senderId, Message(Ack, messageId, "", processId, lamportClock))]
    }

    /** `_on_message_received`. */
    method OnMessageReceived(messageId: string, content: string, senderId: int, lamport: int)
      requires Valid()
      modifies this
      ensures Valid()
      ensures DataHandled(messageId, content, senderId, lamport)
      ensures lamportClock > old(lamportClock) && lamportClock > lamport
      ensures messageId !in old(deliveredMessages) ==> lamportClock >= lamport + 2
    {
      var _ := UpdateClock(lamport);
      if messageId !in deliveredMessages {
        deliveredMessages := deliveredMessages + {messageId};
        bufferMessages := bufferMessages[messageId := Buffered(content, senderId, lamport)];
        RDeliver(messageId, content, lamport);
        assert DeliveredIds(deliveries) == DeliveredIds(old(deliveries)) + {messageId};
        SendMessage(Ack, messageId, "", processId, lamportClock, senderId);
      } else {
        SendMessage(Ack, messageId, "", processId, lamportClock, senderId);
      }
    }

    /** The effect of one ACK receipt (lamport_clock.py:147-159): one tick,
        whatever the id, and the table updated by `AckRemove`. */
    twostate predicate AckHandled(messageId: string, ackSenderId: int)
      reads this
    {
      && lamportClock == old(lamportClock) + 1
      && pendingAcks == AckRemove(old(pendingAcks), messageId, ackSenderId)
      && deliveredMessages == old(deliveredMessages)
      && deliveries == old(deliveries)
      && outbox == old(outbox)
    }

    /** `_on_ack_received`. */
    method OnAckReceived(messageId: string, ackSenderId: int)
      requires Valid()
      modifies this
      ensures Valid()
      ensures AckHandled(messageId, ackSenderId)
    {
      var _ := IncrementClock();
      var table := pendingAcks;
      if messageId in table && ackSenderId in table[messageId] {
        table := table[messageId := table[messageId] - {ackSenderId}];
        if table[messageId] == {} {
          table := table - {messageId};
        }
      }
      assert table == AckRemove(old(pendingAcks), messageId, ackSenderId);
      TableOkAfterAck(processId, old(lamportClock), totalProcesses, old(pendingAcks), keyOf, lamportClock, messageId, ackSenderId);
      pendingAcks := table;
    }

    /** The dispatch of `_listen_for_messages` (lamport_clock.py:101-110) on a
        decoded message; a message of any other type is dropped. */
    method Receive(m: Message)
      requires Valid()
      modifies this
      ensures Valid()
      ensures m.kind == Data ==> DataHandled(m.messageId, m.content, m.senderId, m.lamport)
      ensures m.kind == Ack ==> AckHandled(m.messageId, m.senderId)
      ensures m.kind.Other? ==> unchanged(this)
    {
      if m.kind == Data {
        OnMessageReceived(m.messageId, m.content, m.senderId, m.lamport);
      } else if m.kind == Ack {
        OnAckReceived(m.messageId, m.senderId);
      }
    }

    /** The inner loop of a retransmit pass (lamport_clock.py:175-178): the
        same DATA message to each of `targets`, once each, in some order. */
    method SendToEach(messageId: string, content: string, senderId: int, lamport: int, targets: set<nat>)
      modifies this`outbox
      ensures |outbox| >= |old(outbox)| && outbox[..|old(outbox)|] == old(outbox)
      ensures forall s :: s in outbox[|old(outbox)|..] <==>
        s.target in targets && s.msg == Message(Data, messageId, content, senderId, lamport)
      ensures NoDuplicates(outbox[|old(outbox)|..])
    {
      ghost var start := |outbox|;
      var rest := targets;
      ghost var sent: set<nat> := {};
      while rest != {}
        invariant rest !! sent && rest + sent == targets
        invariant |outbox| >= start && outbox[..start] == old(outbox)
        invariant forall s :: s in outbox[start..] <==>
          s.target in sent && s.msg == Message(Data, messageId, content, senderId, lamport)
        invariant NoDuplicates(outbox[start..])
        decreases rest
      {
        var target :| target in rest;
        rest := rest - {target};
        ghost var before := outbox[start..];
        SendMessage(Data, messageId, content, senderId, lamport, target);
        assert outbox[start..] == before + [Send(target, Message(Data, messageId, content, senderId, lamport))];
        sent := sent + {target};
      }
    }

    /** The body of a retransmit pass for one id (lamport_clock.py:167-178):
        an entry still waiting whose id parses to this process as sender is
        re-sent, as the DATA message the id was formatted from, to each process
        still pending; any other entry sends nothing. */
    method RetransmitEntry(messageId: string)
      requires Valid() && messageId in pendingAcks
      modifies this`outbox
      ensures |outbox| >= |old(outbox)| && outbox[..|old(outbox)|] == old(outbox)
      ensures forall s :: s in outbox[|old(outbox)|..] <==>
        s.msg.messageId == messageId && ResendsEntry(processId, pendingAcks, keyOf[messageId], s)
      ensures NoDuplicates(outbox[|old(outbox)|..])
    {
      ghost var entryKey := keyOf[messageId];
      if pendingAcks[messageId] != {} {
        assert EntryOk(processId, lamportClock, totalProcesses, messageId, entryKey, pendingAcks[messageId]);
        ParseFormatId(entryKey.senderId, entryKey.lamport, entryKey.content);
        var key := ParseId(messageId).value;
        if key.senderId == processId {
          SendToEach(messageId, key.content, key.senderId, key.lamport, pendingAcks[messageId]);
        }
      }
    }

    /** One pass of `_retransmit_messages`' loop (lamport_clock.py:166-178):
        every pending entry is visited once. Sends exactly the retransmissions,
        each once, in some order, and changes nothing but the outbox. */
    method RetransmitPass()
      requires Valid()
      modifies this`outbox
      ensures Valid()
      ensures |outbox| >= |old(outbox)| && outbox[..|old(outbox)|] == old(outbox)
      ensures forall s :: s in outbox[|old(outbox)|..] <==> IsRetransmission(processId, pendingAcks, s)
      ensures NoDuplicates(outbox[|old(outbox)|..])
    {
      ghost var start := |outbox|;
      var keys := pendingAcks.Keys;
      ghost var done: set<string> := {};
      while keys != {}
        invariant keys !! done && keys + done == pendingAcks.Keys
        invariant |outbox| >= start && outbox[..start] == old(outbox)
        invariant forall s :: s in outbox[start..] <==>
          s.msg.messageId in done && ResendsEntry(processId, pendingAcks, keyOf[s.msg.messageId], s)
        invariant NoDuplicates(outbox[start..])
        decreases keys
      {
        var messageId :| messageId in keys;
        keys := keys - {messageId};
        ghost var before := outbox[start..];
        ghost var mid := |outbox|;
        RetransmitEntry(messageId);
        assert outbox[start..] == before + outbox[mid..];
        NoDuplicatesAppend(before, outbox[mid..]);
        done := done + {messageId};
      }
      forall s ensures s in outbox[start..] <==> IsRetransmission(processId, pendingAcks, s) {
        RetransmissionByKey(processId, lamportClock, totalProcesses, pendingAcks, keyOf, s);
      }
    }
  }
}
