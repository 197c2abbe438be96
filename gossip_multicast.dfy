/** The gossip (flooding) reliable multicast of reliable_multicast_lamport.py:
    one `Processo` per peer, all sharing one list of FIFO queues. A process
    delivers a message the first time it sees its `(original_sender,
    timestamp)` pair and then floods it to every queue, its own included. */
module GossipMulticast {
  import opened Wrappers
  import opened LogicalClock

  /** The message dictionary built by `multicast` (lines 82-86). */
  datatype Payload = Payload(content: string, timestamp: int, originalSender: int)

  /** What a queue holds: a message, or the control dictionary `{'type': 'STOP'}`. */
  datatype Item = Msg(payload: Payload) | StopMessage

  /** `(original_sender, timestamp)`: a message's identity (line 41). */
  function KeyOf(p: Payload): (int, int) {
    (p.originalSender, p.timestamp)
  }

  /** `after` is `before` with `item` put at the end of every queue. */
  predicate AppendedToAll(before: seq<seq<Item>>, after: seq<seq<Item>>, item: Item) {
    |after| == |before| && forall i :: 0 <= i < |before| ==> after[i] == before[i] + [item]
  }

  /** What one process's receive handler reads and writes: its clock, its
      delivered pairs, and the shared queues. */
  datatype View = View(clock: nat, delivered: set<(int, int)>, queues: seq<seq<Item>>)

  /** `handle_receive` (lines 36-65): a known pair changes nothing; a new one
      advances the clock by the receive rule, is recorded, and is flooded. */
  function Receive(v: View, p: Payload): (w: View)
    ensures KeyOf(p) in v.delivered ==> w == v
    ensures KeyOf(p) !in v.delivered ==>
      && w.clock == Advance(v.clock, p.timestamp)
      && w.delivered == v.delivered + {KeyOf(p)}
      && AppendedToAll(v.queues, w.queues, Msg(p))
  {
    if KeyOf(p) in v.delivered then v
    else
      var queues := seq(|v.queues|, i requires 0 <= i < |v.queues| => v.queues[i] + [Msg(p)]);
      View(Advance(v.clock, p.timestamp), v.delivered + {KeyOf(p)}, queues)
  }

  /** The state after handling `ps` in order. */
  function ReceiveAll(v: View, ps: seq<Payload>): View
    decreases |ps|
  {
    if ps == [] then v else ReceiveAll(Receive(v, ps[0]), ps[1..])
  }

  /** The pairs re-flooded while handling `ps` in order, one per flood. */
  function Floods(v: View, ps: seq<Payload>): seq<(int, int)>
    decreases |ps|
  {
    if ps == [] then []
    else
      var flooded := if KeyOf(ps[0]) in v.delivered then [] else [KeyOf(ps[0])];
      flooded + Floods(Receive(v, ps[0]), ps[1..])
  }

  /** Over any sequence of receipts a process floods each pair at most once,
      never one it had already delivered, its delivered set only grows, and
      it grows by exactly the flooded pairs. */
  lemma {:induction false} FloodsAtMostOnce(v: View, ps: seq<Payload>)
    ensures forall i, j :: 0 <= i < j < |Floods(v, ps)| ==> Floods(v, ps)[i] != Floods(v, ps)[j]
    ensures forall k :: k in Floods(v, ps) ==> k !in v.delivered
    ensures ReceiveAll(v, ps).delivered == v.delivered + set k | k in Floods(v, ps)
    decreases |ps|
  {
    if ps != [] {
      var w := Receive(v, ps[0]);
      FloodsAtMostOnce(w, ps[1..]);
      var head := if KeyOf(ps[0]) in v.delivered then [] else [KeyOf(ps[0])];
      var tail := Floods(w, ps[1..]);
      assert Floods(v, ps) == head + tail;
      assert forall k :: k in tail ==> k !in w.delivered;
      assert (set k | k in head + tail) == (set k | k in head) + (set k | k in tail);
    }
  }

  /** Handling `ps` and then `q` is handling `ps + [q]`. */
  lemma {:induction false} ReceiveAllAppend(v: View, ps: seq<Payload>, q: Payload)
    ensures ReceiveAll(v, ps + [q]) == Receive(ReceiveAll(v, ps), q)
    decreases |ps|
  {
    if ps == [] {
      assert [] + [q] == [q];
    } else {
      assert (ps + [q])[0] == ps[0];
      assert (ps + [q])[1..] == ps[1..] + [q];
      ReceiveAllAppend(Receive(v, ps[0]), ps[1..], q);
    }
  }

  /** After handling `ps`, the pair of every message in `ps` is delivered,
      and nothing delivered before is forgotten. */
  lemma {:induction false} ReceiveAllDelivers(v: View, ps: seq<Payload>)
    ensures v.delivered <= ReceiveAll(v, ps).delivered
    ensures forall i :: 0 <= i < |ps| ==> KeyOf(ps[i]) in ReceiveAll(v, ps).delivered
    decreases |ps|
  {
    if ps != [] {
      var w := Receive(v, ps[0]);
      ReceiveAllDelivers(w, ps[1..]);
      assert forall i :: 1 <= i < |ps| ==> ps[i] == ps[1..][i - 1];
    }
  }

  /** Identity is the pair alone (line 41): a later copy of an already
      handled pair, whatever its content, changes nothing. */
  lemma LaterCopyIgnored(v: View, ps: seq<Payload>, q: Payload)
    requires exists i :: 0 <= i < |ps| && KeyOf(ps[i]) == KeyOf(q)
    ensures ReceiveAll(v, ps + [q]) == ReceiveAll(v, ps)
  {
    ReceiveAllAppend(v, ps, q);
    ReceiveAllDelivers(v, ps);
  }

  /** A Lamport clock ahead of the timestamp of every message delivered so
      far; a fresh process (clock 0, nothing delivered) satisfies it. */
  predicate ClockAhead(v: View) {
    forall k :: k in v.delivered ==> v.clock > k.1
  }

  /** Handling any sequence of receipts keeps the clock ahead of everything
      delivered, and never moves it back. */
  lemma {:induction false} ReceiveAllKeepsClockAhead(v: View, ps: seq<Payload>)
    requires ClockAhead(v)
    ensures ClockAhead(ReceiveAll(v, ps))
    ensures ReceiveAll(v, ps).clock >= v.clock
    decreases |ps|
  {
    if ps != [] {
      var w := Receive(v, ps[0]);
      assert w.clock >= v.clock;
      assert ClockAhead(w);
      ReceiveAllKeepsClockAhead(w, ps[1..]);
    }
  }

  /** The list of queues `all_queues`, one FIFO `queue.Queue` per process,
      shared by every process. */
  class AllQueues {
    var queues: seq<seq<Item>>

    /** `[queue.Queue() for _ in range(n)]`. */
    constructor (n: nat)
      ensures |queues| == n && forall i :: 0 <= i < n ==> queues[i] == []
    {
      queues := seq(n, _ => []);
    }

    /** `all_queues[i].put(item)`. */
    method Put(i: nat, item: Item)
      requires i < |queues|
      modifies this
      ensures queues == old(queues)[i := old(queues)[i] + [item]]
    {
      queues := queues[i := queues[i] + [item]];
    }

    /** `all_queues[i].get(timeout=0.1)`: the oldest item, or `None` where
        Python raises `queue.Empty` on an empty queue. */
    method Get(i: nat) returns (r: Option<Item>)
      requires i < |queues|
      modifies this
      ensures old(queues)[i] == [] ==> r == None && queues == old(queues)
      ensures old(queues)[i] != [] ==>
        r == Some(old(queues)[i][0]) && queues == old(queues)[i := old(queues)[i][1..]]
    {
      if queues[i] == [] {
        r := None;
      } else {
        r := Some(queues[i][0]);
        queues := queues[i := queues[i][1..]];
      }
    }
  }

  class Processo {
    const id: nat
    const allQueues: AllQueues
    var lamportClock: nat
    var deliveredMessages: set<(int, int)>
    var running: bool

    ghost function Snapshot(): View
      reads this, allQueues
    {
      View(lamportClock, deliveredMessages, allQueues.queues)
    }

    /** The own queue `all_queues[id]` exists, and the clock is past the
        timestamp of every pair delivered so far. */
    ghost predicate Valid()
      reads this, allQueues
    {
      id < |allQueues.queues| && ClockAhead(Snapshot())
    }

    /** `__init__`; `self.all_queues[self.id]` must exist. */
    constructor (processId: nat, allQueues: AllQueues)
      requires processId < |allQueues.queues|
      ensures id == processId && this.allQueues == allQueues
      ensures lamportClock == 0 && deliveredMessages == {} && running
      ensures Valid()
    {
      id := processId;
      this.allQueues := allQueues;
      lamportClock := 0;
      deliveredMessages := {};
      running := true;
    }

    /** `_tick`: a local event. */
    method Tick()
      modifies this`lamportClock
      ensures lamportClock == old(lamportClock) + 1
    {
      lamportClock := lamportClock + 1;
    }

    /** `_basic_multicast`: `put` on every queue in index order. */
    method BasicMulticast(item: Item)
      modifies allQueues
      ensures AppendedToAll(old(allQueues.queues), allQueues.queues, item)
    {
      var n := |allQueues.queues|;
      var i := 0;
      while i < n
        invariant 0 <= i <= n && |allQueues.queues| == n
        invariant forall j :: 0 <= j < i ==> allQueues.queues[j] == old(allQueues.queues)[j] + [item]
        invariant forall j :: i <= j < n ==> allQueues.queues[j] == old(allQueues.queues)[j]
      {
        allQueues.Put(i, item);
        i := i + 1;
      }
    }

    /** `multicast`: one tick, then the message stamped with the new clock and
        this process as original sender goes to every queue, its own included. */
    method Multicast(content: string)
      requires Valid()
      modifies this, allQueues
      ensures Valid()
      ensures lamportClock == old(lamportClock) + 1
      ensures AppendedToAll(old(allQueues.queues), allQueues.queues, Msg(Payload(content, lamportClock, id)))
      ensures deliveredMessages == old(deliveredMessages) && running == old(running)
    {
      Tick();
      var message := Payload(content, lamportClock, id);
      BasicMulticast(Msg(message));
    }

    /** `handle_receive`. */
    method HandleReceive(message: Payload)
      requires Valid()
      modifies this, allQueues
      ensures Valid()
      ensures Snapshot() == Receive(old(Snapshot()), message)
      ensures running == old(running)
    {
      var key := KeyOf(message);
      if key in deliveredMessages {
        return;
      }
      lamportClock := Advance(lamportClock, message.timestamp);
      deliveredMessages := deliveredMessages + {key};
      BasicMulticast(Msg(message));
    }

    /** `stop`: the STOP control message goes to this process's own queue. */
    method Stop()
      requires Valid()
      modifies allQueues
      ensures Valid()
      ensures allQueues.queues == old(allQueues.queues)[id := old(allQueues.queues)[id] + [StopMessage]]
    {
      allQueues.Put(id, StopMessage);
    }

    /** One turn of `run`'s loop (lines 103-117): nothing once `running` is
        false; otherwise one `get` from the own queue: an empty queue changes
        nothing, STOP clears `running` without handling, anything else is
        handed to `handle_receive`. */
    method RunStep()
      requires Valid()
      modifies this, allQueues
      ensures Valid()
      ensures !old(running) || old(allQueues.queues)[id] == [] ==>
        unchanged(this) && allQueues.queues == old(allQueues.queues)
      ensures old(running) && old(allQueues.queues)[id] != [] ==>
        var dequeued := old(allQueues.queues)[id := old(allQueues.queues)[id][1..]];
        match old(allQueues.queues)[id][0]
        case StopMessage =>
          && !running && lamportClock == old(lamportClock) && deliveredMessages == old(deliveredMessages)
          && allQueues.queues == dequeued
        case Msg(p) =>
          && running
          && Snapshot() == Receive(View(old(lamportClock), old(deliveredMessages), dequeued), p)
    {
      if !running {
        return;
      }
      var message := allQueues.Get(id);
      match message
      case None =>
      case Some(StopMessage) =>
        running := false;
      case Some(Msg(p)) =>
        HandleReceive(p);
    }
  }
}
