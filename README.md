# Lamport clocks on reliable multicast: a Dafny model

The repository simulates two reliable-multicast protocols in which every
process keeps a Lamport logical clock. This project models the per-process
state machines of both and proves their properties.

* **ACK-based multicast** (`lamport_clock.py`, class `ReliableMulticastProcess`).
  - `r_multicast` ticks the clock and mints the id `"<pid>-<ts>-<content>"`.
    It records every process 0..N-1 as still owing an ACK, then sends DATA to
    each of them.
  - On a DATA message the receiver applies the receive rule `max(clock, ts) + 1`.
    The first copy of an id is recorded and delivered; `r_deliver` applies the
    rule a second time. Every copy, new or duplicate, is answered with an ACK
    to the sender.
  - On an ACK the sender ticks its clock and crosses the acker off the entry.
    An entry with nobody left is deleted.
  - A retransmitter periodically takes each waiting id apart again with
    `split('-', 2)` and `int()`. It re-sends the DATA to each process still
    pending, but only for its own messages.
* **Gossip multicast** (`reliable_multicast_lamport.py`, class `Processo`).
  - Every process owns one FIFO queue in a list that all processes share.
  - `multicast` ticks the clock. It puts `{content, timestamp, original_sender}`
    on every queue, the sender's own included.
  - A receiver identifies a message by `(original_sender, timestamp)`. The
    first time it sees a pair it applies the receive rule, records the pair and
    floods the message to every queue. Later copies are ignored.
  - `stop` puts a STOP control message on the process's own queue. One turn of
    `run` takes one item from that queue.

Files:

* `logical_clock.dfy` (module `LogicalClock`): the receive rule.
* `message_ids.dfy` (module `MessageIds`): the parts of the id format and parse
  that come from Python's built-ins, written out: `str` on a non-negative int,
  `int` on a digit string, and `str.split` with `maxsplit`. Also the round trip
  between formatting and parsing.
* `ack_multicast.dfy` (module `AckMulticast`): class `ReliableMulticastProcess`.
  It has the source's fields, plus:
  - `outbox`, every message handed to the socket;
  - `deliveries`, every `r_deliver` call;
  - a ghost `keyOf`, recording what each pending id was formatted from.
  Its invariant `Valid` says:
  - every pending id is an own, well-formed id no later than the clock, and
    waits only on processes 0..N-1;
  - no id is delivered twice;
  - the clock is past every delivered timestamp;
  - `delivered_messages` is exactly the set of ids delivered.
  `r_multicast`, both handlers, the dispatch and the retransmit pass preserve `Valid`.
* `gossip_multicast.dfy` (module `GossipMulticast`): the shared queues as class
  `AllQueues`, and class `Processo`. The invariant `Processo.Valid` says that the
  process's index names one of the shared queues and that its clock is past the
  timestamp of every delivered pair; every method that handles or sends keeps it.
  The receive handler is specified by a
  function on a `View` (clock, delivered pairs, queues), so that lemmas can
  speak about whole sequences of receipts.
* `scenarios.dfy` (module `Scenarios`): three peers, with peer 0 multicasting
  "hello". The walk-throughs are:
  - the first delivery and a duplicate;
  - a lost ACK, the retransmission it causes, and the late ACK that completes
    the entry;
  - an ACK whose timestamp the receiver ignores;
  - one gossip flood.
  Each is derived from the contracts above.
* `wrappers.dfy` (module `Wrappers`): `Option`.

The id is `"<pid>-<ts>-<content>"`, as both the comment on `pending_acks`
(`lamport_clock.py:25`) and the f-string in `r_multicast` (`lamport_clock.py:74`)
give it; the content is included to make ids more unique. The model follows the
code in three places where it differs from the textbook protocol:

* A first delivery advances the clock twice, once on receipt and once in
  `r_deliver`.
* An ACK ticks the clock even when its id is unknown.
* An ACK's own `lamport` field is read (`lamport_clock.py:105`) but never used
  by the ACK handler (`lamport_clock.py:110`, `:150`), which only ticks, so
  afterwards the clock need not exceed the ACK's timestamp. A fresh process that receives an ACK stamped 10 ends at
  clock 1 (`Scenarios.AckTimestampIgnored`).

## Model

| member | source | states |
|---|---|---|
| LogicalClock.Advance | lamport_clock.py:51-53 | the receive rule `max(clock, received) + 1` is strictly above both the old clock and the received timestamp, and is one more than one of them |
| MessageIds.NatToDecimal | lamport_clock.py:74 | `str(n)` for a process id or timestamp is a non-empty string of digits with no '-' and no leading zero |
| MessageIds.DecimalRoundTrip | lamport_clock.py:170-171 | `int(str(n)) == n`: the digits written into an id parse back to the same number |
| MessageIds.IndexOf | lamport_clock.py:169 | the position where `split` cuts is the first occurrence of the separator, or there is none |
| MessageIds.Split | lamport_clock.py:169 | `split(sep, k)` yields 1 to k+1 parts that join back to the string; no part but the last holds the separator, and the last holds none when fewer than k cuts were made |
| MessageIds.ParseDecimal | lamport_clock.py:170-171 | `int(s)` succeeds exactly on a non-empty string of ASCII digits, and then `str(int(s)) == s` whenever `s` has no leading zero |
| MessageIds.CanonicalDecimalRoundTrip | lamport_clock.py:170-171 | a digit string with no leading zero is what `str` writes for the number it denotes |
| MessageIds.ParseIdSound | lamport_clock.py:169-171 | `ParseId`, the unpacking of `split('-', 2)` into three parts followed by `int` on the first two: when it succeeds, the id is `a-b-content` with `a` and `b` non-empty digit strings free of '-', and the key holds their values and the rest |
| MessageIds.ParseIdNeedsTwoDashes | lamport_clock.py:169 | the unpacking into three names raises `ValueError` (the parse yields nothing) unless the id holds at least two '-' |
| MessageIds.SplitAfterHead | lamport_clock.py:169 | splitting at a separator the head does not contain gives the head, then the split of the rest with one cut fewer |
| MessageIds.ParseFormatId | lamport_clock.py:169-171 | splitting an id minted by `r_multicast` with `split('-', 2)` and applying `int` to the first two parts gives back the sender, timestamp and content, also when the content contains '-' |
| MessageIds.FormatIdInjective | lamport_clock.py:74 | `FormatId`, the f-string `f"{pid}-{ts}-{content}"`: two ids are equal only if they have the same sender, timestamp and content |
| AckMulticast.Range | lamport_clock.py:81 | `set(range(n))` holds exactly 0..n-1 |
| AckMulticast.TableOkAfterMulticast | lamport_clock.py:74-81 | registering a new id, formatted from the next clock value, with waiting set 0..N-1 keeps the table invariant |
| AckMulticast.AckRemove | lamport_clock.py:152-159 | an ACK from a process that is still waiting removes that process; the entry is deleted exactly when that empties it. An unknown id or acker leaves the table unchanged, no other entry changes, and no empty entry appears |
| AckMulticast.TableOkAfterAck | lamport_clock.py:147-159 | handling an ACK, which also advances the clock, keeps the table invariant |
| AckMulticast.CompletedStaysCompleted | lamport_clock.py:152 | ACKs for an id that is not pending change nothing |
| AckMulticast.AckCompletion | lamport_clock.py:147-159 | after any sequence of ACKs for a pending id, the entry is gone iff every process it waited for has acked; if it remains, it waits for exactly the processes that have not acked; other entries are unchanged |
| AckMulticast.RetransmissionByKey | lamport_clock.py:166-173 | in a well-formed table, the parse the retransmitter does recovers, for each pending id, exactly the key the id was formatted from |
| AckMulticast.RetransmissionRepeatsOriginal | lamport_clock.py:169-178 | a retransmission of a multicast is the very DATA message `r_multicast` sent (same id, content, sender and timestamp), addressed to a process still pending, and every such message is a retransmission |
| AckMulticast.ReliableMulticastProcess.constructor | lamport_clock.py:15-30 | a new process has clock 0, nothing delivered, nothing pending, and satisfies the invariant |
| AckMulticast.ReliableMulticastProcess.IncrementClock | lamport_clock.py:47-49 | the clock rises by exactly one and the new value is returned |
| AckMulticast.ReliableMulticastProcess.UpdateClock | lamport_clock.py:51-53 | the clock becomes `max(old, received) + 1`, above both, and the new value is returned |
| AckMulticast.ReliableMulticastProcess.SendMessage | lamport_clock.py:55-66 | exactly one message with the given fields, addressed to the target, is appended to the outbox |
| AckMulticast.ReliableMulticastProcess.RMulticast | lamport_clock.py:68-88 | the clock ticks once; the id is formatted from the new clock and was not pending before; its entry is exactly 0..N-1; exactly N DATA messages follow, the i-th to process i, all with that id, this sender and that timestamp; nothing is delivered |
| AckMulticast.ReliableMulticastProcess.SendToAll | lamport_clock.py:86-88 | exactly N messages are appended, the i-th being the DATA to process i |
| AckMulticast.ReliableMulticastProcess.RDeliver | lamport_clock.py:90-93 | the receive rule is applied once more and exactly one delivery is recorded |
| AckMulticast.ReliableMulticastProcess.OnMessageReceived | lamport_clock.py:118-145 | a new id is recorded and delivered exactly once, with the clock advanced twice (at least timestamp + 2); a known id advances the clock once and delivers nothing; either way exactly one ACK, with this id and this process as sender, goes to the sender, stamped with the clock at that moment; the table is unchanged |
| AckMulticast.ReliableMulticastProcess.OnAckReceived | lamport_clock.py:147-159 | the clock rises by exactly one, whatever the id; the table changes as `AckRemove` says; nothing is delivered or sent |
| AckMulticast.ReliableMulticastProcess.Receive | lamport_clock.py:101-110 | DATA goes to the DATA handler, ACK to the ACK handler, any other type changes nothing |
| AckMulticast.ReliableMulticastProcess.SendToEach | lamport_clock.py:175-178 | the same DATA message goes to each target once, in some order, and nothing else is sent |
| AckMulticast.ReliableMulticastProcess.RetransmitEntry | lamport_clock.py:167-178 | for one id: if the entry still waits and its parsed sender is this process, the original DATA goes to each process still pending; otherwise nothing is sent |
| AckMulticast.ReliableMulticastProcess.RetransmitPass | lamport_clock.py:166-178 | the messages sent are exactly the retransmissions of the current table, each once; the clock, the table and the deliveries stay unchanged, because only the outbox is in the frame |
| GossipMulticast.Receive | reliable_multicast_lamport.py:36-65 | a pair already delivered changes nothing (clock, set, queues); a new pair sets the clock to `max(clock, ts) + 1`, is added to the delivered set, and the identical message is appended to every queue |
| GossipMulticast.FloodsAtMostOnce | reliable_multicast_lamport.py:40-52 | over any sequence of receipts, each pair is re-flooded at most once, never one already delivered, and the delivered set grows by exactly the re-flooded pairs |
| GossipMulticast.ReceiveAllAppend | reliable_multicast_lamport.py:36-65 | handling `ps` and then one more message is handling `ps` extended by it |
| GossipMulticast.ReceiveAllDelivers | reliable_multicast_lamport.py:41-49 | after any sequence of receipts, the pair of every message in it is delivered, and nothing delivered before is forgotten |
| GossipMulticast.LaterCopyIgnored | reliable_multicast_lamport.py:41-45 | `KeyOf`, the identity `(original_sender, timestamp)`: a later message with the pair of one already handled changes nothing, whatever its content |
| GossipMulticast.ReceiveAllKeepsClockAhead | reliable_multicast_lamport.py:48-52 | over any sequence of receipts the clock never decreases and stays past the timestamp of every delivered pair |
| GossipMulticast.AllQueues.constructor | reliable_multicast_lamport.py:129 | n queues, all empty |
| GossipMulticast.AllQueues.Put | reliable_multicast_lamport.py:97 | the item is appended to the end of that queue and every other queue is unchanged |
| GossipMulticast.AllQueues.Get | reliable_multicast_lamport.py:106 | a non-empty queue yields its oldest item and loses it; an empty queue yields nothing and stays as it is |
| GossipMulticast.Processo.constructor | reliable_multicast_lamport.py:15-25 | a new process, whose index must name one of the shared queues, has clock 0, nothing delivered, is running, shares the given queues, and satisfies the invariant |
| GossipMulticast.Processo.Tick | reliable_multicast_lamport.py:27-29 | the clock rises by exactly one |
| GossipMulticast.Processo.BasicMulticast | reliable_multicast_lamport.py:92-97 | the item is appended once to the end of every queue, and the existing contents are kept |
| GossipMulticast.Processo.Multicast | reliable_multicast_lamport.py:67-90 | the clock ticks once, and the message stamped with the new clock and this process as original sender is appended once to every queue, its own included; the delivered set is unchanged |
| GossipMulticast.Processo.HandleReceive | reliable_multicast_lamport.py:31-65 | the process and the queues change exactly as `Receive` says, and the invariant (own queue exists, clock past every delivered timestamp) is kept |
| GossipMulticast.Processo.Stop | reliable_multicast_lamport.py:119-121 | STOP is appended to this process's own queue and nowhere else |
| GossipMulticast.Processo.RunStep | reliable_multicast_lamport.py:103-117 | a stopped process, or one with an empty queue, changes nothing; a dequeued STOP clears `running` without handling it; any other dequeued message is handled as `Receive` says, on the queues without that item |
| Scenarios.AcksFromPeers0And1 | lamport_clock.py:152-157 | ACKs from peers 0 and 1 leave "0-1-hello" waiting only on peer 2 |
| Scenarios.OnlyTheMissingPeer | lamport_clock.py:166-178 | with one entry left, the only retransmission is the original DATA message, to the missing peer |
| Scenarios.RetransmitToMissingPeer | lamport_clock.py:166-178 | a retransmit pass while one peer is missing sends the original DATA to that peer and nothing else |
| Scenarios.LateAckFromPeer2 | lamport_clock.py:152-159 | the last missing ACK deletes the entry |

## Left out

- Sockets are not modelled: UDP creation, `bind`, `sendto`/`recvfrom` and their timeouts. A send is an entry in `outbox`, addressed by process id; `BASE_PORT + i` is injective, so the id determines the port.
- JSON encoding and decoding are not modelled, nor the `except Exception: pass` that swallows malformed packets. A wire message is the record `Message`. A type other than DATA or ACK is the case `Kind.Other`, dropped as the source drops it.
- Threads, locks, `time.sleep`, the retransmission interval and the `run` loop's polling timeout are not modelled. Each handler runs atomically, and so does each retransmit pass and each turn of `run`.
- The race in `_retransmit_messages` is not modelled. There, an entry deleted by the ACK thread after the keys were copied is re-created empty by the `defaultdict` (`lamport_clock.py:166-167`). It needs two threads, and here a pass runs atomically.
- Logging (`print`, `datetime`) and the random delays are not modelled. Nor are the two demo programs under `__main__`; their scenarios are only mirrored in `Scenarios`.
- `buffer_messages` is written and never read, so it is kept only as a ghost field.
- Liveness is not modelled: eventual delivery and eventual completion of every entry. They need a fair, lossy network and unbounded time.
- The order in which a retransmit pass visits ids and targets is left unspecified. It depends on dict and set iteration order in Python. The contract fixes which messages are sent, each once, and not their order.
- MessageIds.ParseDecimal: accepts only ASCII digit strings, and its round trip is stated only for strings without a leading zero. Python's `int` also accepts surrounding whitespace, a sign, underscores and non-ASCII digits. The difference never matters here, because the invariant shows that every pending id was formatted by `r_multicast`.
- AckMulticast.ReliableMulticastProcess.RMulticast: with N = 0 the source stores an empty pending entry (`set(range(0))`), and so does the model. The invariant therefore promises non-empty entries only when N > 0.
- Process ids are indices 0, 1, ... (`nat`), as every process is built from `range(N)`. Python would accept a negative id: `Processo(-1, ...)` would use the last queue through negative indexing, and a `ReliableMulticastProcess` with id -1 would mint ids such as `"-1-1-x"`, whose `split('-', 2)` yields an empty first part, so `int('')` raises in the retransmitter.
- Integers are unbounded, as in Python.
