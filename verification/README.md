# The shared-memory MPSC ring and its wake-up protocol, verified

Many producers push messages into a Vyukov ring in one shared memory segment; one consumer thread takes
them out; a word in the segment and a JSON-RPC line per producer wake the consumer when it has parked. This
project models that data path in Dafny and proves what it keeps in every reachable state and over every run:
for any number of producers, any payloads, every interleaving of single memory accesses, and every geometry
on which the claims are true.

## The layers

* **`RingModel`**: the ring as a transition system, one step per access of `push` (src/ring.rs:96-119) and
  `try_pop` (src/ring.rs:134-146), the payload copied byte by byte. `log` is the history of reservations in
  `tail` order, `popped` what was taken out, `Freed` the logical head: the stored one plus the slot already
  freed at src/ring.rs:144 and not yet counted at src/ring.rs:145. The weak CAS may fail without cause.
  `RingInvariant` has the global invariant and its preservation, step by step; `RingRuns` composes schedules;
  `RingTheorems` states what follows. `ReservationQueue` is the specification the ring refines: a queue whose
  entries are reserved first and become ready later (a plain queue with an exact empty test would be wrong:
  `GeometryTheorem.NoneIsNotEmpty`).
* **`System`**: the ring together with the producers' loops (src/producer.rs:75-104), the state word, the
  consumer loop (src/server.rs:79-110), and for each producer the line channel, writer task, socket, server
  loop, unpark token (src/proto/control/jsonrpc.rs:116-148, 179-221). `SystemInvariant`, `Wakeup`, `Signals`,
  `Statistics` and `Progress` prove its properties. Five modules are about what can go wrong and exactly when:
  `Failures` (a process that exits after a failed `run` takes its queued signals with it), `LateWakeups` (an
  unpark meets a consumer that is already running), `StoreBuffer` (the store of PARKED is seen late),
  `SetupTheorems` (which setups allow either, and what the timeout guarantees to all of them) and
  `Schedules` (concrete runs). `Idling` has the schedules of the consumer alone that they share.
* **`Segment`, `Init`, `Push`, `Pop`, `ProducerLoop`, `ConsumerLoop`, `SignalLine`**: the code itself, imperative,
  over one byte array with little-endian fields, masked indices and wrapping 64-bit counters. `Valid()` says
  that the bytes are the image (`Memory.Image`) of a state that a run of the system above has reached; each
  access of the code is one action of that run. Between two accesses the code calls `Interfere`, whose
  contract lets all other parties take any number of actions; its body does nothing because the Dafny program
  has one thread, and nothing is proved from that body: callers know the contract only. `Rely` proves what a
  producer and the consumer may still count on afterwards, `SignalLine` what a writer task and the server
  loop may. The other half of that argument is the constant `me`: a `Segment` object is in the hands of one
  party, and `Take`, the only other way to extend the run, demands that the action is that party's own.
* **`JsonRpc`**: the server's line dispatcher and a client's session, against sections 4, 4.1 and 5 of the
  JSON-RPC 2.0 Specification.

## Assumptions

* Memory is sequentially consistent, except in `StoreBuffer`, where the consumer's store of PARKED may stay
  unseen for as long as it likes.
* Integer arithmetic wraps, as in a release build.
* An access to a word of the segment is one atomic step. That needs alignment: the segment starts at a page,
  and a slot's sequence number lies at a multiple of eight exactly if the slot size is one (`Aligned`).
* `Sound` (two slots or more, payloads below 2^32 bytes) is assumed by nearly everything, and the code over
  bytes assumes in addition `Aligned` and that header and slots together stay below 2^64 bytes (`InMemory`),
  because `total()` and slot addresses wrap. `GeometryTheorem.CheckedGeometries` proves that the three together
  are exactly the condition under which a geometry accepted by `check` is faithful: every slot inside the
  segment, different slots apart, sequence numbers aligned, messages unaltered.
* On 64-bit words the comparisons of `push` need positions that are not ancient: no loaded `pos` is older than
  2^63 - num_slots reservations (`Rely.Recent`). `Words.SignedDifference` and `Rely.CasFooledExactly` say
  when they go wrong, and `GeometryTheorem.FooledCasOverwrites` is a run in which that destroys a message.

## Where the code and its documentation differ

* README.md:268-269 speaks of `fetch_add(tail)`. The code reserves with a CAS loop (src/ring.rs:105-108), and
  the model follows the code.
* README.md:227-228 says a running consumer is never woken. It can be, by a park that times out
  (`Schedules.RunningConsumerIsWoken`) and without any timeout by a rescue
  (`Schedules.RescuedConsumerIsWoken`). `LateWakeups.StoreMeetsExactly` and
  `LateWakeups.RunningIsWokenExactly` say when: exactly if the consumer stores RUNNING while a signal is on
  its way; `LateWakeups.GuardAtStore` says what the consumer could read of that before it stores, and
  `SetupTheorems.RunningIsWokenIff` that it can happen in every setup with a message to push.
* The wake-up that README.md:11-13 promises can be lost after `bail`: in the producer binary
  `run` is the main future (src/bin/producer.rs:27-51), so that a queued signal dies with the process.
  `Failures.NoLostWakeupExactly` and `Failures.NoDeadlockExactly` prove the exact condition: they hold if
  and only if no producer has an event that fits before one that does not.
* `check` (src/ring.rs:45-54) accepts one slot, slots above 4 GiB, slot tables of 2^64 bytes or more
  (`GeometryTheorem.TotalWraps`), and slot sizes that are no multiple of eight. The first three lose messages
  with atomic accesses; the fourth makes the accesses misaligned, and one that a cache line divides can read a
  number that nobody stored and hand out a slot that is in use (`GeometryTheorem.TornSequenceNumber`).
* The derive of the request type takes an array of the members for a request, where section 4 of the
  Specification asks for an object, and keeps an integer beyond 64 bits as a fraction (`JsonRpc`).
* `attach` reports the geometry in 32-bit fields (src/proto/control/jsonrpc.rs:209-210), so not every accepted
  geometry reaches the client (`JsonRpc.AttachExact`).
* `payload_capacity - 4` (src/ring.rs:96) sets aside four bytes that no field uses: the length is in the slot
  header.

## Model

| member | source | states |
|---|---|---|
| Words.SignedDifference | src/ring.rs:104 | the wrapped signed difference of two counters is the true one if and only if the true one fits 64 signed bits |
| Words.EqualImages | src/ring.rs:138 | wrapped counters are equal if and only if the counters differ by a multiple of 2^64 |
| Words.LoadStored64 | src/ring.rs:58-60 | storing and loading a 64-bit word in little-endian order gives the word back |
| Words.LoadStored32 | src/ring.rs:110 | the same for the 32-bit length field |
| Geometry.PowerOfTwo | src/ring.rs:46-49 | the bit-count test accepts exactly the powers of two |
| Geometry.AndBitwise | src/ring.rs:63 | `&` works bit by bit |
| Geometry.MaskIsRemainder | src/ring.rs:42-44 | for every accepted slot count and every index, masking is taking the remainder |
| Geometry.CheckExactly | src/ring.rs:45-54 | `check` accepts a geometry if and only if its mask takes the remainder for every index and a slot has room for a payload of one byte |
| Geometry.WrappedIndex | src/ring.rs:62-65 | the slot index survives counter wrap-around, because the slot count divides 2^64 |
| Geometry.SlotInSegment | src/ring.rs:36-65 | every slot, as addressed, lies behind the header and within the segment, as allocated, if and only if header and slots together stay below 2^64 bytes |
| Geometry.SlotsDisjoint | src/ring.rs:62-65 | in that case two positions, as addressed, use the same slot or disjoint byte ranges, according to their remainders |
| Geometry.SlotsAligned | src/ring.rs:57-65 | in memory and with two slots or more, every slot as addressed starts at a multiple of eight if and only if the slot size is one |
| RingModel.PushFrame | src/ring.rs:99-119 | a producer's access changes neither the consumer nor another producer, and the history grows exactly at a won CAS |
| RingModel.PopFrame | src/ring.rs:134-146 | the consumer's accesses change no producer and no reservation, and slots only at the freeing store |
| RingInvariant.InitialInv | src/ring.rs:69-78 | the global invariant holds in the initial state |
| RingInvariant.SeqVerdict | src/ring.rs:101-119 | less, equal or greater: what the loaded sequence number proves about `tail` and the logical head at that moment |
| RingInvariant.StaleCheckStillValid | src/ring.rs:101-109 | when the CAS succeeds the earlier check is still good: the slot is free for the position and nobody writes to a slot with its index |
| RingInvariant.StepInv | src/ring.rs:91-147 | every access of every party keeps the invariant tying tail, head, all sequence numbers, all program counters and the histories together |
| RingInvariant.PublishedPersists | src/ring.rs:112 | a published message stays published until the freeing store |
| RingInvariant.NewlyPublished | src/ring.rs:112 | only the publishing store of its owner publishes a position |
| RingInvariant.ReachableInv | src/ring.rs:91-147 | the invariant holds in every reachable state |
| RingTheorems.ExclusiveAccess | src/ring.rs:110-112 | no two writers share a slot, and nobody writes the slot being read |
| RingTheorems.FullIsExact | src/ring.rs:103-116 | Full is seen if and only if the loaded position is the tail and num_slots positions are reserved and not freed; the failed push changes nothing shared |
| RingTheorems.NoneIsExact | src/ring.rs:137-140 | None is answered if and only if the head position is not published |
| RingTheorems.StoredHeadWindow | src/ring.rs:144-145 | tail - head reaches num_slots + 1 only between the two stores of `try_pop`; measured from the logical head it never does |
| RingTheorems.DeliveredInOrder | src/ring.rs:129-147 | what was taken out is the prefix of the reservations, payload for payload, in every reachable state |
| RingTheorems.RealTimeOrder | src/ring.rs:105-113 | a position reserved before a state and one reserved after it are delivered in that order |
| RingTheorems.RepeatHasCause | src/ring.rs:100-119 | a repeated iteration comes from a spurious failure or from a moved tail |
| RingTheorems.LockFreedom | src/ring.rs:100-120 | over any run, the repeats of one producer are bounded by its spurious failures and the reservations made meanwhile |
| RingTheorems.TotalRetries | src/ring.rs:100-120 | over any run, the repeats of all producers together are bounded by their spurious failures and a measure of reservations |
| RingTheorems.StallIsContained | src/ring.rs:107-112 | behind an owner that stops before publishing p nothing from p on is delivered and nothing beyond p + num_slots is reserved |
| RingTheorems.StallSparesEarlier | src/ring.rs:107-112 | without a step of that owner, everything before p can still be delivered |
| RingTheorems.DeliverHead | src/ring.rs:110-146 | the owner of the head position and the consumer can deliver it between them |
| ReservationQueue.Refines | src/ring.rs:91-147 | every access of the ring is one event of the reservation queue |
| ReservationQueue.TraceAccepted | src/ring.rs:91-147 | every run of the ring is a trace the queue accepts |
| ReservationQueue.QueueIsFifo | src/ring.rs:129-147 | in the queue, what is taken is what was reserved, in order |
| ReservationQueue.DeliveryIsPrefix | src/ring.rs:91-147 | in every run the payloads delivered are a prefix of those reserved, at most num_slots behind |
| GeometryTheorem.AddressableExactly | src/ring.rs:36-65 | all slots lie inside the segment and apart from each other, as addressed with wrap-around, if and only if their extent stays below 2^64 |
| GeometryTheorem.CheckedGeometries | src/ring.rs:45-65 | an accepted geometry is faithful (slots in the segment and apart, sequence numbers aligned, messages unaltered in every reachable state) if and only if it has two slots or more, slots below 2^32 + 20 bytes, an extent below 2^64, and a slot size that is a multiple of 8 |
| GeometryTheorem.TotalWraps | src/ring.rs:36-38 | 2^62 slots of 32 bytes are accepted, `total()` is 192, slots 0 and 2^59 share an address: not faithful |
| GeometryTheorem.TornSequenceNumber | src/ring.rs:101-119 | 256 slots of 65 bytes: a word divides over two cache lines, and in a reachable state, around the store that publishes 255, either whole value answers Full to the push of 511, while the low byte of the old and the rest of the new read as 511, on which the push wins its CAS and overwrites message 255, published and undelivered |
| GeometryTheorem.OneSlotOverwrites | src/ring.rs:45-54 | with one slot there is a reachable state in which what was taken out is not what was reserved |
| GeometryTheorem.LongPayloadIsCut | src/ring.rs:110 | with slots that take 2^32 bytes or more there is a reachable state in which a cut message was taken out |
| GeometryTheorem.PresetsAreFaithful | src/ring.rs:149-169 | the four preset geometries pass `check` and are faithful |
| GeometryTheorem.NoneIsNotEmpty | src/ring.rs:137-140 | on every sound geometry None is answered in a reachable state in which a later message is complete |
| GeometryTheorem.HeadLagIsReached | src/ring.rs:144-145 | on every sound geometry tail - head does reach num_slots + 1 |
| GeometryTheorem.FooledCasOverwrites | src/ring.rs:106-108 | a run of 2^64 reservations after which the 64-bit CAS would win, for a stale position, a slot that holds a published, undelivered message |
| SystemInvariant.ActInv | src/producer.rs:75-104 | every action of every party keeps: which program counters go together, that each producer's reservations are its events in order, and the books of each signal line |
| SystemInvariant.OccursInv | src/server.rs:79-110 | that invariant, with the ring's, holds in every reachable state of the system |
| Wakeup.BusyPersists | src/proto/control/jsonrpc.rs:121-126 | a signal on its way stays on its way until it is the unpark token or has died with its process |
| Wakeup.WakeStep | src/server.rs:94-108 | every action keeps the wake-up invariant |
| Wakeup.NoLostWakeup | src/server.rs:94-108 | in every reachable state, a consumer parked over a published head has a wake-up pending, or the publisher still stands before the CAS that will find PARKED, or a process has exited with a signal; no timeout involved |
| Wakeup.SignalsOnlyAfterParked | src/producer.rs:84-88 | the CAS is won only between a store of PARKED and the next store of RUNNING |
| Failures.SignalDies | src/producer.rs:95-101 | from every setup in which some producer has an event that fits before one that does not, a run leads to a consumer asleep over a message with nobody to wake it |
| Failures.NoLostWakeupExactly | src/producer.rs:84-101 | no run loses a wake-up if and only if no producer has an event that fits before one that does not |
| Failures.NoDeadlockExactly | src/server.rs:79-110 | from every reachable state all events that fit can be delivered, without timeout and spurious failure and with writer tasks running only while their producer awaits, if and only if the same condition holds |
| Failures.FailingSetup | src/bin/producer.rs:27-51 | an empty event followed by one a byte too long breaks both |
| Idling.StrandedRun | src/server.rs:107 | a parked consumer with RUNNING in the word and no signal on its way stays so, and nothing is delivered, in every run without a timeout |
| Idling.ParkOverNothing | src/server.rs:94-107 | over an unpublished head the consumer parks by its own actions, delivering nothing |
| Signals.SignalsConserved | src/producer.rs:84-88 | CASes won are the signals on their way plus `posted_calls` plus those that died with a failed process, and no more than the stores of PARKED |
| Signals.OneWinPerPark | src/producer.rs:84-88 | between two stores of PARKED at most one CAS is won |
| Signals.SignalsInOrder | src/proto/control/jsonrpc.rs:121-126 | the numbers counted are a prefix of those written, and those a prefix of the numbers signalled |
| Signals.ShutdownFlushes | src/proto/control/jsonrpc.rs:145-149 | after `shutdown` every number signalled is on the socket; after end of file the server has counted all but those lost with a failed process |
| Signals.SignalsNamePositions | src/producer.rs:83-88 | every number the server counts is a position reserved by that very client, modulo 2^64 |
| Statistics.CountersLagByOne | src/server.rs:84-93 | `events` and `wire_bytes` are count and sum of the messages taken out, less at most the one in hand; exact at the top of the loop |
| Statistics.ProducerOrder | src/producer.rs:75-104 | each producer's events are delivered from 0 on, in order, without a gap, whatever Full answers there were |
| Statistics.HistoryIsShared | src/server.rs:84-93 | the reservations are partitioned among the producers, in number and in bytes |
| Statistics.EndOfRun | src/bin/bench.rs:251-253 | `events` never exceeds the events produced; when it reaches them, `wire_bytes` agrees with the producers' sum if and only if the consumer is past its last update |
| Progress.BytesLagAtTheEnd | src/bin/bench.rs:251-253 | from every reachable state with messages left (all of which fit and none of which is empty) the run can come to the final count with `wire_bytes` still short |
| Progress.PublishTheHead | src/ring.rs:110-112 | the owner of a reserved head can bring it to publication |
| Progress.TakeTheHead | src/server.rs:84-97 | a consumer that is not parked delivers a published head by its own actions |
| Progress.WakeConsumer | src/server.rs:107 | a consumer parked over a published head can be woken without the timeout, if no producer fails after its first push |
| Progress.NoDeadlock | src/server.rs:79-110 | under that condition, from every reachable state, without timeout and spurious failure and with writer tasks running only while their producer awaits, all events that fit can be delivered |
| LateWakeups.MeetingNeedsLateStore | src/server.rs:97-108 | in every run, an unpark that meets a running consumer comes after a store of RUNNING made while a signal was on its way |
| LateWakeups.StoreMeetsExactly | src/server.rs:97-108 | after a store of RUNNING the others can meet the running consumer with an unpark if and only if a signal was on its way at the store |
| LateWakeups.RunningIsWokenExactly | src/server.rs:97-108 | in the runs of a setup a running consumer can be met if and only if some run stores RUNNING with a signal on its way |
| LateWakeups.BusyInWindowExactly | src/server.rs:95-108 | from a store of PARKED with nothing on its way to the next store, a signal is on its way if and only if the word says RUNNING, no unpark has happened since and none was lost |
| LateWakeups.GuardAtStore | src/server.rs:95-108 | the same in what the consumer can see: the word says RUNNING, no token is set, no park has ended by one, and none was lost |
| LateWakeups.Flush | src/proto/control/jsonrpc.rs:121-126 | all signals on their way can become the token without the consumer |
| SetupTheorems.RunningIsWokenIff | src/server.rs:97-108 | a running consumer can be met by an unpark in some run of a setup if and only if some producer has an event that fits |
| SetupTheorems.MissedIff | src/server.rs:95-97 | with the store of PARKED seen late, a wake-up can be missed in some run of a setup if and only if some producer has an event that fits |
| SetupTheorems.AlwaysDelivered | src/server.rs:79-110 | with the timeout, from every reachable state of every setup, also after signals have died, everything that fits can be delivered |
| Schedules.RunningConsumerIsWoken | src/server.rs:107-108 | on every sound geometry a running consumer can find its unpark token set, after a park that timed out |
| Schedules.RescuedConsumerIsWoken | src/server.rs:96-105 | on every sound geometry a running consumer can be met by an unpark in a run without any timeout, after a rescue |
| StoreBuffer.SignalCanBeMissed | src/server.rs:95-96 | if the store of PARKED is seen late, a reachable state has the consumer asleep over a message and no signal to come |
| StoreBuffer.OnlyTheTimeoutHelps | src/server.rs:107 | from such a state nothing is delivered in any run in which the timeout does not fire |
| StoreBuffer.TimeoutRecovers | src/server.rs:107-108 | from every reachable state with the consumer asleep over a published head, the timeout and the consumer's own actions deliver it |
| StoreBuffer.MoveInv | src/server.rs:95-97 | the ring stays safe although the state word lags |
| StoreBuffer.FencedIsSafe | src/server.rs:95-96 | in every run in which the look taken after the store of PARKED never answers None while the store is unseen, no wake-up is missed |
| StoreBuffer.UnseenLookCanMiss | src/server.rs:95-96 | from every reachable state in which it does, with anything left to push or deliver, a wake-up can be missed |
| Memory.StoreHeader | src/ring.rs:71-73 | a store to one header word changes that word of the image and no slot |
| Memory.StoreSlot | src/ring.rs:110-112 | a store inside one slot leaves the header words and all other slots as they were |
| Memory.StoreSlotSeq | src/ring.rs:112 | storing a sequence number changes that field of that slot only |
| Memory.StoreSlotLength | src/ring.rs:110 | storing a length changes that field of that slot only |
| Memory.StoreSlotByte | src/ring.rs:111 | copying one payload byte changes that byte of that slot only |
| Memory.AddressOf | src/ring.rs:62-65 | the slot addressed, with wrap-around, through a wrapped position is the slot of the position, inside the segment |
| Memory.Layout | src/ring.rs:10-23 | where in the bytes the header words and every field of every slot stand, in numbers and little-endian |
| Rely.WrappedPushChecks | src/ring.rs:104-107 | on positions that are not ancient, the 64-bit difference and the 64-bit CAS decide as the unbounded counters would |
| Rely.WrappedPopCheck | src/ring.rs:138 | the consumer's 64-bit test decides as the unbounded one, always |
| Rely.CasFooledExactly | src/ring.rs:106-108 | the 64-bit CAS is fooled if and only if the position is a positive multiple of 2^64 reservations old |
| Rely.ProducerRely | src/producer.rs:75-104 | whatever the others do, a producer keeps its state, and the history only grows |
| Rely.ConsumerRely | src/server.rs:79-110 | whatever the others do, the consumer keeps its state, and what is published stays published |
| Rely.PublishedOrFreed | src/ring.rs:112-144 | over any run a published message stays published or has been delivered |
| Segment.Segment.constructor | src/server.rs:45-46 | a segment just initialised is the image of a starting state |
| Segment.Segment.StoreStep | src/ring.rs:58-60 | one store to the bytes is one action of the run, and changes those bytes only |
| Segment.Segment.SlotAddress | src/ring.rs:62-65 | given the 64-bit image of a position, the place of the slot that serves the position, whole inside the segment and at a multiple of eight |
| Segment.Segment.Interfere | src/ring.rs:86-90 | between two accesses the others take any actions that are not this party's |
| Init.Init | src/ring.rs:69-78 | over a segment of `total()` bytes: refuses, untouched, exactly the geometries whose mask does not take the remainder or whose slots have no room for a byte; faults exactly if a store lies outside or is misaligned, which for two slots or more in an extent below 2^64 means that the slot size is no multiple of 8; otherwise, with an extent below 2^64, the bytes become the image of the initial ring, with lengths and payload areas as they were |
| Init.SpoiltUnnoticed | src/ring.rs:69-78 | with 16 slots of 2^61 - 16 bytes nothing is refused and nothing faults, and slot 8 lies on the word `head` |
| Init.PreparedIsInitial | src/ring.rs:69-78 | that ring is initial and satisfies the global invariant, whatever the memory held |
| Init.Open | src/server.rs:43-46 | any bytes, initialised, make a valid segment |
| Push.LoadTailWord | src/ring.rs:101 | the load of `tail` |
| Push.LoadSlotSeq | src/ring.rs:103-104 | the load of the sequence number: difference 0 means free, negative means exactly full, positive means overtaken |
| Push.CasTailWord | src/ring.rs:106-108 | won means the position is now reserved for this message; lost means a fluke or a moved tail and untouched memory |
| Push.StoreLengthField | src/ring.rs:110 | the store of the length, at its four bytes |
| Push.CopyOneByte | src/ring.rs:111 | one byte copied, inside the slot |
| Push.PublishSlot | src/ring.rs:112 | after the publishing store the message stands in history and is published whole |
| Push.Attempt | src/ring.rs:101-119 | one iteration; if it must be repeated, another producer has reserved a position or a fluke is used up |
| Push.Push | src/ring.rs:91-121 | the whole call, with interference: Pushed at a position not reserved before the call and published whole; Full with num_slots reserved and not freed; TooBig if and only if the payload is too long, with nothing touched |
| Pop.LoadHeadSlotSeq | src/ring.rs:137-138 | matched means the head is published, not matched that it is not |
| Pop.FreeHeadSlot | src/ring.rs:144 | the freeing store delivers the payload of the head reservation |
| Pop.AdvanceHeadWord | src/ring.rs:145 | the store of `head` catches up with the freed slot |
| Pop.ReadOut | src/ring.rs:141-146 | from the matched number to the store of `head`: the next reservation, whole |
| Pop.TryPop | src/ring.rs:129-147 | the whole call, with interference: Some with the next reservation whole, or None when the head was unpublished already at the call, with nothing delivered and the buffer as it was |
| ConsumerLoop.AddEvent | src/server.rs:86 | `events` grows by one, modulo 2^64 |
| ConsumerLoop.AddBytes | src/server.rs:87 | `wire_bytes` grows by the length of the message, modulo 2^64 |
| ConsumerLoop.Announce | src/server.rs:95 | 1 (PARKED) is stored to the state word |
| ConsumerLoop.Withdraw | src/server.rs:97-108 | the store of RUNNING, and where the loop goes on |
| ConsumerLoop.Park | src/server.rs:107 | `park_timeout` returns by token, which it consumes, or by time |
| ConsumerLoop.NoneMeansCaughtUp | src/server.rs:84 | a None proves that everything deliverable at any earlier state of the run is out |
| ConsumerLoop.Drain | src/server.rs:83-93 | the inner loop ends; `drained` is the number of messages modulo 2^32; nothing deliverable at its start is left |
| ConsumerLoop.LookAgain | src/server.rs:94-109 | at most one message is rescued before parking, and the loop returns to its top |
| ConsumerLoop.Round | src/server.rs:79-110 | one iteration delivers all that was deliverable when it began |
| ConsumerLoop.ConsumerLoop | src/server.rs:68-111 | after `rounds` iterations it has begun to drain `rounds` times, everything deliverable at the start of the last one is out, the statistics are exact, modulo 2^64, and the messages are the first reservations in order |
| ProducerLoop.EncodeEvent | src/producer.rs:76-78 | the event is in `scratch`, its length added to `wire_bytes` |
| ProducerLoop.PostEvent | src/producer.rs:84-86 | the CAS on the state word is won if and only if the word was 1 (PARKED), and then 0 (RUNNING) is stored |
| ProducerLoop.SendSignal | src/proto/control/jsonrpc.rs:141-143 | the number goes to the end of this producer's channel |
| ProducerLoop.Deliver | src/producer.rs:81-103 | the retry loop: done, refused if and only if the event is too long, or cut off while full after `patience` retries; `push` is called once and once more for each retry used up |
| ProducerLoop.HotLoop | src/producer.rs:75-104 | Done: every event reserved once and in order, bytes exact; otherwise the events before the one it stopped at, and no others; cut off only after one push for each event up to that one and `patience` more |
| SignalLine.WritePosted | src/proto/control/jsonrpc.rs:121-122 | one number received is one line written, unless the process exits in between |
| SignalLine.ClosedStays | src/proto/control/jsonrpc.rs:141-148 | a closed channel stays closed and never grows, whatever anyone does |
| SignalLine.RunWriter | src/proto/control/jsonrpc.rs:118-129 | each poll writes the number at the front of the channel; the writer task ends by itself only with the channel closed and empty, and does end so if the channel was closed and the polls outnumber what waits; then every number signalled is written, in order; if it dies with its process the rest is lost |
| SignalLine.HandlePosted | src/proto/control/jsonrpc.rs:218-221 | one line read is one number counted, and the loop reads on |
| SignalLine.ServePosted | src/proto/control/jsonrpc.rs:179-239 | each poll counts the line at the front of the socket; the end of file is seen if the writer task had ended and the polls outnumber the lines; then every number signalled has been counted, in order, but those lost with the process |
| SignalLine.Shutdown | src/proto/control/jsonrpc.rs:145-149 | it returns if and only if the writer task has ended, else it has looked `polls` times; when it returns, the lines written are the numbers signalled before the call |
| SignalLine.RunProducer | src/producer.rs:75-118 | a return without error means all events reserved once and in order, exact bytes, all signals written; it is cut off only after `patience` retries or `polls` looks at a writer task that still runs |
| ProducerLoop.LeaveProcess | src/bin/producer.rs:27-51 | what waits in the channel or with the writer task is lost when the process ends after an error |
| SignalLine.RunBinary | src/bin/producer.rs:27-51 | without an error nothing is lost; after one, what was signalled is what was written and what was lost; cut off only as `run` is |
| JsonRpc.Serve | src/proto/control/jsonrpc.rs:169-240 | after any sequence of lines: the replies; `posted_calls` grown by the number of messages named `posted`, modulo 2^64; the token set exactly if there is one; no other line adds anything |
| JsonRpc.WhoIsAnswered | src/proto/control/jsonrpc.rs:195-236 | the replies answer exactly the messages other than `posted` with an id that is not null, in order, each with its id: `attach` by the geometry in 32 bits, any other method by -32601 and the method's name |
| JsonRpc.LineAsSpecified | src/proto/control/jsonrpc.rs:189-236 | what the server says about a line is what sections 4, 4.1 and 5 ask for (nothing; a result; an error with its code; the id) if and only if the line does not deviate |
| JsonRpc.RepliesAsSpecified | src/proto/control/jsonrpc.rs:189-237 | the replies on a connection meet all obligations (ids, results or errors and their codes, order) if and only if no line is malformed, an invalid request (array form, version, id type, scalar parameters), has a null id, or is a `posted` with an id |
| JsonRpc.BooleanIdIsEchoed | src/proto/control/jsonrpc.rs:204-215 | a boolean id is echoed where an error with the id null is owed |
| JsonRpc.AttachExact | src/proto/control/jsonrpc.rs:204-216 | the client works with the server's geometry if and only if both numbers fit 32 bits |
| JsonRpc.ManySlotsVanish | src/proto/control/jsonrpc.rs:209 | of an accepted slot count of 2^32 or more the client is told zero |
| JsonRpc.ClientSession | src/proto/control/jsonrpc.rs:92-126 | a client's session bears its name and the numbers signalled, in order; the attach request is answered, no notification is, each signal is one `posted` call, and that is what the specification asks for |

## Left out

- Segment.Segment.Interfere: its contract assumes that the others reserve finitely many positions (`budget`), which only the termination of the loops uses, and that a loaded position does not become ancient (`Rely.Recent`).
- Segment.Segment.Fluke: spurious failures of the weak CAS are finitely many in one run of the imperative code; the transition systems allow any number.
- ProducerLoop.HotLoop: retries while the ring is full are bounded by `patience`, standing for a run that is cut off, because a ring whose consumer has stopped stays full for ever; where it is cut off, all of them have been made.
- ProducerLoop.Deliver: retries are bounded by `patience`, as in `HotLoop`; how long it sleeps between them is not modelled.
- ProducerLoop.EncodeEvent: an event is its encoded bytes; a failing `encode`, which ends `run` like `bail` does, and `payload_bytes` are not modelled.
- SignalLine.RunWriter: the number of polls is a parameter, as it is for `ServePosted` and `Shutdown`; how tokio schedules them is not modelled, except in `Progress`, where a writer task runs only while its producer awaits; a write error, after which the loop breaks, is not modelled.
- SignalLine.ServePosted: a read error is not modelled.
- ConsumerLoop.ConsumerLoop: the stop flag appears as the number of iterations made before it is seen; when that is, is not modelled.
- JsonRpc.Serve: works on lines already parsed; JSON text, framing and write errors are outside it, and so are batches: an array is a request in array form or malformed.
- Init.Init: what the memory holds after a fault, and what the operating system says to a segment of that size, is not modelled; a misaligned store counts as a fault, as in a debug build, although a release build on a tolerant machine goes on.
- GeometryTheorem.TornSequenceNumber: torn accesses are not steps of the model; the lemma gives the two whole values and the value torn between them, puts the producer where that value leads, and goes on from there by steps of the model.
- The weak-memory orderings: all but the one store in `StoreBuffer` is sequentially consistent; Relaxed, Acquire and Release are not told apart.
- The codecs and `payload_bytes`.
- `src/shm.rs`: the mapped segment is one byte array shared by all; passing the descriptor is not modelled.
- `src/proto/control/capnp_rpc.rs`: the Cap'n Proto control plane lives in a library that is not part of this model.
- Crashed processes, except as a producer that takes no further step, and as one that exits after a failed `run`.
- `gen_base64_blob`, the report formatting, the command lines and the scripts: they would only add easy members.
