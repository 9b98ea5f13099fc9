/** Concrete schedules of the system with one producer and one event of no bytes: a signal won, carried and
    delivered to a consumer that is already running again. */
module Schedules {
  import opened Rely
  import opened Wakeup
  import opened LateWakeups
  import opened Geometry
  import opened RingModel
  import opened RingInvariant
  import opened System

  function OneEmptyEvent(c: RingConfig): Setup {
    Setup(c, [[[]]])
  }

  /** A state of that system after any number of consumer steps that delivered nothing. */
  ghost predicate Unused(c: Setup, s: System) {
    && Sound(c.ring) && c == OneEmptyEvent(c.ring) && Wired(c, s)
    && s.producers == [Producer(NextEvent, 0, 0)] && s.ring.producers == [NotPushing]
    && s.ring.tail == 0 && s.ring.head == 0 && s.ring.log == [] && s.ring.popped == []
    && s.ring.slots[0].seqNo == 0
  }

  /** A state in which the one event stands published and not delivered. */
  ghost predicate Used(c: Setup, s: System) {
    && Sound(c.ring) && c == OneEmptyEvent(c.ring) && Wired(c, s)
    && s.ring.producers == [NotPushing]
    && s.ring.tail == 1 && s.ring.head == 0 && s.ring.log == [Entry(0, [])] && s.ring.popped == []
    && s.ring.slots[0].seqNo == 1
  }

  lemma FirstSlot(c: RingConfig, s: Ring)
    requires c.Sized() && |s.slots| == c.numSlots
    ensures SlotAt(c, s, 0) == s.slots[0]
  {
    Remainder(0, c.numSlots, 0, 0);
  }

  lemma StartUnused(c: RingConfig) returns (s: System)
    requires Sound(c)
    ensures var setup := OneEmptyEvent(c);
            Starts(setup, s) && Unused(setup, s) && s.links == [FreshLink] && s.consumer == Consumer(Top, 0, 0, 0)
            && s.ring.consumer == NotPopping && !s.token && s.word == RUNNING
  {
    var slots := seq(c.numSlots, i requires 0 <= i < c.numSlots => Slot(i, 0, seq(c.PayloadCapacity(), k => 0)));
    var ring := Ring(0, 0, slots, [NotPushing], NotPopping, [], []);
    s := System(ring, RUNNING, false, [Producer(NextEvent, 0, 0)], [FreshLink], Consumer(Top, 0, 0, 0), 0, 0, 0);
  }

  // ----- The consumer finds nothing -----

  /** From the top of its loop to the store of PARKED. */
  lemma DrainNothing(c: Setup, s: System)
    requires Unused(c, s) && s.consumer == Consumer(Top, 0, 0, 0) && s.ring.consumer == NotPopping
    ensures Executes(c, s, [StartDrain, Access(LoadHead), Access(LoadHeadSeq)],
                     s.(consumer := Consumer(Parking, 0, 0, 0)))
  {
    FirstSlot(c.ring, s.ring);
    var xs := [StartDrain, Access(LoadHead), Access(LoadHeadSeq)];
    var s1 := Act(c, s, StartDrain);
    var s2 := Act(c, s1, Access(LoadHead));
    var s3 := Act(c, s2, Access(LoadHeadSeq));
    assert s3 == s.(consumer := Consumer(Parking, 0, 0, 0));
    hide Act, CanAct;
    ExecutionExtends(c, s, [], s, StartDrain);
    ExecutionExtends(c, s, [StartDrain], s1, Access(LoadHead));
    ExecutionExtends(c, s, [StartDrain, Access(LoadHead)], s2, Access(LoadHeadSeq));
    assert xs == [] + [StartDrain] + [Access(LoadHead)] + [Access(LoadHeadSeq)];
  }

  /** The look taken after that store. */
  lemma RecheckNothing(c: Setup, s: System)
    requires Unused(c, s) && s.consumer == Consumer(Recheck, 0, 0, 0) && s.ring.consumer == AtHead
    ensures Executes(c, s, [Access(LoadHead), Access(LoadHeadSeq)],
                     s.(consumer := Consumer(Parked, 0, 0, 0), ring := s.ring.(consumer := NotPopping)))
  {
    FirstSlot(c.ring, s.ring);
    var xs := [Access(LoadHead), Access(LoadHeadSeq)];
    var s1 := Act(c, s, Access(LoadHead));
    var s2 := Act(c, s1, Access(LoadHeadSeq));
    assert s2 == s.(consumer := Consumer(Parked, 0, 0, 0), ring := s.ring.(consumer := NotPopping));
    hide Act, CanAct;
    ExecutionExtends(c, s, [], s, Access(LoadHead));
    ExecutionExtends(c, s, [Access(LoadHead)], s1, Access(LoadHeadSeq));
    assert xs == [] + [Access(LoadHead)] + [Access(LoadHeadSeq)];
  }

  // ----- The producer pushes its event -----

  const SEARCH := [Encode(0), EnterPush(0), Access(LoadTail(0)), Access(LoadSeq(0))]
  const WRITE := [Access(CasTail(0, false)), Access(StoreLength(0)), Access(Publish(0))]

  function Searched(s: System): System {
    s.(ring := s.ring.(producers := [AtCas([], 0)]), producers := [Producer(Pushing, 0, 0)])
  }

  /** The ring with the event reserved and published. */
  function PublishedRing(r: Ring): Ring
    requires |r.slots| > 0
  {
    r.(tail := 1, log := [Entry(0, [])], slots := r.slots[0 := r.slots[0].(seqNo := 1, len := 0)])
  }

  lemma SearchEmpty(c: Setup, s: System)
    requires Unused(c, s)
    ensures Executes(c, s, SEARCH, Searched(s))
  {
    FirstSlot(c.ring, s.ring);
    EncodeEmpty(c, s);
    var s2 := s.(ring := s.ring.(producers := [AtTail([])]), producers := [Producer(Pushing, 0, 0)]);
    var s3 := Act(c, s2, Access(LoadTail(0)));
    assert s3 == s2.(ring := s2.ring.(producers := [AtSeq([], 0)]));
    var s4 := Act(c, s3, Access(LoadSeq(0)));
    assert s4 == s2.(ring := s2.ring.(producers := [AtCas([], 0)]));
    hide Act, CanAct;
    ExecutionExtends(c, s, [Encode(0), EnterPush(0)], s2, Access(LoadTail(0)));
    ExecutionExtends(c, s, [Encode(0), EnterPush(0), Access(LoadTail(0))], s3, Access(LoadSeq(0)));
    assert SEARCH == [Encode(0), EnterPush(0)] + [Access(LoadTail(0))] + [Access(LoadSeq(0))];
  }

  lemma EncodeEmpty(c: Setup, s: System)
    requires Unused(c, s)
    ensures Executes(c, s, [Encode(0), EnterPush(0)],
                     s.(ring := s.ring.(producers := [AtTail([])]), producers := [Producer(Pushing, 0, 0)]))
  {
    var s1 := Act(c, s, Encode(0));
    assert s1 == s.(producers := [Producer(Ready, 0, 0)]);
    var s2 := Act(c, s1, EnterPush(0));
    assert s2 == s.(ring := s.ring.(producers := [AtTail([])]), producers := [Producer(Pushing, 0, 0)]);
    hide Act, CanAct;
    ExecutionExtends(c, s, [], s, Encode(0));
    ExecutionExtends(c, s, [Encode(0)], s1, EnterPush(0));
    assert [] + [Encode(0)] + [EnterPush(0)] == [Encode(0), EnterPush(0)];
  }

  lemma WriteEmpty(c: Setup, s: System, t: System)
    requires Unused(c, s) && t == Searched(s) && Wired(c, t)
    ensures Executes(c, t, WRITE, s.(ring := PublishedRing(s.ring), producers := [Producer(Posting(0), 0, 0)]))
  {
    var t1 := Act(c, t, Access(CasTail(0, false)));
    assert t1.ring == s.ring.(tail := 1, log := [Entry(0, [])], producers := [AtLength([], 0)]);
    FirstSlot(c.ring, t1.ring);
    var t2 := Act(c, t1, Access(StoreLength(0)));
    FirstSlot(c.ring, t2.ring);
    var t3 := Act(c, t2, Access(Publish(0)));
    assert t3.ring.slots == PublishedRing(s.ring).slots;
    assert t3 == s.(ring := PublishedRing(s.ring), producers := [Producer(Posting(0), 0, 0)]);
    hide Act, CanAct;
    ExecutionExtends(c, t, [], t, Access(CasTail(0, false)));
    ExecutionExtends(c, t, [Access(CasTail(0, false))], t1, Access(StoreLength(0)));
    ExecutionExtends(c, t, [Access(CasTail(0, false)), Access(StoreLength(0))], t2, Access(Publish(0)));
    assert [] + [Access(CasTail(0, false))] + [Access(StoreLength(0))] + [Access(Publish(0))] == WRITE;
  }

  /** The whole push. */
  lemma PushEmpty(c: Setup, s: System)
    requires Unused(c, s)
    ensures var t := s.(ring := PublishedRing(s.ring), producers := [Producer(Posting(0), 0, 0)]);
            Executes(c, s, SEARCH + WRITE, t) && Used(c, t)
  {
    SearchEmpty(c, s);
    WriteEmpty(c, s, Searched(s));
    ExecutionsJoin(c, s, SEARCH, Searched(s), WRITE,
                   s.(ring := PublishedRing(s.ring), producers := [Producer(Posting(0), 0, 0)]));
  }

  // ----- A signal that comes late -----

  lemma WinAndWake(c: Setup, s: System)
    requires Used(c, s) && s.producers == [Producer(Posting(0), 0, 0)] && s.word == PARKED
    requires s.consumer == Consumer(Parked, 0, 0, 0)
    ensures Executes(c, s, [PostCas(0), ParkTimeout, StoreRunning],
                     s.(producers := [Producer(Signalling(0), 0, 0)], word := RUNNING, wins := s.wins + 1,
                        consumer := Consumer(Top, 0, 0, 0)))
  {
    var s1 := Act(c, s, PostCas(0));
    assert s1 == s.(producers := [Producer(Signalling(0), 0, 0)], word := RUNNING, wins := s.wins + 1);
    var s2 := Act(c, s1, ParkTimeout);
    var s3 := Act(c, s2, StoreRunning);
    hide Act, CanAct;
    ExecutionExtends(c, s, [], s, PostCas(0));
    ExecutionExtends(c, s, [PostCas(0)], s1, ParkTimeout);
    ExecutionExtends(c, s, [PostCas(0), ParkTimeout], s2, StoreRunning);
    assert [] + [PostCas(0)] + [ParkTimeout] + [StoreRunning] == [PostCas(0), ParkTimeout, StoreRunning];
  }

  lemma QueueSignal(c: Setup, s: System)
    requires Used(c, s) && s.producers == [Producer(Signalling(0), 0, 0)] && s.links == [FreshLink]
    ensures Executes(c, s, [Signal(0)],
                     s.(producers := [Producer(NextEvent, 1, 0)],
                        links := [FreshLink.(channel := [0], signalled := [0])]))
  {
    hide Do, DoAccess, Consume;
    var s1 := Act(c, s, Signal(0));
    assert s1.links[0].channel == [0] && s1.links[0].signalled == [0];
    assert s1 == s.(producers := [Producer(NextEvent, 1, 0)], links := [FreshLink.(channel := [0], signalled := [0])]);
    hide Act, CanAct;
    ExecutionExtends(c, s, [], s, Signal(0));
    assert [] + [Signal(0)] == [Signal(0)];
  }

  lemma WriteSignal(c: Setup, s: System)
    requires Used(c, s) && s.links == [FreshLink.(channel := [0], signalled := [0])]
    ensures Executes(c, s, [WriterRecv(0), WriterSend(0)],
                     s.(links := [FreshLink.(socket := [0], signalled := [0], written := [0])]))
  {
    hide Do, DoAccess, Consume;
    var s1 := Act(c, s, WriterRecv(0));
    assert s1.links[0].channel == [];
    assert s1 == s.(links := [FreshLink.(writer := Holding(0), signalled := [0])]);
    var s2 := Act(c, s1, WriterSend(0));
    assert s2.links[0].socket == [0] && s2.links[0].written == [0];
    assert s2 == s.(links := [FreshLink.(socket := [0], signalled := [0], written := [0])]);
    hide Act, CanAct;
    ExecutionExtends(c, s, [], s, WriterRecv(0));
    ExecutionExtends(c, s, [WriterRecv(0)], s1, WriterSend(0));
    assert [] + [WriterRecv(0)] + [WriterSend(0)] == [WriterRecv(0), WriterSend(0)];
  }

  lemma CountAndUnpark(c: Setup, s: System)
    requires Used(c, s) && s.links == [FreshLink.(socket := [0], signalled := [0], written := [0])]
    ensures Executes(c, s, [ReadLine(0), CountPosted(0), Unpark(0)],
                     s.(links := [FreshLink.(signalled := [0], written := [0], served := [0])],
                        postedCalls := s.postedCalls + 1, token := true))
  {
    hide Do, DoAccess, Consume;
    var s1 := Act(c, s, ReadLine(0));
    assert s1.links[0].socket == [];
    assert s1 == s.(links := [FreshLink.(reader := Counting(0), signalled := [0], written := [0])]);
    var s2 := Act(c, s1, CountPosted(0));
    assert s2.links[0].served == [0];
    assert s2.links == [FreshLink.(reader := Unparking, signalled := [0], written := [0], served := [0])];
    var s3 := Act(c, s2, Unpark(0));
    assert s3.links == [FreshLink.(signalled := [0], written := [0], served := [0])];
    hide Act, CanAct;
    ExecutionExtends(c, s, [], s, ReadLine(0));
    ExecutionExtends(c, s, [ReadLine(0)], s1, CountPosted(0));
    ExecutionExtends(c, s, [ReadLine(0), CountPosted(0)], s2, Unpark(0));
    assert [] + [ReadLine(0)] + [CountPosted(0)] + [Unpark(0)] == [ReadLine(0), CountPosted(0), Unpark(0)];
  }

  /** On every sound geometry a consumer can be woken that is already running: its park timed out while the
      signal was on its way, and the token is set on a consumer at the top of its loop. */
  lemma RunningConsumerIsWoken(c: RingConfig) returns (s: System)
    requires Sound(c)
    ensures Occurs(OneEmptyEvent(c), s)
    ensures s.token && s.word == RUNNING && s.consumer.loop.Top? && s.postedCalls == 1
  {
    var setup := OneEmptyEvent(c);
    var s0, ys, t := ParkUnused(c);
    PushEmpty(setup, t);
    var t1 := t.(ring := PublishedRing(t.ring), producers := [Producer(Posting(0), 0, 0)]);
    var zs := SignalLate(setup, t1);
    s := Woken(t1);
    hide Act, CanAct, Starts, Sound, Unused, Used, PublishedRing, OneEmptyEvent;
    ExecutionsJoin(setup, s0, ys, t, SEARCH + WRITE, t1);
    ExecutionsJoin(setup, s0, ys + (SEARCH + WRITE), t1, zs, s);
  }

  function Woken(s: System): System {
    s.(producers := [Producer(NextEvent, 1, 0)], word := RUNNING, wins := s.wins + 1,
       consumer := Consumer(Top, 0, 0, 0), token := true, postedCalls := s.postedCalls + 1,
       links := [FreshLink.(signalled := [0], written := [0], served := [0])])
  }

  lemma SignalLate(c: Setup, s: System) returns (xs: seq<Action>)
    requires Used(c, s) && s.producers == [Producer(Posting(0), 0, 0)] && s.word == PARKED
    requires s.consumer == Consumer(Parked, 0, 0, 0) && s.links == [FreshLink]
    ensures Executes(c, s, xs, Woken(s))
  {
    WinAndWake(c, s);
    var t2 := s.(producers := [Producer(Signalling(0), 0, 0)], word := RUNNING, wins := s.wins + 1,
                 consumer := Consumer(Top, 0, 0, 0));
    QueueSignal(c, t2);
    var t2q := t2.(producers := [Producer(NextEvent, 1, 0)],
                   links := [FreshLink.(channel := [0], signalled := [0])]);
    WriteSignal(c, t2q);
    var t3 := t2.(producers := [Producer(NextEvent, 1, 0)],
                  links := [FreshLink.(socket := [0], signalled := [0], written := [0])]);
    CountAndUnpark(c, t3);
    hide Act, CanAct, Sound, Used;
    var win, queue := [PostCas(0), ParkTimeout, StoreRunning], [Signal(0)] + [WriterRecv(0), WriterSend(0)];
    var count := [ReadLine(0), CountPosted(0), Unpark(0)];
    ExecutionsJoin(c, t2, [Signal(0)], t2q, [WriterRecv(0), WriterSend(0)], t3);
    ExecutionsJoin(c, s, win, t2, queue, t3);
    ExecutionsJoin(c, s, win + queue, t3, count, Woken(s));
    xs := win + queue + count;
  }

  /** The consumer parks before anything has been pushed. */
  lemma ParkUnused(c: RingConfig) returns (s: System, ys: seq<Action>, t: System)
    requires Sound(c)
    ensures var setup := OneEmptyEvent(c);
            Wired(setup, s) && Starts(setup, s) && Executes(setup, s, ys, t) && Unused(setup, t)
    ensures t.consumer == Consumer(Parked, 0, 0, 0) && t.ring.consumer == NotPopping && t.word == PARKED
    ensures t.links == [FreshLink] && t.postedCalls == 0 && t.wins == 0
  {
    var setup := OneEmptyEvent(c);
    s := StartUnused(c);
    DrainNothing(setup, s);
    var drained := [StartDrain, Access(LoadHead), Access(LoadHeadSeq)];
    var s1 := s.(consumer := Consumer(Parking, 0, 0, 0));
    var s2 := Act(setup, s1, StoreParked);
    assert s2 == s1.(consumer := Consumer(Recheck, 0, 0, 0), word := PARKED, parks := 1,
                     ring := s1.ring.(consumer := AtHead));
    RecheckNothing(setup, s2);
    t := s2.(consumer := Consumer(Parked, 0, 0, 0), ring := s2.ring.(consumer := NotPopping));
    hide Act, CanAct, Starts, Sound;
    ExecutionExtends(setup, s, drained, s1, StoreParked);
    ExecutionsJoin(setup, s, drained + [StoreParked], s2, [Access(LoadHead), Access(LoadHeadSeq)], t);
    ys := drained + [StoreParked] + [Access(LoadHead), Access(LoadHeadSeq)];
  }

  // ----- A signal that comes after a rescue -----

  predicate NoTimeout(xs: seq<Action>) {
    forall i :: 0 <= i < |xs| ==> !xs[i].ParkTimeout?
  }

  /** The consumer, looking again, finds the message, */
  lemma RecheckFinds(c: Setup, s: System)
    requires Used(c, s) && s.consumer == Consumer(Recheck, 0, 0, 0) && s.ring.consumer == AtHead
    requires s.ring.slots[0].len == 0
    ensures Executes(c, s, [Access(LoadHead), Access(LoadHeadSeq), Access(LoadLength)],
                     s.(ring := s.ring.(consumer := AtHeadBytes(0, 0, []))))
  {
    FirstSlot(c.ring, s.ring);
    hide DoPush, Produce, Convey, Consume;
    var s1 := Act(c, s, Access(LoadHead));
    assert s1 == s.(ring := s.ring.(consumer := AtHeadSeq(0)));
    var s2 := Act(c, s1, Access(LoadHeadSeq));
    assert s2 == s.(ring := s.ring.(consumer := AtHeadLength(0)));
    var s3 := Act(c, s2, Access(LoadLength));
    assert s3 == s.(ring := s.ring.(consumer := AtHeadBytes(0, 0, [])));
    hide Act, CanAct;
    ExecutionExtends(c, s, [], s, Access(LoadHead));
    ExecutionExtends(c, s, [Access(LoadHead)], s1, Access(LoadHeadSeq));
    ExecutionExtends(c, s, [Access(LoadHead), Access(LoadHeadSeq)], s2, Access(LoadLength));
    assert [] + [Access(LoadHead)] + [Access(LoadHeadSeq)] + [Access(LoadLength)] ==
           [Access(LoadHead), Access(LoadHeadSeq), Access(LoadLength)];
  }

  /** and takes it out. */
  lemma RescueTakes(c: Setup, s: System) returns (t: System)
    requires Used(c, s) && s.consumer == Consumer(Recheck, 0, 0, 0) && s.ring.consumer == AtHeadBytes(0, 0, [])
    ensures Executes(c, s, [Access(FreeSlot), Access(AdvanceHead)], t) && Wired(c, t)
    ensures t.consumer.loop.Rescued? && t.producers == s.producers && t.links == s.links
  {
    hide DoPush, Produce, Convey, Consume;
    var s1 := Act(c, s, Access(FreeSlot));
    t := Act(c, s1, Access(AdvanceHead));
    hide Act, CanAct;
    ExecutionExtends(c, s, [], s, Access(FreeSlot));
    ExecutionExtends(c, s, [Access(FreeSlot)], s1, Access(AdvanceHead));
    assert [] + [Access(FreeSlot)] + [Access(AdvanceHead)] == [Access(FreeSlot), Access(AdvanceHead)];
  }

  /** The consumer announces the park; then the producer pushes and wins the CAS. */
  lemma WonDuringRecheck(c: RingConfig) returns (s: System, xs: seq<Action>, t: System)
    requires Sound(c)
    ensures var setup := OneEmptyEvent(c);
            && Wired(setup, s) && Starts(setup, s) && Executes(setup, s, xs, t) && NoTimeout(xs) && Used(setup, t)
            && t.producers == [Producer(Signalling(0), 0, 0)] && t.ring.slots[0].len == 0
            && t.consumer == Consumer(Recheck, 0, 0, 0) && t.ring.consumer == AtHead
  {
    var setup := OneEmptyEvent(c);
    s := StartUnused(c);
    DrainNothing(setup, s);
    var drained := [StartDrain, Access(LoadHead), Access(LoadHeadSeq)];
    var s1 := s.(consumer := Consumer(Parking, 0, 0, 0));
    var s2 := Act(setup, s1, StoreParked);
    assert s2 == s1.(consumer := Consumer(Recheck, 0, 0, 0), word := PARKED, parks := 1,
                     ring := s1.ring.(consumer := AtHead));
    PushEmpty(setup, s2);
    var s3 := s2.(ring := PublishedRing(s2.ring), producers := [Producer(Posting(0), 0, 0)]);
    t := Act(setup, s3, PostCas(0));
    assert t == s3.(producers := [Producer(Signalling(0), 0, 0)], word := RUNNING, wins := s3.wins + 1);
    hide Act, CanAct, Starts, Sound;
    ExecutionExtends(setup, s, drained, s1, StoreParked);
    ExecutionsJoin(setup, s, drained + [StoreParked], s2, SEARCH + WRITE, s3);
    ExecutionExtends(setup, s, drained + [StoreParked] + (SEARCH + WRITE), s3, PostCas(0));
    xs := drained + [StoreParked] + (SEARCH + WRITE) + [PostCas(0)];
  }

  /** On every sound geometry a consumer can be met by an unpark while it runs, although no park has timed
      out: the CAS is won while it looks again, and it stores RUNNING with the signal still on its way. */
  lemma RescuedConsumerIsWoken(c: RingConfig) returns (s: System, xs: seq<Action>, t: System)
    requires Sound(c)
    ensures var setup := OneEmptyEvent(c);
            Wired(setup, s) && Starts(setup, s) && Executes(setup, s, xs, t) && NoTimeout(xs) && MeetsRunning(t)
  {
    var setup := OneEmptyEvent(c);
    var ys, u;
    s, ys, u := WonDuringRecheck(c);
    RecheckFinds(setup, u);
    var v := u.(ring := u.ring.(consumer := AtHeadBytes(0, 0, [])));
    var w := RescueTakes(setup, v);
    var found := [Access(LoadHead), Access(LoadHeadSeq), Access(LoadLength)];
    var taken := [Access(FreeSlot), Access(AdvanceHead)];
    hide Act, CanAct, Starts, Sound, Used, MeetsRunning;
    ExecutionsJoin(setup, s, ys, u, found, v);
    ExecutionsJoin(setup, s, ys + found, v, taken, w);
    assert Busy(w, 0);
    var zs;
    zs, t := MetAfterStore(setup, s, ys + found + taken, w);
    ExecutionsJoin(setup, s, ys + found + taken, w, zs, t);
    xs := ys + found + taken + zs;
  }

  lemma MetAfterStore(c: Setup, s0: System, xs: seq<Action>, s: System) returns (zs: seq<Action>, t: System)
    requires Sound(c.ring) && Wired(c, s0) && Starts(c, s0) && Executes(c, s0, xs, s) && Wired(c, s)
    requires s.consumer.loop.Rescued? && AnyBusy(s)
    ensures Executes(c, s, zs, t) && NoTimeout(zs) && MeetsRunning(t)
  {
    hide Act, MeetsRunning, AnyBusy, Executes, Starts, Sound;
    StoreMeetsExactly(c, s);
    var u := Act(c, s, StoreRunning);
    var ys;
    ys, t :| OthersRan(c, ConsumerThread, u, ys, t) && MeetsRunning(t);
    zs := [StoreRunning] + ys;
    StoreThen(c, s, ys, t);
    forall i | 0 <= i < |zs| ensures !zs[i].ParkTimeout? {
      assert i > 0 ==> zs[i] == ys[i - 1] && !By(ys[i - 1], ConsumerThread);
    }
  }

  lemma StoreThen(c: Setup, s: System, ys: seq<Action>, t: System)
    requires Wired(c, s) && CanAct(c, s, StoreRunning) && Executes(c, Act(c, s, StoreRunning), ys, t)
    ensures Executes(c, s, [StoreRunning] + ys, t)
  {
    assert ([StoreRunning] + ys)[1..] == ys;
  }
}
