/** `consumer_loop`, over the bytes of the segment and with every other party running between any two
    of its accesses: drain, store PARKED, look once more, park, store RUNNING. */
module ConsumerLoop {
  import opened Words
  import opened Geometry
  import opened RingModel
  import opened RingInvariant
  import opened System
  import opened SystemInvariant
  import opened Statistics
  import opened Memory
  import opened Rely
  import opened Segment
  import opened Pop

  /** The consumer is outside `try_pop`, at `loop`. */
  ghost predicate AtLoop(s: System, loop: Loop) {
    s.consumer.loop == loop && s.ring.consumer == NotPopping
  }

  /** A step of the loop outside `try_pop`: the ring and the producers are as they were. */
  ghost predicate LoopFrame(s: System, t: System) {
    && t.producers == s.producers && t.links == s.links && t.postedCalls == s.postedCalls
    && t.ring == s.ring.(consumer := t.ring.consumer) && Freed(t.ring) == Freed(s.ring)
    && t.consumer.drained == s.consumer.drained
  }

  // ----- The steps outside `try_pop` -----

  lemma StartDrainEffect(c: Setup, s: System, m: seq<byte>)
    requires SystemInv(c, s) && AtLoop(s, Top) && Image(c.ring, m, s.ring, s.word)
    ensures CanAct(c, s, StartDrain)
    ensures var t := Act(c, s, StartDrain);
            && SameShared(s, t) && Image(c.ring, m, t.ring, t.word) && AtPop(t, AtHead)
            && t.consumer.loop.Drain? && t.consumer.drained == 0
            && t.ring.popped == s.ring.popped && t.ring.tail == s.ring.tail && Freed(t.ring) == Freed(s.ring)
  {
    SameImage(c.ring, m, s.ring, s.word, Act(c, s, StartDrain).ring);
    hide Image, SystemInv, DoPush;
  }

  method BeginDrain(seg: Segment)
    requires seg.me == ConsumerThread
    requires seg.Valid() && AtLoop(seg.sys, Top)
    modifies seg`sys, seg`run
    ensures seg.Valid() && seg.Since(old(seg.run), 1) && AtPop(seg.sys, AtHead)
    ensures seg.sys.consumer.loop.Drain? && seg.sys.consumer.drained == 0
    ensures seg.sys.ring.tail == old(seg.sys.ring.tail) && Freed(seg.sys.ring) == Freed(old(seg.sys.ring))
    ensures seg.sys.ring.popped == old(seg.sys.ring.popped)
  {
    hide Act, CanAct, Image, Begun, Executes, SystemInv, Starts, Wired, Sound, PopCount, AtPop, AtLoop;
    StartDrainEffect(seg.setup, seg.sys, seg.mem[..]);
    seg.ReadStep(StartDrain);
  }

  lemma CountOneEffect(c: Setup, s: System, m: seq<byte>, buf: seq<byte>, draining: bool)
    requires SystemInv(c, s) && AtLoop(s, CountEvent(buf, draining)) && Image(c.ring, m, s.ring, s.word)
    ensures CanAct(c, s, CountOne)
    ensures var t := Act(c, s, CountOne);
            && Image(c.ring, m, t.ring, t.word) && AtLoop(t, CountBytes(buf, draining)) && LoopFrame(s, t)
            && t.token == s.token
            && t.consumer.events == s.consumer.events + 1 && t.consumer.wireBytes == s.consumer.wireBytes
  {
    hide Image, SystemInv, Do;
  }

  /** `stats.events.fetch_add(1)` */
  method AddEvent(seg: Segment, ghost buf: seq<byte>, ghost draining: bool)
    requires seg.me == ConsumerThread
    requires seg.Valid() && AtLoop(seg.sys, CountEvent(buf, draining))
    modifies seg`sys, seg`run, seg`events
    ensures seg.Valid() && seg.Since(old(seg.run), 0) && AtLoop(seg.sys, CountBytes(buf, draining))
    ensures LoopFrame(old(seg.sys), seg.sys) && seg.events == Wrap64(old(seg.events) + 1)
  {
    hide Act, CanAct, Image, Begun, Executes, SystemInv, Starts, Wired, Sound, PopCount, AtLoop;
    CountOneEffect(seg.setup, seg.sys, seg.mem[..], buf, draining);
    WrapSum(seg.sys.consumer.events, 1);
    seg.events := Wrap64(seg.events + 1);
    seg.Take(CountOne);
  }

  lemma CountLengthEffect(c: Setup, s: System, m: seq<byte>, buf: seq<byte>, draining: bool)
    requires SystemInv(c, s) && AtLoop(s, CountBytes(buf, draining)) && Image(c.ring, m, s.ring, s.word)
    ensures CanAct(c, s, CountLength)
    ensures var t := Act(c, s, CountLength);
            && Image(c.ring, m, t.ring, t.word) && LoopFrame(s, t) && t.token == s.token
            && (if draining then AtPop(t, AtHead) && t.consumer.loop.Drain? else AtLoop(t, Top))
            && t.consumer.events == s.consumer.events && t.consumer.wireBytes == s.consumer.wireBytes + |buf|
  {
    SameImage(c.ring, m, s.ring, s.word, Act(c, s, CountLength).ring);
    hide Image, SystemInv, DoPush;
  }

  /** `stats.wire_bytes.fetch_add(buf.len())` */
  method AddBytes(seg: Segment, buf: seq<byte>, ghost draining: bool)
    requires seg.me == ConsumerThread
    requires seg.Valid() && AtLoop(seg.sys, CountBytes(buf, draining))
    modifies seg`sys, seg`run, seg`wireBytes
    ensures seg.Valid() && seg.Since(old(seg.run), 0)
    ensures if draining then AtPop(seg.sys, AtHead) && seg.sys.consumer.loop.Drain? else AtLoop(seg.sys, Top)
    ensures LoopFrame(old(seg.sys), seg.sys) && seg.wireBytes == Wrap64(old(seg.wireBytes) + |buf|)
  {
    hide Act, CanAct, Image, Begun, Executes, SystemInv, Starts, Wired, Sound, PopCount, AtLoop, AtPop;
    CountLengthEffect(seg.setup, seg.sys, seg.mem[..], buf, draining);
    WrapSum(seg.sys.consumer.wireBytes, |buf|);
    seg.wireBytes := Wrap64(seg.wireBytes + |buf|);
    seg.Take(CountLength);
  }

  lemma StoreParkedEffect(c: Setup, s: System, m: seq<byte>)
    requires SystemInv(c, s) && AtLoop(s, Parking) && Image(c.ring, m, s.ring, s.word)
    ensures CanAct(c, s, StoreParked) && |m| >= HDR
    ensures var t := Act(c, s, StoreParked);
            && SameShared(s, t) && LoopFrame(s, t) && t.word == PARKED
            && Image(c.ring, Store(m, STATE_OFFSET, ToLE(PARKED, 8)), t.ring, t.word)
            && AtPop(t, AtHead) && t.consumer.loop.Recheck?
  {
    var t := Act(c, s, StoreParked);
    StoreHeader(c.ring, m, s.ring, s.word, STATE_OFFSET, PARKED, t.ring, t.word);
    hide Image, SystemInv, DoPush;
  }

  /** `state.store(STATE_PARKED)` */
  method Announce(seg: Segment)
    requires seg.me == ConsumerThread
    requires seg.Valid() && AtLoop(seg.sys, Parking)
    modifies seg`sys, seg`run, seg.mem
    ensures seg.Valid() && seg.Since(old(seg.run), 0) && LoopFrame(old(seg.sys), seg.sys)
    ensures seg.sys.word == PARKED && AtPop(seg.sys, AtHead) && seg.sys.consumer.loop.Recheck?
    ensures seg.mem.Length >= HDR && seg.mem[..] == Store(old(seg.mem[..]), 128, ToLE(1, 8))
  {
    hide Act, CanAct, Image, Begun, Executes, SystemInv, Starts, Wired, Sound, PopCount, AtLoop, AtPop, LoopFrame,
         ToLE, Store;
    StoreParkedEffect(seg.setup, seg.sys, seg.mem[..]);
    seg.StoreStep(StoreParked, STATE_OFFSET, ToLE(PARKED, 8));
  }

  lemma StoreRunningEffect(c: Setup, s: System, m: seq<byte>)
    requires SystemInv(c, s) && (s.consumer.loop.Rescued? || s.consumer.loop.Waking?)
    requires Image(c.ring, m, s.ring, s.word)
    ensures CanAct(c, s, StoreRunning) && |m| >= HDR
    ensures var t := Act(c, s, StoreRunning);
            && SameShared(s, t) && LoopFrame(s, t) && t.word == RUNNING
            && Image(c.ring, Store(m, STATE_OFFSET, ToLE(RUNNING, 8)), t.ring, t.word)
            && AtLoop(t, if s.consumer.loop.Rescued? then CountEvent(s.consumer.loop.buf, false) else Top)
  {
    var t := Act(c, s, StoreRunning);
    StoreHeader(c.ring, m, s.ring, s.word, STATE_OFFSET, RUNNING, t.ring, t.word);
    hide Image, Inv, Do;
  }

  /** `state.store(STATE_RUNNING)` */
  method Withdraw(seg: Segment)
    requires seg.me == ConsumerThread
    requires seg.Valid() && (seg.sys.consumer.loop.Rescued? || seg.sys.consumer.loop.Waking?)
    modifies seg`sys, seg`run, seg.mem
    ensures seg.Valid() && seg.Since(old(seg.run), 0) && LoopFrame(old(seg.sys), seg.sys)
    ensures seg.sys.word == RUNNING
    ensures var loop := old(seg.sys).consumer.loop;
            AtLoop(seg.sys, if loop.Rescued? then CountEvent(loop.buf, false) else Top)
    ensures seg.mem.Length >= HDR && seg.mem[..] == Store(old(seg.mem[..]), 128, ToLE(0, 8))
  {
    hide Act, CanAct, Image, Begun, Executes, SystemInv, Starts, Wired, Sound, PopCount, AtLoop, AtPop, LoopFrame,
         ToLE, Store;
    StoreRunningEffect(seg.setup, seg.sys, seg.mem[..]);
    seg.StoreStep(StoreRunning, STATE_OFFSET, ToLE(RUNNING, 8));
  }

  lemma WakeEffect(c: Setup, s: System, m: seq<byte>, byToken: bool)
    requires SystemInv(c, s) && AtLoop(s, Parked) && Image(c.ring, m, s.ring, s.word)
    requires byToken ==> s.token
    ensures var a := if byToken then ParkReturn else ParkTimeout;
            && CanAct(c, s, a)
            && var t := Act(c, s, a);
            && Image(c.ring, m, t.ring, t.word) && LoopFrame(s, t) && AtLoop(t, Waking)
            && t.word == s.word && t.token == (s.token && !byToken)
            && t.consumer.events == s.consumer.events && t.consumer.wireBytes == s.consumer.wireBytes
  {
    hide Image, SystemInv, Do;
  }

  /** `park_timeout`: the others run for a while; a token, if one is there, is consumed, and otherwise
      the time is up. */
  method Park(seg: Segment)
    requires seg.me == ConsumerThread
    requires seg.Valid() && AtLoop(seg.sys, Parked)
    modifies seg, seg.mem
    ensures seg.Valid() && seg.Since(old(seg.run), 0)
    ensures AtLoop(seg.sys, Waking) && !seg.token && Freed(seg.sys.ring) == Freed(old(seg.sys.ring))
    ensures seg.sys.ring.tail + seg.budget == old(seg.sys.ring.tail + seg.budget)
    ensures seg.sys.consumer.drained == old(seg.sys.consumer.drained)
  {
    hide Act, CanAct, Image, Begun, Executes, SystemInv, Starts, Wired, Sound, PopCount;
    seg.YieldConsumer();
    WakeEffect(seg.setup, seg.sys, seg.mem[..], seg.token);
    seg.Take(if seg.token then ParkReturn else ParkTimeout);
    seg.token := false;
  }

  // ----- One message -----

  /** The two statistics updates that follow a message. */
  method Count(seg: Segment, buf: seq<byte>, ghost draining: bool)
    requires seg.me == ConsumerThread
    requires seg.Valid() && AtLoop(seg.sys, CountEvent(buf, draining))
    modifies seg, seg.mem
    ensures seg.Valid() && seg.Since(old(seg.run), 0)
    ensures if draining then AtPop(seg.sys, AtHead) && seg.sys.consumer.loop.Drain? else AtLoop(seg.sys, Top)
    ensures Freed(seg.sys.ring) == Freed(old(seg.sys.ring))
    ensures seg.sys.consumer.drained == old(seg.sys.consumer.drained)
    ensures seg.sys.ring.tail + seg.budget == old(seg.sys.ring.tail + seg.budget)
  {
    hide Act, CanAct, Image, Begun, Executes, SystemInv, Starts, Wired, Sound, PopCount;
    seg.YieldConsumer();
    AddEvent(seg, buf, draining);
    seg.YieldConsumer();
    AddBytes(seg, buf, draining);
  }

  // ----- Draining -----

  /** Everything that could be delivered in `s` is among the first `n` messages: each position that was
      published there together with all positions before it. */
  ghost predicate CaughtUp(c: RingConfig, s: System, n: nat) {
    Shape(c, s.ring) && forall q: nat :: Deliverable(c, s, q) ==> q < n
  }

  ghost predicate Deliverable(c: RingConfig, s: System, q: nat)
    requires Shape(c, s.ring)
  {
    Freed(s.ring) <= q && forall p: nat :: Freed(s.ring) <= p <= q ==> Published(c, s.ring, p)
  }

  /** A None that is later than `s` by any run proves that all that was deliverable in `s` is out. */
  lemma NoneMeansCaughtUp(c: Setup, origin: System, xs: seq<Action>, s: System, ys: seq<Action>, t: System)
    requires Sound(c.ring) && Wired(c, origin) && Executes(c, origin, xs, s) && Executes(c, origin, ys, t)
    requires xs <= ys && SystemInv(c, s) && Unready(c.ring, t, Freed(t.ring))
    ensures CaughtUp(c.ring, s, Freed(t.ring))
  {
    ExecutionsSplit(c, origin, xs, s, ys, t);
    hide Begun, Executes, Inv;
    forall q: nat | Deliverable(c.ring, s, q) ensures q < Freed(t.ring) {
      FreedNeverFalls(c, s, ys[|xs|..], t);
      if Freed(t.ring) <= q {
        PublishedOrFreed(c, s, ys[|xs|..], t, Freed(t.ring));
      }
    }
  }

  lemma FreedWithinTail(c: Setup, s: System)
    requires SystemInv(c, s)
    ensures Freed(s.ring) <= s.ring.tail
  {
  }

  lemma CountsUp(n: nat)
    ensures Truncate32(0) == 0 && (Truncate32(n) + 1) % TWO32 == Truncate32(Truncate32(n) + 1) == Truncate32(n + 1)
  {
  }

  /** The inner loop: take messages out until `try_pop` answers None. `drained` is the number taken,
      modulo 2^32; nothing that was deliverable when the loop began is left behind. */
  method Drain(seg: Segment) returns (drained: u32)
    requires seg.me == ConsumerThread
    requires seg.Valid() && AtPop(seg.sys, AtHead)
    requires seg.sys.consumer.loop.Drain? && seg.sys.consumer.drained == 0
    modifies seg, seg.mem
    ensures seg.Valid() && seg.Since(old(seg.run), 0)
    ensures Freed(old(seg.sys.ring)) <= Freed(seg.sys.ring)
    ensures drained == Truncate32(Freed(seg.sys.ring) - Freed(old(seg.sys.ring)))
    ensures AtLoop(seg.sys, if drained == 0 then Parking else Top)
    ensures CaughtUp(seg.cfg, old(seg.sys), Freed(seg.sys.ring))
    ensures seg.sys.ring.tail + seg.budget == old(seg.sys.ring.tail + seg.budget)
  {
    hide Act, CanAct, Image, Begun, Executes, SystemInv, Starts, Wired, Sound, PopCount, CaughtUp, Unready, Truncate32;
    drained := 0;
    ghost var first, taken := Freed(seg.sys.ring), 0;
    CountsUp(0);
    var buf: seq<byte> := [];
    var more := true;
    while more
      invariant seg.Valid() && seg.Since(old(seg.run), 0)
      invariant Freed(seg.sys.ring) == first + taken && drained == Truncate32(taken)
      invariant more ==> AtPop(seg.sys, AtHead) && seg.sys.consumer.loop.Drain? && seg.sys.consumer.drained == drained
      invariant !more ==> AtLoop(seg.sys, if drained == 0 then Parking else Top)
      invariant !more ==> CaughtUp(seg.cfg, old(seg.sys), Freed(seg.sys.ring))
      invariant seg.sys.ring.tail + seg.budget == old(seg.sys.ring.tail + seg.budget)
      decreases seg.sys.ring.tail + seg.budget - Freed(seg.sys.ring) + if more then 1 else 0
    {
      ghost var trail, start := seg.run, seg.sys;
      var r;
      r, buf := TryPop(seg, buf);
      FreedWithinTail(seg.setup, seg.sys);
      if r.Some? {
        CountsUp(taken);
        drained := (drained + 1) % TWO32;
        taken := taken + 1;
        Count(seg, buf, true);
      } else {
        NoneMeansCaughtUp(seg.setup, seg.origin, old(seg.run), old(seg.sys), trail, start);
        more := false;
      }
    }
  }

  /** Waiting without delivering anything makes no deliverable message undeliverable. */
  lemma CaughtUpEarlier(c: Setup, origin: System, xs: seq<Action>, s: System, ys: seq<Action>, t: System, n: nat)
    requires Sound(c.ring) && Wired(c, origin) && Executes(c, origin, xs, s) && Executes(c, origin, ys, t)
    requires xs <= ys && SystemInv(c, s) && Freed(t.ring) == Freed(s.ring) && CaughtUp(c.ring, t, n)
    ensures CaughtUp(c.ring, s, n)
  {
    ExecutionsSplit(c, origin, xs, s, ys, t);
    hide Begun, Executes, Inv;
    forall q: nat | Deliverable(c.ring, s, q) ensures q < n {
      forall p: nat | Freed(t.ring) <= p <= q ensures Published(c.ring, t.ring, p) {
        PublishedOrFreed(c, s, ys[|xs|..], t, p);
      }
      assert Deliverable(c.ring, t, q);
    }
  }

  lemma CaughtUpMore(c: RingConfig, s: System, n: nat, m: nat)
    requires CaughtUp(c, s, n) && n <= m
    ensures CaughtUp(c, s, m)
  {
  }

  /** One iteration of the outer loop. It ends where it began, having delivered everything that was
      deliverable at its beginning, whether or not it parked. */
  method Round(seg: Segment)
    requires seg.me == ConsumerThread
    requires seg.Valid() && AtLoop(seg.sys, Top)
    modifies seg, seg.mem
    ensures seg.Valid() && seg.Since(old(seg.run), 1) && AtLoop(seg.sys, Top)
    ensures CaughtUp(seg.cfg, old(seg.sys), Freed(seg.sys.ring))
    ensures Freed(old(seg.sys.ring)) <= Freed(seg.sys.ring)
    ensures seg.sys.ring.tail + seg.budget == old(seg.sys.ring.tail + seg.budget)
  {
    hide Act, CanAct, Image, Begun, Executes, SystemInv, Starts, Wired, Sound, PopCount, CaughtUp, Unready;
    seg.YieldConsumer();
    BeginDrain(seg);
    ghost var trail, start := seg.run, seg.sys;
    var drained := Drain(seg);
    ghost var n := Freed(seg.sys.ring);
    CaughtUpEarlier(seg.setup, seg.origin, old(seg.run), old(seg.sys), trail, start, n);
    if drained == 0 {
      LookAgain(seg);
    }
    CaughtUpMore(seg.cfg, old(seg.sys), n, Freed(seg.sys.ring));
  }

  /** Nothing was drained: announce the intention to park, look once more, park if still nothing. */
  method LookAgain(seg: Segment)
    requires seg.me == ConsumerThread
    requires seg.Valid() && AtLoop(seg.sys, Parking)
    modifies seg, seg.mem
    ensures seg.Valid() && seg.Since(old(seg.run), 0) && AtLoop(seg.sys, Top)
    ensures Freed(old(seg.sys.ring)) <= Freed(seg.sys.ring) <= Freed(old(seg.sys.ring)) + 1
    ensures seg.sys.ring.tail + seg.budget == old(seg.sys.ring.tail + seg.budget)
  {
    hide Act, CanAct, Image, Begun, Executes, SystemInv, Starts, Wired, Sound, PopCount, Unready;
    seg.YieldConsumer();
    Announce(seg);
    var r, buf := TryPop(seg, []);
    if r.Some? {
      seg.YieldConsumer();
      Withdraw(seg);
      Count(seg, buf, false);
    } else {
      Park(seg);
      seg.YieldConsumer();
      Withdraw(seg);
    }
  }

  /** The run `all` passed, with `n` iterations of the consumer begun since `before`, through a state at the
      top of the loop of which everything deliverable is among the first `m` messages. */
  ghost predicate CaughtUpAfter(c: Setup, origin: System, before: seq<Action>, all: seq<Action>, n: nat, m: nat)
    requires Wired(c, origin)
  {
    exists xs, u ::
      && before <= xs <= all && Executes(c, origin, xs, u) && AtLoop(u, Top)
      && Begun(ConsumerThread, xs) == Begun(ConsumerThread, before) + n && CaughtUp(c.ring, u, m)
  }

  /** `consumer_loop`, for the `rounds` iterations it makes before it sees the stop flag. When it returns,
      it has begun to drain that often, everything that could be delivered when it last began is out, the two
      statistics are the number and the byte sum of the messages delivered, modulo 2^64, and those are the
      payloads of the first reservations in order. */
  method ConsumerLoop(seg: Segment, rounds: nat)
    requires seg.me == ConsumerThread
    requires seg.Valid() && AtLoop(seg.sys, Top)
    modifies seg, seg.mem
    ensures seg.Valid() && seg.Since(old(seg.run), rounds) && AtLoop(seg.sys, Top)
    ensures seg.events == Wrap64(|seg.sys.ring.popped|) && seg.wireBytes == Wrap64(Bytes(seg.sys.ring.popped))
    ensures |seg.sys.ring.popped| <= |seg.sys.ring.log|
    ensures forall i :: 0 <= i < |seg.sys.ring.popped| ==> seg.sys.ring.popped[i] == seg.sys.ring.log[i].data
    ensures rounds > 0 ==> CaughtUp(seg.cfg, old(seg.sys), |seg.sys.ring.popped|)
    ensures rounds > 0 ==>
              CaughtUpAfter(seg.setup, seg.origin, old(seg.run), seg.run, rounds - 1, |seg.sys.ring.popped|)
  {
    hide Act, CanAct, Image, Begun, Executes, SystemInv, Starts, Wired, Sound, PopCount, CaughtUp;
    for i := 0 to rounds
      invariant seg.Valid() && seg.Since(old(seg.run), i) && AtLoop(seg.sys, Top)
      invariant i == 0 ==> seg.sys == old(seg.sys)
      invariant i > 0 ==> CaughtUp(seg.cfg, old(seg.sys), Freed(seg.sys.ring))
      invariant i > 0 ==>
                  CaughtUpAfter(seg.setup, seg.origin, old(seg.run), seg.run, i - 1, Freed(seg.sys.ring))
    {
      ghost var n, trail, start := Freed(seg.sys.ring), seg.run, seg.sys;
      Round(seg);
      assert trail <= seg.run && Executes(seg.setup, seg.origin, trail, start);
      if i > 0 {
        CaughtUpMore(seg.cfg, old(seg.sys), n, Freed(seg.sys.ring));
      }
    }
    Delivery(seg.setup, seg.sys);
    RunOccurs(seg.setup, seg.origin, seg.run, seg.sys);
    CountersLagByOne(seg.setup, seg.sys);
  }

  lemma Delivery(c: Setup, s: System)
    requires SystemInv(c, s)
    ensures |s.ring.popped| == Freed(s.ring) <= |s.ring.log|
    ensures forall i :: 0 <= i < |s.ring.popped| ==> s.ring.popped[i] == s.ring.log[i].data
  {
  }

  lemma RunOccurs(c: Setup, s: System, actions: seq<Action>, t: System)
    requires Wired(c, s) && Starts(c, s) && Executes(c, s, actions, t)
    ensures Occurs(c, t)
  {
  }
}
