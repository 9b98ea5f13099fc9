/** What a setup, and nothing else, decides: whether a running consumer can be woken, whether a wake-up can be
    missed when the store of PARKED is seen late, and that with the timeout everything that fits arrives. */
module SetupTheorems {
  import opened RingModel
  import opened RingInvariant
  import opened Sums
  import opened System
  import opened SystemInvariant
  import opened Wakeup
  import opened Statistics
  import opened Progress
  import opened Idling
  import opened LateWakeups
  import opened Failures
  import opened StoreBuffer

  /** Some producer has an event that it can push. */
  predicate SomethingFits(c: Setup)
    requires c.ring.Sized()
  {
    exists j :: 0 <= j < |c.work| && FitCount(c.ring, c.work[j]) > 0
  }

  /** Otherwise nothing is ever reserved. */
  lemma NothingReserved(c: Setup, s: System)
    requires Sane(c, s) && !SomethingFits(c)
    ensures s.ring.log == []
  {
    AcceptedBound(c, s);
    hide SystemInv, StatInv, LogFits, FitCount;
    forall j | 0 <= j < |c.work| ensures Lengths(Accepted(c))[j] == 0 {
    }
    SumZero(Lengths(Accepted(c)));
  }

  // ----- A running consumer -----

  /** With no reservation no producer ever comes to the CAS, so that no line is ever busy. */
  lemma {:induction false} NeverBusy(c: Setup, s: System, actions: seq<Action>, t: System)
    requires Sane(c, s) && Wired(c, s) && !SomethingFits(c) && !AnyBusy(s) && Executes(c, s, actions, t)
    ensures |t.producers| == |t.links| && !AnyBusy(t)
    decreases |actions|
  {
    if actions != [] {
      var a := actions[0];
      var u := Act(c, s, a);
      NothingReserved(c, s);
      forall j: nat | j < |u.producers| ensures !Busy(u, j) {
        assert !Busy(s, j);
        BusyBegins(c, s, a, j);
        if a == PostCas(j) {
          assert ProducerOk(c, s, j);
        }
      }
      SaneStep(c, s, a);
      hide Act, CanAct, Sane, AnyBusy, SomethingFits;
      NeverBusy(c, u, actions[1..], t);
    }
  }

  /** A producer with an event that fits can leave the consumer about to store RUNNING with a signal on its
      way: it pushes while the consumer is parked, and the park times out. */
  lemma LateStoreReached(c: Setup) returns (s: System)
    requires Sound(c.ring) && SomethingFits(c)
    ensures Occurs(c, s) && Wired(c, s) && CanAct(c, s, StoreRunning) && AnyBusy(s)
  {
    var j :| 0 <= j < |c.work| && FitCount(c.ring, c.work[j]) > 0;
    var s0, xs, u := RestAfter(c, j, 0);
    var ys, v := PushAlone(c, u, j, 0);
    QuietRunExecutes(c, u, ys, v);
    hide Sane, Starts, NothingSent, OthersSilent;
    s := TimeOut(c, v, j);
    ExecutionsJoin(c, s0, xs, u, ys, v);
    ExecutionExtends(c, s0, xs + ys, v, ParkTimeout);
  }

  lemma TimeOut(c: Setup, s: System, j: nat) returns (t: System)
    requires Wired(c, s) && s.consumer.loop.Parked? && j < |s.links| && s.links[j].channel != []
    ensures CanAct(c, s, ParkTimeout) && t == Act(c, s, ParkTimeout)
    ensures Wired(c, t) && CanAct(c, t, StoreRunning) && AnyBusy(t)
  {
    hide Do;
    t := Act(c, s, ParkTimeout);
    assert Busy(t, j);
  }

  /** A running consumer can be met by an unpark if and only if some producer has an event that fits. */
  lemma RunningIsWokenIff(c: Setup)
    requires Sound(c.ring)
    ensures (exists t :: Occurs(c, t) && MeetsRunning(t)) <==> SomethingFits(c)
  {
    hide Act, CanAct, AnyBusy, MeetsRunning;
    RunningIsWokenExactly(c);
    if SomethingFits(c) {
      var s := LateStoreReached(c);
    } else {
      forall s | Occurs(c, s) ensures Wired(c, s) && !AnyBusy(s) {
        QuietLines(c, s);
      }
    }
  }

  lemma QuietLines(c: Setup, s: System)
    requires Sound(c.ring) && Occurs(c, s) && !SomethingFits(c)
    ensures Wired(c, s) && !AnyBusy(s)
  {
    OccursInv(c, s);
    var s0, xs :| Starts(c, s0) && Executes(c, s0, xs, s);
    StartSane(c, s0);
    NeverBusy(c, s0, xs, s);
  }

  // ----- The store of PARKED seen late -----

  /** A wake-up can be missed if and only if some producer has an event that fits. */
  lemma MissedIff(c: Setup)
    requires Sound(c.ring)
    ensures (exists d :: BufferedOccurs(c, d) && Wired(c, d.sys) && Missed(c, d)) <==> SomethingFits(c)
  {
    if SomethingFits(c) {
      var d := MissedReached(c);
    } else {
      forall d | BufferedOccurs(c, d) && Wired(c, d.sys) ensures !Missed(c, d) {
        OccursBuffered(c, d);
        NothingReserved(c, d.sys);
      }
    }
  }

  lemma MissedReached(c: Setup) returns (d: Buffered)
    requires Sound(c.ring) && SomethingFits(c)
    ensures BufferedOccurs(c, d) && Wired(c, d.sys) && Missed(c, d)
  {
    var s := StartOf(c);
    StartSane(c, s);
    StartHasMore(c, s);
    var xs, t := ReachParking(c, s);
    QuietRunExecutes(c, s, xs, t);
    ConsumerFrameRun(c, s, xs, t);
    StillBusy(s, t);
    Lift(c, Buffered(s, false), xs, t);
    SaneWired(c, t);
    KeepsMore(c, s, t);
    hide Sane, SomethingLeft, AnyBusy, HeadPublished, Missed, Stranded, BufferedInv, Starts;
    var ys, e := ParkHeld(c, Buffered(t, false));
    var zs;
    zs, d := MissWhileStranded(c, e);
    MovesJoin(c, Buffered(t, false), ys, e, zs, d);
    MovesJoin(c, Buffered(s, false), Plains(xs), Buffered(t, false), ys + zs, d);
  }

  lemma StartHasMore(c: Setup, s: System)
    requires Sound(c.ring) && SomethingFits(c) && Wired(c, s) && Starts(c, s)
    ensures SomethingLeft(c, s) && !AnyBusy(s) && !s.token
  {
    var j :| 0 <= j < |c.work| && FitCount(c.ring, c.work[j]) > 0;
    assert HasMore(c, s, j);
  }

  // ----- With the timeout -----

  /** A consumer parked over a published head may time out. */
  lemma Rouse(c: Setup, s: System) returns (t: System)
    requires Sane(c, s) && Wired(c, s) && HeadPublished(c, s) && s.consumer.loop.Parked?
    ensures CanAct(c, s, ParkTimeout) && t == Act(c, s, ParkTimeout)
    ensures Sane(c, t) && Wired(c, t) && HeadPublished(c, t) && !t.consumer.loop.Parked?
    ensures Freed(t.ring) == Freed(s.ring) && t.ring.tail == s.ring.tail
  {
    t := Act(c, s, ParkTimeout);
    SaneStep(c, s, ParkTimeout);
    HeadStays(c, s, ParkTimeout);
    hide Do, SystemInv, StatInv, LogFits, HeadPublished;
  }

  /** The consumer, roused if need be, takes out the published head. */
  lemma RouseAndTake(c: Setup, s: System) returns (xs: seq<Action>, t: System)
    requires Sane(c, s) && Wired(c, s) && HeadPublished(c, s)
    ensures Executes(c, s, xs, t) && Sane(c, t) && Wired(c, t)
    ensures Freed(t.ring) == Freed(s.ring) + 1 && t.ring.tail == s.ring.tail
  {
    hide Act, CanAct, SystemInv, StatInv, LogFits, HeadPublished;
    if s.consumer.loop.Parked? {
      var u := Rouse(c, s);
      var ys;
      ys, t := TakeTheHead(c, u);
      QuietRunExecutes(c, u, ys, t);
      ExecutionExtends(c, s, [], s, ParkTimeout);
      assert [] + [ParkTimeout] == [ParkTimeout];
      ExecutionsJoin(c, s, [ParkTimeout], u, ys, t);
      xs := [ParkTimeout] + ys;
    } else {
      xs, t := TakeTheHead(c, s);
      QuietRunExecutes(c, s, xs, t);
    }
    SaneWired(c, t);
  }

  lemma {:induction false} FinishWithTimeout(c: Setup, s: System) returns (xs: seq<Action>, t: System)
    requires Sane(c, s) && Wired(c, s)
    ensures Executes(c, s, xs, t) && Sane(c, t) && |t.ring.popped| == Sum(Lengths(Accepted(c)))
    decreases Sum(Lengths(Accepted(c))) - s.ring.tail, s.ring.tail - Freed(s.ring),
              if Freed(s.ring) == s.ring.tail || HeadPublished(c, s) then 0 else 1
  {
    hide StatInv, LogFits, Lengths, Accepted, Act, CanAct, HeadPublished;
    AcceptedBound(c, s);
    if Freed(s.ring) == s.ring.tail == Sum(Lengths(Accepted(c))) {
      xs, t := [], s;
    } else {
      var ys, u;
      if Freed(s.ring) == s.ring.tail {
        var j := SomeoneHasWork(c, s);
        ys, u := ReserveNext(c, s, j);
        QuietRunExecutes(c, s, ys, u);
      } else if !HeadPublished(c, s) {
        ys, u := PublishTheHead(c, s);
        QuietRunExecutes(c, s, ys, u);
      } else {
        ys, u := RouseAndTake(c, s);
      }
      SaneWired(c, u);
      AcceptedBound(c, u);
      var zs;
      zs, t := FinishWithTimeout(c, u);
      ExecutionsJoin(c, s, ys, u, zs, t);
      xs := ys + zs;
    }
  }

  /** With the timeout allowed the condition on failures falls away: from every reachable state of every
      setup, also after signals have died with their processes, everything that fits can be delivered. */
  lemma AlwaysDelivered(c: Setup, s: System) returns (xs: seq<Action>, t: System)
    requires Sound(c.ring) && Occurs(c, s) && Wired(c, s)
    ensures Executes(c, s, xs, t) && Occurs(c, t)
    ensures t.ring.popped == Data(t.ring.log) && Shares(t.ring.log, |c.work|) == Accepted(c)
  {
    OccursSane(c, s);
    xs, t := FinishWithTimeout(c, s);
    AcceptedBound(c, t);
    AllPopped(c, t);
    hide Act, CanAct, Sane, Accepted;
    var s0, before :| Starts(c, s0) && Executes(c, s0, before, s);
    ExecutionsJoin(c, s0, before, s, xs, t);
  }

  lemma AllPopped(c: Setup, s: System)
    requires Sane(c, s) && |s.ring.log| <= |s.ring.popped|
    ensures s.ring.popped == Data(s.ring.log)
  {
  }
}
