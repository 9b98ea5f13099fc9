/** When an unpark can meet a consumer that is already running: exactly if the consumer has stored RUNNING
    while a signal was on its way; and what the consumer could know of that when it stores. */
module LateWakeups {
  import opened Geometry
  import opened RingModel
  import opened RingInvariant
  import opened Sums
  import opened System
  import opened SystemInvariant
  import opened Wakeup
  import opened Signals
  import opened Rely

  /** From the store of PARKED to the next store of RUNNING. */
  predicate InWindow(s: System) {
    var loop := s.consumer.loop;
    loop.Recheck? || loop.Rescued? || loop.Parked? || loop.Waking?
  }

  ghost predicate AnyBusy(s: System)
    requires |s.producers| == |s.links|
  {
    exists j: nat :: j < |s.producers| && Busy(s, j)
  }

  /** The server is about to unpark a consumer that runs. */
  ghost predicate MeetsRunning(s: System) {
    !InWindow(s) && exists j: nat :: j < |s.links| && s.links[j].reader.Unparking?
  }

  /** The consumer stores RUNNING with a signal on its way. */
  ghost predicate StoresLate(s: System, a: Action)
    requires |s.producers| == |s.links|
  {
    a.StoreRunning? && AnyBusy(s)
  }

  ghost predicate HasLateStore(c: Setup, s: System, actions: seq<Action>, t: System)
    requires Wired(c, s) && Executes(c, s, actions, t)
    decreases |actions|
  {
    actions != [] && (StoresLate(s, actions[0]) || HasLateStore(c, Act(c, s, actions[0]), actions[1..], t))
  }

  // ----- Without such a store no unpark comes late -----

  /** Outside the window nothing is on its way. */
  ghost predicate Settled(s: System)
    requires |s.producers| == |s.links|
  {
    !InWindow(s) ==> !AnyBusy(s)
  }

  /** A line becomes busy only by a CAS that finds PARKED. */
  lemma BusyBegins(c: Setup, s: System, a: Action, j: nat)
    requires SystemInv(c, s) && CanAct(c, s, a) && j < |s.producers| && !Busy(s, j)
    ensures Wired(c, s) && (Busy(Act(c, s, a), j) ==> a == PostCas(j) && s.word == PARKED)
  {
    assert Wired(c, s);
    hide Do, SystemInv, DoAccess, Produce, Convey, Consume, Busy;
    if a.Access? {
      NotByAccess(c, s, a.step, j);
    } else if IsProducerAction(a) {
      NotByProducer(c, s, a, j);
    } else if IsLinkAction(a) {
      NotByLine(c, s, a, j);
    } else {
      NotByConsumer(c, s, a, j);
    }
  }

  lemma NotByAccess(c: Setup, s: System, step: Step, j: nat)
    requires Wired(c, s) && CanAccess(c, s, step) && j < |s.producers| && !Busy(s, j)
    ensures !Busy(DoAccess(c, s, step), j)
  {
    hide Do;
  }

  lemma NotByProducer(c: Setup, s: System, a: Action, j: nat)
    requires Wired(c, s) && IsProducerAction(a) && CanProduce(c, s, a) && j < |s.producers| && !Busy(s, j)
    ensures Busy(Produce(c, s, a), j) ==> a == PostCas(j) && s.word == PARKED
  {
    hide Do;
  }

  lemma NotByLine(c: Setup, s: System, a: Action, j: nat)
    requires Wired(c, s) && IsLinkAction(a) && CanLink(c, s, a) && j < |s.producers| && !Busy(s, j)
    ensures !Busy(Convey(c, s, a), j)
  {
    hide Do;
  }

  lemma NotByConsumer(c: Setup, s: System, a: Action, j: nat)
    requires Wired(c, s) && !a.Access? && !IsProducerAction(a) && !IsLinkAction(a) && CanConsume(c, s, a)
    requires j < |s.producers| && !Busy(s, j)
    ensures !Busy(Consume(c, s, a), j)
  {
    hide Do;
  }

  /** The window closes only by a store of RUNNING. */
  lemma WindowEnds(c: Setup, s: System, a: Action)
    requires SystemInv(c, s) && CanAct(c, s, a)
    ensures Wired(c, s)
    ensures InWindow(s) && !InWindow(Act(c, s, a)) ==> a.StoreRunning?
    ensures s.word == PARKED ==> InWindow(s)
  {
    assert Wired(c, s);
    hide Do, Inv;
  }

  lemma SettledStep(c: Setup, s: System, a: Action)
    requires SystemInv(c, s) && Settled(s) && CanAct(c, s, a) && !StoresLate(s, a)
    ensures Wired(c, s) && Settled(Act(c, s, a))
  {
    WindowEnds(c, s, a);
    var t := Act(c, s, a);
    hide Act, CanAct, SystemInv, Busy, InWindow;
    if !InWindow(t) {
      assert !AnyBusy(s);
      forall j: nat | j < |t.producers| ensures !Busy(t, j) {
        BusyBegins(c, s, a, j);
      }
    }
  }

  lemma {:induction false} SettledRun(c: Setup, s: System, actions: seq<Action>, t: System)
    requires Sound(c.ring) && SystemInv(c, s) && Settled(s) && Executes(c, s, actions, t)
    requires !HasLateStore(c, s, actions, t)
    ensures |t.producers| == |t.links| && Settled(t)
    decreases |actions|
  {
    if actions != [] {
      SettledStep(c, s, actions[0]);
      ActInv(c, s, actions[0]);
      hide Act, CanAct, SystemInv, StoresLate, Settled;
      SettledRun(c, Act(c, s, actions[0]), actions[1..], t);
    }
  }

  /** An unpark that meets a running consumer has a store of RUNNING made while a line was busy before it. */
  lemma MeetingNeedsLateStore(c: Setup, s: System, actions: seq<Action>, t: System)
    requires Sound(c.ring) && Wired(c, s) && Starts(c, s) && Executes(c, s, actions, t) && MeetsRunning(t)
    ensures HasLateStore(c, s, actions, t)
  {
    StartsInv(c, s);
    if !HasLateStore(c, s, actions, t) {
      SettledRun(c, s, actions, t);
      ExecutionInv(c, s, actions, t);
      var j: nat :| j < |t.links| && t.links[j].reader.Unparking?;
      assert Busy(t, j);
    }
  }

  // ----- After such a store one can -----

  /** Nothing but line `j` and its producer moves. */
  predicate OnLine(a: Action, j: nat) {
    a == Signal(j) || (IsLinkAction(a) && a.j == j)
  }

  function CarryMove(s: System, j: nat): Action
    requires j < |s.producers| && j < |s.links|
  {
    var l := s.links[j];
    if l.reader.Counting? then CountPosted(j)
    else if l.socket != [] then ReadLine(j)
    else if l.writer.Holding? then WriterSend(j)
    else if l.channel != [] then WriterRecv(j)
    else Signal(j)
  }

  function CarryRank(s: System, j: nat): nat
    requires j < |s.producers| && j < |s.links|
  {
    var l := s.links[j];
    if l.reader.Unparking? then 0
    else if l.reader.Counting? then 1
    else if l.socket != [] then 2
    else if l.writer.Holding? then 3
    else if l.channel != [] then 4
    else 5
  }

  /** What such moves leave alone. */
  ghost predicate CarryFrame(s: System, t: System, j: nat) {
    && t.ring == s.ring && t.word == s.word && t.consumer == s.consumer
    && |s.producers| == |t.producers| == |s.links| == |t.links| == |s.ring.producers|
    && (forall i: nat :: i < |s.links| && i != j ==> t.links[i] == s.links[i] && t.producers[i] == s.producers[i])
    && (j < |s.producers| ==> ReservedBy(t, j) == ReservedBy(s, j))
  }

  lemma CarryOn(s: System, t: System, u: System, j: nat)
    requires CarryFrame(s, t, j) && CarryFrame(t, u, j)
    ensures CarryFrame(s, u, j)
  {
  }

  lemma CarryMoves(c: Setup, s: System, j: nat)
    requires SystemInv(c, s) && j < |s.producers| && Busy(s, j) && !s.links[j].reader.Unparking?
    ensures Wired(c, s)
    ensures var a := CarryMove(s, j);
            CanAct(c, s, a) && OnLine(a, j) &&
            (var t := Act(c, s, a);
             && CarryFrame(s, t, j) && t.token == s.token && Busy(t, j) && CarryRank(t, j) < CarryRank(s, j)
             && Load(t.producers[j], t.links[j]) == Load(s.producers[j], s.links[j]))
  {
    assert LinkOk(c, s, j) && ProducerOk(c, s, j);
    if CarryMove(s, j).Signal? {
      FirstMove(c, s, j);
    } else {
      LaterMoves(c, s, j);
    }
  }

  lemma FirstMove(c: Setup, s: System, j: nat)
    requires SystemInv(c, s) && j < |s.producers| && Busy(s, j) && !s.links[j].reader.Unparking?
    requires CarryMove(s, j).Signal?
    ensures Wired(c, s)
    ensures var a := CarryMove(s, j);
            CanAct(c, s, a) && OnLine(a, j) &&
            (var t := Act(c, s, a);
             && CarryFrame(s, t, j) && t.token == s.token && Busy(t, j) && CarryRank(t, j) < CarryRank(s, j)
             && Load(t.producers[j], t.links[j]) == Load(s.producers[j], s.links[j]))
  {
    assert LinkOk(c, s, j) && ProducerOk(c, s, j);
    assert Wired(c, s);
    hide Do, DoAccess, Consume, Convey, SystemInv;
  }

  lemma LaterMoves(c: Setup, s: System, j: nat)
    requires SystemInv(c, s) && j < |s.producers| && Busy(s, j) && !s.links[j].reader.Unparking?
    requires !CarryMove(s, j).Signal?
    ensures Wired(c, s)
    ensures var a := CarryMove(s, j);
            CanAct(c, s, a) && OnLine(a, j) &&
            (var t := Act(c, s, a);
             && CarryFrame(s, t, j) && t.token == s.token && Busy(t, j) && CarryRank(t, j) < CarryRank(s, j)
             && Load(t.producers[j], t.links[j]) == Load(s.producers[j], s.links[j]))
  {
    assert LinkOk(c, s, j);
    assert Wired(c, s);
    ConveyMoves(c, s, j);
    hide Do, DoAccess, Consume, Produce, Convey, SystemInv, CarryFrame, Busy, Load, CarryRank;
  }

  lemma ConveyMoves(c: Setup, s: System, j: nat)
    requires Wired(c, s) && j < |s.producers| && Busy(s, j) && !s.links[j].reader.Unparking? && LinkOk(c, s, j)
    requires !CarryMove(s, j).Signal?
    ensures var a := CarryMove(s, j);
            IsLinkAction(a) && a.j == j && CanLink(c, s, a) &&
            (var t := Convey(c, s, a);
             && CarryFrame(s, t, j) && t.token == s.token && Busy(t, j) && CarryRank(t, j) < CarryRank(s, j)
             && Load(t.producers[j], t.links[j]) == Load(s.producers[j], s.links[j]))
  {
    hide Do;
  }

  /** A signal on its way can be carried to the unpark call without the consumer. */
  lemma {:induction false} CarryToUnpark(c: Setup, s: System, j: nat) returns (xs: seq<Action>, t: System)
    requires Sound(c.ring) && SystemInv(c, s) && Wired(c, s) && j < |s.producers| && Busy(s, j)
    ensures Executes(c, s, xs, t) && forall i :: 0 <= i < |xs| ==> !By(xs[i], ConsumerThread)
    ensures SystemInv(c, t) && Wired(c, t) && CarryFrame(s, t, j) && t.token == s.token
    ensures t.links[j].reader.Unparking? && Load(t.producers[j], t.links[j]) == Load(s.producers[j], s.links[j])
    decreases CarryRank(s, j)
  {
    if s.links[j].reader.Unparking? {
      xs, t := [], s;
    } else {
      CarryMoves(c, s, j);
      var a := CarryMove(s, j);
      assert !By(a, ConsumerThread);
      ActInv(c, s, a);
      var u := Act(c, s, a);
      hide Act, CanAct, SystemInv, By, CarryMove, CarryRank, Busy, Load, ReservedBy;
      var ys;
      ys, t := CarryToUnpark(c, u, j);
      CarryOn(s, u, t, j);
      hide CarryFrame;
      xs := [a] + ys;
      assert xs[1..] == ys;
    }
  }

  lemma UnparkLine(c: Setup, s: System, j: nat)
    requires SystemInv(c, s) && j < |s.links| && s.links[j].reader.Unparking?
    ensures Wired(c, s) && CanAct(c, s, Unpark(j))
    ensures var t := Act(c, s, Unpark(j));
            && CarryFrame(s, t, j) && t.token
            && Load(t.producers[j], t.links[j]) < Load(s.producers[j], s.links[j])
  {
    assert Wired(c, s);
    hide Do, SystemInv;
  }

  /** All signals of one line become the token. */
  lemma {:induction false} FlushLine(c: Setup, s: System, j: nat) returns (xs: seq<Action>, t: System)
    requires Sound(c.ring) && SystemInv(c, s) && Wired(c, s) && j < |s.producers|
    ensures Executes(c, s, xs, t) && forall i :: 0 <= i < |xs| ==> !By(xs[i], ConsumerThread)
    ensures SystemInv(c, t) && Wired(c, t) && CarryFrame(s, t, j) && !Busy(t, j)
    ensures t.token == (s.token || Busy(s, j))
    decreases Load(s.producers[j], s.links[j])
  {
    if !Busy(s, j) {
      xs, t := [], s;
    } else {
      var ys, u := CarryToUnpark(c, s, j);
      UnparkLine(c, u, j);
      ActInv(c, u, Unpark(j));
      var v := Act(c, u, Unpark(j));
      assert !By(Unpark(j), ConsumerThread);
      hide Act, CanAct, SystemInv, By, Busy, Load;
      ExecutionExtends(c, s, ys, u, Unpark(j));
      var zs;
      zs, t := FlushLine(c, v, j);
      xs := ys + [Unpark(j)] + zs;
      ExecutionsJoin(c, s, ys + [Unpark(j)], v, zs, t);
    }
  }

  /** What carrying signals leaves alone. */
  ghost predicate FlushFrame(s: System, t: System) {
    && t.ring == s.ring && t.word == s.word && t.consumer == s.consumer
    && |s.producers| == |t.producers| == |s.links| == |t.links| == |s.ring.producers|
    && forall i: nat :: i < |s.producers| ==> ReservedBy(t, i) == ReservedBy(s, i)
  }

  /** All signals of the first `n` lines become the token. */
  lemma {:induction false} Flush(c: Setup, s: System, n: nat) returns (xs: seq<Action>, t: System)
    requires Sound(c.ring) && SystemInv(c, s) && Wired(c, s) && n <= |s.producers|
    ensures Executes(c, s, xs, t) && forall i :: 0 <= i < |xs| ==> !By(xs[i], ConsumerThread)
    ensures SystemInv(c, t) && Wired(c, t) && FlushFrame(s, t)
    ensures forall j: nat :: j < n ==> !Busy(t, j)
    ensures forall j: nat :: n <= j < |s.producers| ==> (Busy(t, j) <==> Busy(s, j))
    ensures t.token <==> s.token || exists j: nat :: j < n && Busy(s, j)
  {
    if n == 0 {
      xs, t := [], s;
    } else {
      var ys, u := Flush(c, s, n - 1);
      var zs;
      zs, t := FlushLine(c, u, n - 1);
      hide Act, CanAct, SystemInv, By;
      xs := ys + zs;
      ExecutionsJoin(c, s, ys, u, zs, t);
      forall i: nat | i < |s.producers| && i != n - 1
        ensures ReservedBy(t, i) == ReservedBy(u, i) && (Busy(t, i) <==> Busy(u, i))
      {
      }
    }
  }

  /** Whether the others can still meet the consumer running, if it does nothing more itself. */
  ghost predicate CanMeet(c: Setup, s: System)
    requires Wired(c, s)
  {
    exists xs, t :: OthersRan(c, ConsumerThread, s, xs, t) && MeetsRunning(t)
  }

  lemma {:induction false} NothingBegins(c: Setup, s: System, actions: seq<Action>, t: System)
    requires Sound(c.ring) && SystemInv(c, s) && !InWindow(s) && !AnyBusy(s)
    requires OthersRan(c, ConsumerThread, s, actions, t)
    ensures !MeetsRunning(t)
    decreases |actions|
  {
    if actions == [] {
      forall j: nat | j < |s.links| ensures !s.links[j].reader.Unparking? {
        assert !Busy(s, j);
      }
    } else {
      var a := actions[0];
      assert !By(a, ConsumerThread);
      assert !StoresLate(s, a);
      SettledStep(c, s, a);
      ConsumerKeepsStep(c, s, a);
      ActInv(c, s, a);
      var u := Act(c, s, a);
      assert u.consumer == s.consumer;
      assert forall i :: 0 <= i < |actions[1..]| ==> actions[1..][i] == actions[i + 1];
      hide Act, CanAct, By, SystemInv, AnyBusy, MeetsRunning;
      NothingBegins(c, u, actions[1..], t);
    }
  }

  /** A store of RUNNING lets an unpark meet the running consumer exactly if a line is busy at the store. */
  lemma StoreMeetsExactly(c: Setup, s: System)
    requires Sound(c.ring) && Occurs(c, s) && Wired(c, s) && CanAct(c, s, StoreRunning)
    ensures CanMeet(c, Act(c, s, StoreRunning)) <==> AnyBusy(s)
  {
    OccursInv(c, s);
    var t := Act(c, s, StoreRunning);
    ActInv(c, s, StoreRunning);
    assert !InWindow(t) && t.links == s.links && t.producers == s.producers;
    if AnyBusy(s) {
      var j: nat :| j < |s.producers| && Busy(s, j);
      assert Busy(t, j);
      var xs, u := CarryToUnpark(c, t, j);
      assert OthersRan(c, ConsumerThread, t, xs, u) && MeetsRunning(u);
    } else {
      forall j: nat | j < |t.producers| ensures !Busy(t, j) {
        assert !Busy(s, j);
      }
      forall xs, u | OthersRan(c, ConsumerThread, t, xs, u) ensures !MeetsRunning(u) {
        NothingBegins(c, t, xs, u);
      }
    }
  }

  /** Over all runs of a setup: a running consumer can be met by an unpark if and only if the consumer can
      store RUNNING while a line is busy. */
  lemma RunningIsWokenExactly(c: Setup)
    requires Sound(c.ring)
    ensures (exists t :: Occurs(c, t) && MeetsRunning(t)) <==>
            (exists s :: Occurs(c, s) && Wired(c, s) && CanAct(c, s, StoreRunning) && AnyBusy(s))
  {
    hide Act, CanAct, MeetsRunning, AnyBusy;
    if t :| Occurs(c, t) && MeetsRunning(t) {
      var s := StoreBefore(c, t);
    }
    if s :| Occurs(c, s) && Wired(c, s) && CanAct(c, s, StoreRunning) && AnyBusy(s) {
      var t := MeetingAfter(c, s);
    }
  }

  lemma StoreBefore(c: Setup, t: System) returns (s: System)
    requires Sound(c.ring) && Occurs(c, t) && MeetsRunning(t)
    ensures Occurs(c, s) && Wired(c, s) && CanAct(c, s, StoreRunning) && AnyBusy(s)
  {
    hide Act, CanAct, MeetsRunning, AnyBusy, Sound;
    var s0, actions :| Starts(c, s0) && Executes(c, s0, actions, t);
    MeetingNeedsLateStore(c, s0, actions, t);
    s := LateStoreState(c, s0, [], s0, actions, t);
  }

  lemma MeetingAfter(c: Setup, s: System) returns (t: System)
    requires Sound(c.ring) && Occurs(c, s) && Wired(c, s) && CanAct(c, s, StoreRunning) && AnyBusy(s)
    ensures Occurs(c, t) && MeetsRunning(t)
  {
    StoreMeetsExactly(c, s);
    hide Act, CanAct, MeetsRunning, AnyBusy, Sound;
    var u := Act(c, s, StoreRunning);
    var xs;
    xs, t :| OthersRan(c, ConsumerThread, u, xs, t) && MeetsRunning(t);
    var s0, before :| Starts(c, s0) && Executes(c, s0, before, s);
    ExecutionExtends(c, s0, before, s, StoreRunning);
    ExecutionsJoin(c, s0, before + [StoreRunning], u, xs, t);
  }

  lemma {:induction false} LateStoreState(c: Setup, s0: System, before: seq<Action>, s: System,
        actions: seq<Action>, t: System)
    returns (late: System)
    requires Wired(c, s0) && Starts(c, s0) && Executes(c, s0, before, s) && Wired(c, s)
    requires Executes(c, s, actions, t) && HasLateStore(c, s, actions, t)
    ensures Occurs(c, late) && Wired(c, late) && CanAct(c, late, StoreRunning) && AnyBusy(late)
    decreases |actions|
  {
    if StoresLate(s, actions[0]) {
      late := s;
    } else {
      var u := Act(c, s, actions[0]);
      ExecutionExtends(c, s0, before, s, actions[0]);
      hide Act, CanAct, StoresLate, AnyBusy;
      late := LateStoreState(c, s0, before + [actions[0]], u, actions[1..], t);
    }
  }

  // ----- What the consumer can know -----

  /** Signals of one line from the won CAS to the end of the unpark call. */
  function Load(p: Producer, l: Link): nat {
    Travelling(p, l) + (if l.reader.Unparking? then 1 else 0)
  }

  function Loads(s: System): (f: seq<nat>)
    requires |s.producers| == |s.links|
    ensures |f| == |s.links|
    ensures forall j :: 0 <= j < |f| ==> f[j] == Load(s.producers[j], s.links[j])
  {
    seq(|s.links|, j requires 0 <= j < |s.links| => Load(s.producers[j], s.links[j]))
  }

  /** ... and those that were lost. */
  function Accounts(s: System): (f: seq<nat>)
    requires |s.producers| == |s.links|
    ensures |f| == |s.links|
    ensures forall j :: 0 <= j < |f| ==> f[j] == Loads(s)[j] + LostOnes(s)[j]
  {
    seq(|s.links|, j requires 0 <= j < |s.links| => Load(s.producers[j], s.links[j]) + |s.links[j].lost|)
  }

  lemma BusyIsLoaded(s: System)
    requires |s.producers| == |s.links|
    ensures AnyBusy(s) <==> Sum(Loads(s)) > 0
  {
    if j: nat :| j < |s.producers| && Busy(s, j) {
      SumUpdate(Loads(s), j, 0);
      assert Loads(s)[j] > 0;
    } else {
      forall j | 0 <= j < |s.links| ensures Loads(s)[j] == 0 {
        assert !Busy(s, j);
      }
      SumZero(Loads(s));
    }
  }

  lemma AccountsSplit(s: System)
    requires |s.producers| == |s.links|
    ensures Sum(Accounts(s)) == Sum(Loads(s)) + Sum(LostOnes(s))
  {
    SumAdd(Loads(s), LostOnes(s), Accounts(s));
  }

  function Unparks(actions: seq<Action>): nat {
    if actions == [] then 0 else (if actions[0].Unpark? then 1 else 0) + Unparks(actions[1..])
  }

  lemma {:induction false} UnparksCount(actions: seq<Action>)
    ensures Unparks(actions) == 0 <==> forall i :: 0 <= i < |actions| ==> !actions[i].Unpark?
  {
    if actions != [] {
      UnparksCount(actions[1..]);
      assert forall i :: 0 < i < |actions| ==> actions[i] == actions[1..][i - 1];
    }
  }

  /** The account of the line that moves. */
  ghost predicate AccountMoves(s: System, t: System, a: Action, j: nat)
    requires j < |s.producers| == |s.links| == |t.producers| == |t.links|
  {
    Accounts(t)[j] + (if a.Unpark? then 1 else 0) + s.wins == Accounts(s)[j] + t.wins
  }

  lemma AccountOfProducer(c: Setup, s: System, a: Action)
    requires Wired(c, s) && IsProducerAction(a) && CanProduce(c, s, a) && LinkOk(c, s, a.j)
    ensures AccountMoves(s, Produce(c, s, a), a, a.j)
  {
    hide Do, Shape;
    var j, t := a.j, Produce(c, s, a);
    assert Accounts(s)[j] == Load(s.producers[j], s.links[j]) + |s.links[j].lost|;
    assert Accounts(t)[j] == Load(t.producers[j], t.links[j]) + |t.links[j].lost|;
    hide Accounts;
  }

  lemma AccountOfLine(c: Setup, s: System, a: Action)
    requires Wired(c, s) && IsLinkAction(a) && CanLink(c, s, a) && LinkOk(c, s, a.j)
    ensures AccountMoves(s, Convey(c, s, a), a, a.j)
  {
    hide Do;
  }

  lemma AccountElsewhere(c: Setup, s: System, a: Action, j: nat)
    requires Wired(c, s) && CanAct(c, s, a) && j < |s.links|
    requires (IsProducerAction(a) || IsLinkAction(a)) ==> a.j != j
    ensures Accounts(Act(c, s, a))[j] == Accounts(s)[j]
  {
    hide Act, CanAct;
    OneLine(c, s, a, j);
  }

  lemma AccountStep(c: Setup, s: System, a: Action)
    requires SystemInv(c, s) && CanAct(c, s, a)
    ensures Wired(c, s)
    ensures var t := Act(c, s, a);
            Sum(Accounts(t)) + (if a.Unpark? then 1 else 0) + s.wins == Sum(Accounts(s)) + t.wins
  {
    hide Act, CanAct, Accounts, Inv;
    assert Wired(c, s);
    if IsProducerAction(a) || IsLinkAction(a) {
      LineAccountStep(c, s, a);
    } else {
      QuietFrame(c, s, a);
      var f, g := Accounts(s), Accounts(Act(c, s, a));
      forall j: nat | j < |f| ensures g[j] == f[j] {
        AccountElsewhere(c, s, a, j);
      }
      assert g == f;
    }
  }

  lemma LineAccountStep(c: Setup, s: System, a: Action)
    requires SystemInv(c, s) && Wired(c, s) && CanAct(c, s, a) && (IsProducerAction(a) || IsLinkAction(a))
    ensures var t := Act(c, s, a);
            Sum(Accounts(t)) + (if a.Unpark? then 1 else 0) + s.wins == Sum(Accounts(s)) + t.wins
  {
    hide Act, CanAct, Accounts, SystemInv;
    var f, g := Accounts(s), Accounts(Act(c, s, a));
    OwnAccount(c, s, a);
    forall j | 0 <= j < |f| && j != a.j ensures g[j] == f[j] {
      AccountElsewhere(c, s, a, j);
    }
    SumOneChange(f, g, a.j, (if a.Unpark? then 1 else 0) + s.wins, Act(c, s, a).wins);
  }

  lemma OwnAccount(c: Setup, s: System, a: Action)
    requires SystemInv(c, s) && CanAct(c, s, a) && (IsProducerAction(a) || IsLinkAction(a))
    ensures Wired(c, s) && a.j < |s.links| && AccountMoves(s, Act(c, s, a), a, a.j)
  {
    assert Wired(c, s) && a.j < |s.links|;
    assert LinkOk(c, s, a.j);
    hide Produce, Convey, AccountMoves, SystemInv;
    if IsProducerAction(a) {
      AccountOfProducer(c, s, a);
    } else {
      AccountOfLine(c, s, a);
    }
  }

  lemma WordStep(c: Setup, s: System, a: Action)
    requires SystemInv(c, s) && CanAct(c, s, a) && !a.StoreParked? && !a.StoreRunning?
    ensures var t := Act(c, s, a);
            && (t.word == PARKED ==> s.word == PARKED) && (t.word == PARKED || t.word == RUNNING)
            && t.wins == s.wins + (if s.word == PARKED && t.word != PARKED then 1 else 0)
  {
    assert Wired(c, s) && ConsumerOk(s);
    hide Do, SystemInv;
  }

  /** A stretch between the consumer's stores to the word. */
  ghost predicate NoStores(actions: seq<Action>) {
    forall i :: 0 <= i < |actions| ==> !actions[i].StoreParked? && !actions[i].StoreRunning?
  }

  lemma {:induction false} WindowBooks(c: Setup, s: System, actions: seq<Action>, t: System)
    requires Sound(c.ring) && SystemInv(c, s) && Executes(c, s, actions, t) && NoStores(actions)
    requires s.word == PARKED || s.word == RUNNING
    ensures SystemInv(c, t) && |s.producers| == |s.links| && |t.producers| == |t.links|
    ensures (t.word == PARKED ==> s.word == PARKED) && (t.word == PARKED || t.word == RUNNING)
    ensures Sum(Accounts(t)) + Unparks(actions) ==
            Sum(Accounts(s)) + (if s.word == PARKED && t.word != PARKED then 1 else 0)
    decreases |actions|
  {
    if actions != [] {
      var a := actions[0];
      AccountStep(c, s, a);
      WordStep(c, s, a);
      ActInv(c, s, a);
      var u := Act(c, s, a);
      assert forall i :: 0 <= i < |actions[1..]| ==> actions[1..][i] == actions[i + 1];
      hide Act, CanAct, SystemInv, Accounts;
      WindowBooks(c, u, actions[1..], t);
    }
  }

  lemma {:induction false} LossesGrow(c: Setup, s: System, actions: seq<Action>, t: System)
    requires Sound(c.ring) && SystemInv(c, s) && Executes(c, s, actions, t)
    ensures |t.links| == |s.links| && Sum(LostOnes(s)) <= Sum(LostOnes(t))
    decreases |actions|
  {
    if actions != [] {
      var a := actions[0];
      var u := Act(c, s, a);
      ActInv(c, s, a);
      forall j: nat | j < |s.links| ensures LostOnes(s)[j] <= LostOnes(u)[j] {
        LostLine(c, s, a, j);
      }
      SumAtMost(LostOnes(s), LostOnes(u));
      hide Act, CanAct, SystemInv, LostOnes;
      LossesGrow(c, u, actions[1..], t);
    }
  }

  /** Let nothing be on its way when the consumer stores PARKED (as `SettledRun` shows, unless it has stored
      late before). Then, until its next store, a line is busy exactly if the word says RUNNING again, no
      unpark has happened since, and no process has taken a signal with it. */
  lemma BusyInWindowExactly(c: Setup, s: System, actions: seq<Action>, t: System)
    requires Sound(c.ring) && SystemInv(c, s) && Executes(c, s, actions, t) && NoStores(actions)
    requires |s.producers| == |s.links| && s.word == PARKED && !AnyBusy(s)
    ensures |t.producers| == |t.links|
    ensures AnyBusy(t) <==>
              && t.word == RUNNING
              && (forall i :: 0 <= i < |actions| ==> !actions[i].Unpark?)
              && Sum(LostOnes(t)) == Sum(LostOnes(s))
  {
    WindowBooks(c, s, actions, t);
    LossesGrow(c, s, actions, t);
    BusyIsLoaded(s);
    BusyIsLoaded(t);
    AccountsSplit(s);
    AccountsSplit(t);
    UnparksCount(actions);
  }

  /** An unpark leaves the token, until a return from the park takes it. */
  lemma {:induction false} TokenTells(c: Setup, s: System, actions: seq<Action>, t: System)
    requires Wired(c, s) && Executes(c, s, actions, t)
    ensures (t.token || exists i :: 0 <= i < |actions| && actions[i].ParkReturn?) <==>
            (s.token || exists i :: 0 <= i < |actions| && actions[i].Unpark?)
    decreases |actions|
  {
    if actions != [] {
      var a := actions[0];
      var u := Act(c, s, a);
      TokenStep(c, s, a);
      TokenTells(c, u, actions[1..], t);
      hide Act, CanAct;
      assert forall i :: 0 < i < |actions| ==> actions[i] == actions[1..][i - 1];
      assert forall i :: 0 <= i < |actions[1..]| ==> actions[1..][i] == actions[i + 1];
    }
  }

  lemma TokenStep(c: Setup, s: System, a: Action)
    requires Wired(c, s) && CanAct(c, s, a)
    ensures a.ParkReturn? ==> s.token
    ensures Act(c, s, a).token == ((s.token && !a.ParkReturn?) || a.Unpark?)
  {
    hide Do, Shape;
  }

  /** The same in terms of what the consumer sees when it is about to store RUNNING, if its token was clear
      when it stored PARKED: a signal is still on its way exactly if the word already says RUNNING, its park
      has not ended by a token, none is set, and no process has taken a signal with it. */
  lemma GuardAtStore(c: Setup, s: System, actions: seq<Action>, t: System)
    requires Sound(c.ring) && SystemInv(c, s) && Executes(c, s, actions, t) && NoStores(actions)
    requires |s.producers| == |s.links| && s.word == PARKED && !AnyBusy(s) && !s.token
    ensures |t.producers| == |t.links|
    ensures AnyBusy(t) <==>
              && t.word == RUNNING && !t.token
              && (forall i :: 0 <= i < |actions| ==> !actions[i].ParkReturn?)
              && Sum(LostOnes(t)) == Sum(LostOnes(s))
  {
    BusyInWindowExactly(c, s, actions, t);
    TokenTells(c, s, actions, t);
  }
}
