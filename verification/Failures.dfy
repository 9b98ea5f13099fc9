/** What a producer process that exits after a failed `run` takes with it, and exactly when that matters. */
module Failures {
  import opened Geometry
  import opened RingModel
  import opened RingInvariant
  import opened Sums
  import opened System
  import opened SystemInvariant
  import opened Wakeup
  import opened Statistics
  import opened Progress
  import opened Idling

  // ----- One producer pushes while the consumer sleeps and no writer task runs -----

  /** Nothing has left a channel. */
  ghost predicate NothingSent(s: System) {
    forall i: nat :: i < |s.links| ==> Unsent(s.links[i])
  }

  predicate Unsent(l: Link) {
    l.writer.Waiting? && l.socket == [] && l.reader.Reading?
  }

  /** No other producer has signalled. */
  ghost predicate OthersSilent(s: System, j: nat)
    requires |s.producers| == |s.links|
  {
    forall i: nat :: i < |s.links| && i != j ==> s.links[i].channel == [] && !s.producers[i].stage.Signalling?
  }

  /** The consumer sleeps over an empty ring, and producer `j` stands before its event `e`. */
  ghost predicate AtRest(c: Setup, s: System, j: nat, e: nat) {
    && Sane(c, s) && j < |c.work| && e <= FitCount(c.ring, c.work[j])
    && s.consumer.loop.Parked? && s.word == PARKED && !s.token && Freed(s.ring) == s.ring.tail
    && s.producers[j].stage.NextEvent? && s.producers[j].event == e
    && NothingSent(s) && OthersSilent(s, j)
  }

  /** ... and is on its way with that event. */
  ghost predicate Phase(c: Setup, s: System, j: nat, e: nat)
    requires Wired(c, s) && j < |s.producers|
  {
    var pc := s.ring.producers[j];
    && s.producers[j].event == e
    && match s.producers[j].stage
       case NextEvent => s.word == PARKED && s.ring.tail == Freed(s.ring)
       case Ready => s.word == PARKED && s.ring.tail == Freed(s.ring)
       case Pushing =>
         s.word == PARKED &&
         (if pc.Writing() then s.ring.tail == Freed(s.ring) + 1 && pc.pos == Freed(s.ring)
          else s.ring.tail == Freed(s.ring))
       case Posting(_) => s.word == PARKED && s.ring.tail == Freed(s.ring) + 1 && HeadPublished(c, s)
       case Signalling(_) => s.word == RUNNING && s.ring.tail == Freed(s.ring) + 1 && HeadPublished(c, s)
       case _ => false
  }

  /** The event is pushed, the CAS won, the signal handed over. */
  ghost predicate Signalled(c: Setup, s: System, j: nat, e: nat)
    requires Wired(c, s) && j < |s.producers|
  {
    && s.producers[j].stage.NextEvent? && s.producers[j].event == e + 1
    && s.word == RUNNING && s.ring.tail == Freed(s.ring) + 1 && HeadPublished(c, s)
    && s.links[j].channel != []
  }

  lemma PhaseMoves(c: Setup, s: System, j: nat, e: nat)
    requires Sane(c, s) && j < |s.producers| && e < FitCount(c.ring, c.work[j]) && Phase(c, s, j, e)
    requires CanAct(c, s, ProducerMove(c, s, j))
    ensures var t := Act(c, s, ProducerMove(c, s, j)); Phase(c, t, j, e) || Signalled(c, t, j, e)
  {
    assert j < |s.ring.producers|;
    hide Act, CanAct, ProducerMove, SystemInv, StatInv, LogFits;
    if !s.producers[j].stage.Pushing? {
      StagePhase(c, s, j, e);
    } else if s.ring.producers[j].Writing() {
      WritePhase(c, s, j, e);
    } else {
      SearchPhase(c, s, j, e);
    }
  }

  lemma StagePhase(c: Setup, s: System, j: nat, e: nat)
    requires Sane(c, s) && j < |s.producers| && e < FitCount(c.ring, c.work[j]) && Phase(c, s, j, e)
    requires !s.producers[j].stage.Pushing? && CanAct(c, s, ProducerMove(c, s, j))
    ensures var t := Act(c, s, ProducerMove(c, s, j)); Phase(c, t, j, e) || Signalled(c, t, j, e)
  {
    assert ProducerOk(c, s, j);
    hide DoAccess, Convey, Consume, Inv, SystemInv, StatInv, LogFits, OwnData;
  }

  lemma SearchPhase(c: Setup, s: System, j: nat, e: nat)
    requires Sane(c, s) && j < |s.producers| && e < FitCount(c.ring, c.work[j]) && Phase(c, s, j, e)
    requires s.producers[j].stage.Pushing? && !s.ring.producers[j].Writing() && CanAct(c, s, ProducerMove(c, s, j))
    ensures Phase(c, Act(c, s, ProducerMove(c, s, j)), j, e)
  {
    hide DoPop, Produce, Convey, Consume, StatInv, LogFits, OwnData;
    assert ProducerOk(c, s, j) && ProducerInv(c.ring, s.ring, j);
    if s.ring.producers[j].AtSeq? {
      SeqVerdict(c.ring, s.ring, j);
    }
    hide Inv, SystemInv;
  }

  lemma WritePhase(c: Setup, s: System, j: nat, e: nat)
    requires Sane(c, s) && j < |s.producers| && e < FitCount(c.ring, c.work[j]) && Phase(c, s, j, e)
    requires s.producers[j].stage.Pushing? && s.ring.producers[j].Writing() && CanAct(c, s, ProducerMove(c, s, j))
    ensures Phase(c, Act(c, s, ProducerMove(c, s, j)), j, e)
  {
    hide DoPop, Produce, Convey, Consume, StatInv, LogFits, OwnData;
    assert ProducerOk(c, s, j) && ProducerInv(c.ring, s.ring, j);
    hide Inv, SystemInv;
  }

  /** Nothing but the producer's own state, its channel and the word changes on the way. */
  ghost predicate Beside(s: System, t: System, j: nat) {
    && t.consumer == s.consumer && t.token == s.token && Freed(t.ring) == Freed(s.ring)
    && |s.links| == |t.links| == |s.producers| == |t.producers|
    && (NothingSent(s) ==> NothingSent(t)) && (OthersSilent(s, j) ==> OthersSilent(t, j))
  }

  lemma BesideStep(c: Setup, s: System, j: nat)
    requires Sane(c, s) && j < |s.producers| && !Idle(s.producers[j].stage)
    requires CanAct(c, s, ProducerMove(c, s, j))
    ensures Wired(c, s) && Beside(s, Act(c, s, ProducerMove(c, s, j)), j)
  {
    ProducerMoves(c, s, j);
    LineUnderProducer(c, s, j);
    hide Act, CanAct, SystemInv, StatInv, LogFits, ProducerMove;
    var t := Act(c, s, ProducerMove(c, s, j));
    if NothingSent(s) {
      forall i: nat | i < |t.links| ensures Unsent(t.links[i]) {
        assert Unsent(s.links[i]);
      }
    }
    if OthersSilent(s, j) {
      assert forall i: nat :: i < |s.links| && i != j ==> t.links[i] == s.links[i];
    }
  }

  /** Producer `j`, alone, pushes its event and signals. */
  lemma {:induction false} PushAlone(c: Setup, s: System, j: nat, e: nat) returns (xs: seq<Action>, t: System)
    requires Sane(c, s) && Wired(c, s) && j < |s.producers| && e < FitCount(c.ring, c.work[j]) && Phase(c, s, j, e)
    ensures Sane(c, t) && Wired(c, t) && QuietRun(c, s, xs, t) && Signalled(c, t, j, e) && Beside(s, t, j)
    decreases if s.ring.tail == Freed(s.ring) then 1 else 0, ProducerRank(c, s, j)
  {
    ProducerMoves(c, s, j);
    var a := ProducerMove(c, s, j);
    var u := Act(c, s, a);
    PhaseMoves(c, s, j, e);
    BesideStep(c, s, j);
    SaneStep(c, s, a);
    assert Phase(c, u, j, e) ==>
             u.ring.tail == Freed(u.ring) || s.ring.tail != Freed(s.ring) || u.ring.tail > s.ring.tail;
    hide Act, CanAct, ProducerMove, ProducerRank, Sane, NothingSent, OthersSilent;
    if Signalled(c, u, j, e) {
      xs, t := [], u;
    } else {
      xs, t := PushAlone(c, u, j, e);
    }
    QuietPrepend(c, s, a, xs, t);
    xs := [a] + xs;
  }

  // ----- The timeout ends the sleep -----

  /** After a timeout the consumer delivers the message and sleeps again. */
  lemma DeliverAndSleep(c: Setup, s: System, j: nat, e: nat) returns (xs: seq<Action>, t: System)
    requires Sane(c, s) && Wired(c, s) && j < |s.producers| && Signalled(c, s, j, e) && e < FitCount(c.ring, c.work[j])
    requires s.consumer.loop.Parked? && !s.token && NothingSent(s) && OthersSilent(s, j)
    ensures Executes(c, s, xs, t) && AtRest(c, t, j, e + 1)
  {
    var u := Act(c, s, ParkTimeout);
    SaneStep(c, s, ParkTimeout);
    HeadStays(c, s, ParkTimeout);
    assert ConsumerFrame(s, u) && !u.consumer.loop.Parked?;
    hide Act, CanAct, SystemInv, StatInv, LogFits;
    var ys, v := TakeTheHead(c, u);
    QuietRunExecutes(c, u, ys, v);
    ConsumerFrameRun(c, u, ys, v);
    EmptyHead(c, v);
    var zs;
    zs, t := ParkOverNothing(c, v);
    QuietRunExecutes(c, v, zs, t);
    ConsumerFrameRun(c, v, zs, t);
    ExecutionExtends(c, s, [], s, ParkTimeout);
    assert [] + [ParkTimeout] == [ParkTimeout];
    ExecutionsJoin(c, s, [ParkTimeout], u, ys, v);
    ExecutionsJoin(c, s, [ParkTimeout] + ys, v, zs, t);
    xs := [ParkTimeout] + ys + zs;
  }

  lemma EmptyHead(c: Setup, s: System)
    requires Sane(c, s) && Freed(s.ring) == s.ring.tail
    ensures Wired(c, s) && !HeadPublished(c, s)
  {
  }

  /** Every setup has a state to start from. */
  lemma StartOf(c: Setup) returns (s: System)
    requires Sound(c.ring)
    ensures Wired(c, s) && Starts(c, s) && NothingSent(s)
  {
    var blank := seq(c.ring.PayloadCapacity(), k => 0);
    var slots := seq(c.ring.numSlots, i requires 0 <= i < c.ring.numSlots => Slot(i, 0, blank));
    var n := |c.work|;
    var ring := Ring(0, 0, slots, seq(n, j => NotPushing), NotPopping, [], []);
    s := System(ring, RUNNING, false, seq(n, j => Producer(NextEvent, 0, 0)), seq(n, j => FreshLink),
                Consumer(Top, 0, 0, 0), 0, 0, 0);
  }

  lemma StartSane(c: Setup, s: System)
    requires Sound(c.ring) && Starts(c, s)
    ensures Sane(c, s) && !HeadPublished(c, s)
  {
    StartsInv(c, s);
  }

  /** The first `e` events of producer `j` pushed, delivered, and no signal sent. */
  lemma {:induction false} RestAfter(c: Setup, j: nat, e: nat) returns (s: System, xs: seq<Action>, t: System)
    requires Sound(c.ring) && j < |c.work| && e <= FitCount(c.ring, c.work[j])
    ensures Wired(c, s) && Starts(c, s) && Executes(c, s, xs, t) && AtRest(c, t, j, e)
  {
    if e == 0 {
      s := StartOf(c);
      StartSane(c, s);
      hide SystemInv, StatInv, LogFits;
      xs, t := ParkOverNothing(c, s);
      QuietRunExecutes(c, s, xs, t);
      ConsumerFrameRun(c, s, xs, t);
    } else {
      var ys, u;
      s, ys, u := RestAfter(c, j, e - 1);
      var zs, v := PushAlone(c, u, j, e - 1);
      QuietRunExecutes(c, u, zs, v);
      var ws;
      ws, t := DeliverAndSleep(c, v, j, e - 1);
      hide Starts, Sane, AtRest, Signalled;
      ExecutionsJoin(c, s, ys, u, zs, v);
      ExecutionsJoin(c, s, ys + zs, v, ws, t);
      xs := ys + zs + ws;
    }
  }

  // ----- The process exits -----

  /** The next event is too long. */
  lemma Refuse(c: Setup, s: System, j: nat, e: nat) returns (t: System)
    requires Sane(c, s) && Wired(c, s) && j < |s.producers| && Signalled(c, s, j, e)
    requires e + 1 < |c.work[j]| && |c.work[j][e + 1]| > c.ring.MaxPayload()
    ensures Executes(c, s, [Encode(j), EnterPush(j)], t) && Wired(c, t)
    ensures t.producers == s.producers[j := t.producers[j]] && t.producers[j].stage.Rejected?
    ensures t == s.(producers := t.producers)
  {
    assert ProducerOk(c, s, j);
    hide DoAccess, Convey, Consume, SystemInv, StatInv, LogFits;
    var u := Act(c, s, Encode(j));
    t := Act(c, u, EnterPush(j));
    assert t.producers == s.producers[j := t.producers[j]];
    hide Act, CanAct;
    ExecutionExtends(c, s, [], s, Encode(j));
    ExecutionExtends(c, s, [Encode(j)], u, EnterPush(j));
    assert [] + [Encode(j)] + [EnterPush(j)] == [Encode(j), EnterPush(j)];
  }

  /** The producer fails, and its process exits. */
  lemma BailAndExit(c: Setup, s: System, j: nat) returns (t: System)
    requires Wired(c, s) && j < |s.producers| && s.producers[j].stage.Rejected?
    requires s.consumer.loop.Parked? && s.word == RUNNING && !s.token && NothingSent(s) && OthersSilent(s, j)
    ensures Executes(c, s, [Drop(j), Exit(j)], t) && Wired(c, t) && Stranded(t) && t.ring == s.ring
  {
    hide DoAccess, Convey, Consume, Do;
    var u := Act(c, s, Drop(j));
    t := Act(c, u, Exit(j));
    forall i: nat | i < |t.producers| ensures !Busy(t, i) {
      assert Unsent(s.links[i]);
    }
    hide Act, CanAct, Stranded;
    ExecutionExtends(c, s, [], s, Drop(j));
    ExecutionExtends(c, s, [Drop(j)], u, Exit(j));
    assert [] + [Drop(j)] + [Exit(j)] == [Drop(j), Exit(j)];
  }

  lemma FailAndExit(c: Setup, s: System, j: nat, e: nat) returns (xs: seq<Action>, t: System)
    requires Sane(c, s) && Wired(c, s) && j < |s.producers| && Signalled(c, s, j, e)
    requires e + 1 < |c.work[j]| && |c.work[j][e + 1]| > c.ring.MaxPayload()
    requires s.consumer.loop.Parked? && !s.token && NothingSent(s) && OthersSilent(s, j)
    ensures Executes(c, s, xs, t) && Wired(c, t) && Stranded(t) && HeadPublished(c, t)
  {
    var u := Refuse(c, s, j, e);
    assert NothingSent(u) && OthersSilent(u, j);
    t := BailAndExit(c, u, j);
    hide Sane;
    ExecutionsJoin(c, s, [Encode(j), EnterPush(j)], u, [Drop(j), Exit(j)], t);
    xs := [Encode(j), EnterPush(j)] + [Drop(j), Exit(j)];
  }

  /** A producer that fails after it has pushed something can leave the consumer asleep over a message with
      nobody to wake it. */
  lemma SignalDies(c: Setup, j: nat) returns (s: System)
    requires Sound(c.ring) && j < |c.work| && 0 < FitCount(c.ring, c.work[j]) < |c.work[j]|
    ensures Occurs(c, s) && Wired(c, s) && Stranded(s) && HeadPublished(c, s)
  {
    var k := FitCount(c.ring, c.work[j]);
    var s0, xs, u := RestAfter(c, j, k - 1);
    var ys, v := PushAlone(c, u, j, k - 1);
    QuietRunExecutes(c, u, ys, v);
    var zs;
    zs, s := FailAndExit(c, v, j, k - 1);
    hide Starts, Sane, AtRest, Signalled, Stranded;
    ExecutionsJoin(c, s0, xs, u, ys, v);
    ExecutionsJoin(c, s0, xs + ys, v, zs, s);
  }

  // ----- Exactly when -----

  /** The consumer is not asleep over a message without a wake-up pending or about to be won. */
  ghost predicate Watched(c: Setup, s: System)
    requires Wired(c, s)
  {
    s.consumer.loop.Parked? && HeadPublished(c, s) ==> Pending(s) || (s.word == PARKED && OwnerPosting(s))
  }

  /** In every run no wake-up is lost, if and only if no producer has, before an event that is too long, one
      that is not. */
  lemma NoLostWakeupExactly(c: Setup)
    requires Sound(c.ring)
    ensures (forall s :: Occurs(c, s) ==> Wired(c, s) && Watched(c, s)) <==> AllOrNothing(c)
  {
    if AllOrNothing(c) {
      forall s | Occurs(c, s) ensures Wired(c, s) && Watched(c, s) {
        NoLostWakeup(c, s);
        OccursSane(c, s);
        NeverLost(c, s);
      }
    } else {
      var j :| 0 <= j < |c.work| && 0 < FitCount(c.ring, c.work[j]) < |c.work[j]|;
      var s := SignalDies(c, j);
      assert !Watched(c, s);
    }
  }

  lemma OccursSane(c: Setup, s: System)
    requires Sound(c.ring) && Occurs(c, s)
    ensures Sane(c, s)
  {
    OccursStats(c, s);
    var s0, before :| Starts(c, s0) && Executes(c, s0, before, s);
    StartsInv(c, s0);
    ExecutionFits(c, s0, before, s);
  }

  /** Can everything that fits still be delivered, without timeout and luck? */
  ghost predicate CanFinish(c: Setup, s: System)
    requires Wired(c, s)
  {
    exists xs, t :: QuietRun(c, s, xs, t) && |t.ring.popped| == Sum(Lengths(Accepted(c)))
  }

  /** Without the timeout the system can always finish, if and only if the same condition holds. */
  lemma NoDeadlockExactly(c: Setup)
    requires Sound(c.ring)
    ensures (forall s :: Occurs(c, s) ==> Wired(c, s) && CanFinish(c, s)) <==> AllOrNothing(c)
  {
    if AllOrNothing(c) {
      forall s | Occurs(c, s) ensures Wired(c, s) && CanFinish(c, s) {
        OccursInv(c, s);
        var xs, t := NoDeadlock(c, s);
      }
    } else {
      var j :| 0 <= j < |c.work| && 0 < FitCount(c.ring, c.work[j]) < |c.work[j]|;
      var s := SignalDies(c, j);
      OccursSane(c, s);
      StrandedCannotFinish(c, s);
    }
  }

  lemma StrandedCannotFinish(c: Setup, s: System)
    requires Sane(c, s) && Wired(c, s) && Stranded(s) && HeadPublished(c, s)
    ensures !CanFinish(c, s)
  {
    AcceptedBound(c, s);
    forall xs, t | QuietRun(c, s, xs, t) ensures |t.ring.popped| < Sum(Lengths(Accepted(c))) {
      QuietRunExecutes(c, s, xs, t);
      QuietHasNoTimeout(c, s, xs, t);
      StrandedRun(c, s, xs, t);
    }
  }

  lemma {:induction false} QuietHasNoTimeout(c: Setup, s: System, actions: seq<Action>, t: System)
    requires Wired(c, s) && QuietRun(c, s, actions, t)
    ensures forall i :: 0 <= i < |actions| ==> !actions[i].ParkTimeout?
    decreases |actions|
  {
    if actions != [] {
      hide Act, CanAct;
      QuietHasNoTimeout(c, Act(c, s, actions[0]), actions[1..], t);
      assert forall i :: 0 < i < |actions| ==> actions[i] == actions[1..][i - 1];
    }
  }

  /** A concrete setup: an empty event, then one a byte longer than a slot can take. */
  lemma FailingSetup(c: RingConfig) returns (setup: Setup, s: System)
    requires Sound(c)
    ensures setup == Setup(c, [[[], seq(c.MaxPayload() + 1, i => 0)]])
    ensures !AllOrNothing(setup) && Occurs(setup, s) && Wired(setup, s) && !Watched(setup, s)
  {
    setup := Setup(c, [[[], seq(c.MaxPayload() + 1, i => 0)]]);
    assert FitCount(c, setup.work[0]) == 1;
    s := SignalDies(setup, 0);
  }
}
