/** Schedules of the consumer alone, and the state in which it sleeps with nobody to wake it. */
module Idling {
  import opened Geometry
  import opened RingModel
  import opened RingInvariant
  import opened System
  import opened SystemInvariant
  import opened Wakeup
  import opened Rely
  import opened Progress

  // ----- A consumer that nobody will wake -----

  /** The consumer is parked, the word says RUNNING so that no producer will signal, and no wake-up is on
      its way. */
  ghost predicate Stranded(s: System)
    requires |s.producers| == |s.links|
  {
    s.consumer.loop.Parked? && s.word == RUNNING && !Pending(s)
  }

  lemma StrandedAccess(c: Setup, s: System, step: Step)
    requires SystemInv(c, s) && Stranded(s) && CanAccess(c, s, step)
    ensures IsPushStep(step) && Stranded(DoAccess(c, s, step))
  {
    assert Wired(c, s);
    assert IsPushStep(step);
    hide Do, SystemInv;
    var t := DoAccess(c, s, step);
    forall j: nat | j < |t.producers| ensures !Busy(t, j) {
      assert !Busy(s, j);
    }
  }

  lemma StrandedProducer(c: Setup, s: System, a: Action)
    requires SystemInv(c, s) && Stranded(s) && IsProducerAction(a) && CanProduce(c, s, a)
    ensures Stranded(Produce(c, s, a))
  {
    assert LinkOk(c, s, a.j);
    assert Wired(c, s);
    hide Do, SystemInv;
    var t := Produce(c, s, a);
    assert !Busy(s, a.j);
    forall j: nat | j < |t.producers| ensures !Busy(t, j) {
      assert !Busy(s, j);
    }
  }

  lemma StrandedLine(c: Setup, s: System, a: Action)
    requires Wired(c, s) && Stranded(s) && IsLinkAction(a) && CanLink(c, s, a)
    ensures Stranded(Convey(c, s, a))
  {
    hide Do;
    var t := Convey(c, s, a);
    assert !Busy(s, a.j);
    forall j: nat | j < |t.producers| ensures !Busy(t, j) {
      assert !Busy(s, j);
    }
  }

  /** Only the timeout changes that. */
  lemma StrandedStep(c: Setup, s: System, a: Action)
    requires SystemInv(c, s) && Stranded(s) && CanAct(c, s, a) && !a.ParkTimeout?
    ensures Wired(c, s) && Stranded(Act(c, s, a)) && !By(a, ConsumerThread)
  {
    hide DoAccess, Produce, Convey, Inv;
    if a.Access? {
      StrandedAccess(c, s, a.step);
    } else if IsProducerAction(a) {
      StrandedProducer(c, s, a);
    } else if IsLinkAction(a) {
      StrandedLine(c, s, a);
    }
  }

  /** A stranded consumer stays stranded, and nothing is delivered, in every run in which the timeout does
      not fire. */
  lemma {:induction false} StrandedRun(c: Setup, s: System, actions: seq<Action>, t: System)
    requires Sound(c.ring) && SystemInv(c, s) && Stranded(s) && Executes(c, s, actions, t)
    requires forall i :: 0 <= i < |actions| ==> !actions[i].ParkTimeout?
    ensures SystemInv(c, t) && |t.producers| == |t.links| && Stranded(t)
    ensures t.ring.popped == s.ring.popped && Freed(t.ring) == Freed(s.ring)
    decreases |actions|
  {
    if actions != [] {
      var a := actions[0];
      StrandedStep(c, s, a);
      ConsumerKeepsStep(c, s, a);
      ActInv(c, s, a);
      var u := Act(c, s, a);
      assert u.ring.popped == s.ring.popped && Freed(u.ring) == Freed(s.ring);
      assert forall i :: 0 <= i < |actions[1..]| ==> actions[1..][i] == actions[i + 1];
      hide Act, CanAct, Inv, Stranded;
      StrandedRun(c, u, actions[1..], t);
    }
  }

  // ----- The consumer alone -----

  /** What the consumer's own actions leave alone. */
  ghost predicate ConsumerFrame(s: System, t: System) {
    && t.producers == s.producers && t.links == s.links && t.ring.producers == s.ring.producers
    && t.ring.log == s.ring.log && t.ring.tail == s.ring.tail && (t.token ==> s.token)
  }

  lemma ConsumerFrameStep(c: Setup, s: System, a: Action)
    requires Wired(c, s) && CanAct(c, s, a) && By(a, ConsumerThread)
    ensures ConsumerFrame(s, Act(c, s, a))
  {
    hide DoPush, Produce, Convey;
    if a.Access? {
      PopFrame(c.ring, s.ring, a.step);
      hide Do;
    }
  }

  lemma {:induction false} ConsumerFrameRun(c: Setup, s: System, actions: seq<Action>, t: System)
    requires Wired(c, s) && Executes(c, s, actions, t) && ConsumerOnly(actions)
    ensures ConsumerFrame(s, t)
    decreases |actions|
  {
    if actions != [] {
      var a := actions[0];
      assert By(a, ConsumerThread);
      ConsumerFrameStep(c, s, a);
      assert ConsumerOnly(actions[1..]);
      hide Act, CanAct, By, ConsumerOnly;
      ConsumerFrameRun(c, Act(c, s, a), actions[1..], t);
    }
  }

  /** Over an unpublished head: how far the consumer is from the park. */
  function ParkRank(s: System): nat {
    if s.consumer.loop.Drain? || s.consumer.loop.Recheck? then
      var empty := s.consumer.loop.Recheck? || s.consumer.drained == 0;
      match s.ring.consumer
      case AtHeadSeq(_) => if s.consumer.loop.Recheck? then 1 else if empty then 4 else 8
      case AtHead => if s.consumer.loop.Recheck? then 2 else if empty then 5 else 9
      case _ => 13
    else if s.consumer.loop.Parking? then 3
    else if s.consumer.loop.Top? then 7
    else if s.consumer.loop.CountBytes? then 10
    else if s.consumer.loop.CountEvent? then 11
    else if s.consumer.loop.Rescued? then 12
    else if s.consumer.loop.Waking? then 14
    else 0
  }

  /** Between the store of PARKED and the park the word says PARKED. */
  predicate Announced(s: System) {
    || s.word == PARKED
    || !(s.consumer.loop.Parked? ||
         (s.consumer.loop.Recheck? && (s.ring.consumer.AtHead? || s.ring.consumer.AtHeadSeq?)))
  }

  lemma ParkMoves(c: Setup, s: System)
    requires SystemInv(c, s) && !HeadPublished(c, s) && !s.consumer.loop.Parked?
    ensures var a := ConsumerMove(s);
            Wired(c, s) && CanAct(c, s, a) && Quiet(s, a) && By(a, ConsumerThread) && a != Access(FreeSlot) &&
            (var t := Act(c, s, a);
             && ParkRank(t) < ParkRank(s)
             && (Announced(s) ==> Announced(t))
             && (t.consumer.loop.Parked? ==> s.consumer.loop.Recheck?)
             && (t.consumer.loop.Recheck? ==> s.consumer.loop.Recheck? || s.consumer.loop.Parking?))
  {
    hide DoPush, ProducerInv, ProducerOk, LinkOk;
    assert ConsumerInv(c.ring, s.ring) && ConsumerOk(s);
    assert SlotInv(c.ring, s.ring, Freed(s.ring));
    hide SystemInv, Inv, Produce, Convey, SlotInv;
  }

  lemma HeadStaysHidden(c: Setup, s: System, a: Action)
    requires SystemInv(c, s) && !HeadPublished(c, s) && CanAct(c, s, a)
    requires By(a, ConsumerThread) && a != Access(FreeSlot)
    ensures var t := Act(c, s, a);
            !HeadPublished(c, t) && Freed(t.ring) == Freed(s.ring) && t.ring.popped == s.ring.popped
            && t.ring.slots == s.ring.slots
  {
    hide DoPush, ProducerInv, ProducerOk, LinkOk;
    assert ConsumerInv(c.ring, s.ring);
    hide SystemInv, Inv, Produce, Convey;
  }

  /** A consumer over an unpublished head parks, by its own actions, delivering nothing. */
  lemma {:induction false} ParkOverNothing(c: Setup, s: System) returns (xs: seq<Action>, t: System)
    requires Sane(c, s) && !HeadPublished(c, s) && !s.consumer.loop.Parked?
    requires Announced(s)
    ensures Sane(c, t) && QuietRun(c, s, xs, t) && ConsumerOnly(xs)
    ensures t.consumer.loop.Parked? && t.word == PARKED && Freed(t.ring) == Freed(s.ring)
    ensures !HeadPublished(c, t) && t.ring.slots == s.ring.slots
    decreases ParkRank(s)
  {
    hide Act, CanAct, SystemInv, By, ConsumerOnly, ConsumerMove, ParkRank, HeadPublished, LogFits, Quiet;
    ParkMoves(c, s);
    var a := ConsumerMove(s);
    var u := Act(c, s, a);
    SaneStep(c, s, a);
    HeadStaysHidden(c, s, a);
    if u.consumer.loop.Parked? {
      OnlyNone();
      xs, t := [], u;
    } else {
      xs, t := ParkOverNothing(c, u);
    }
    QuietPrepend(c, s, a, xs, t);
    OnlyPrepend(a, xs);
    xs := [a] + xs;
  }

  /** It comes, before that, to the point where it has drained nothing. */
  lemma {:induction false} ReachParking(c: Setup, s: System) returns (xs: seq<Action>, t: System)
    requires Sane(c, s) && !HeadPublished(c, s) && !s.consumer.loop.Parked? && !s.consumer.loop.Recheck?
    ensures Sane(c, t) && QuietRun(c, s, xs, t) && ConsumerOnly(xs)
    ensures t.consumer.loop.Parking? && Freed(t.ring) == Freed(s.ring) && !HeadPublished(c, t)
    decreases ParkRank(s)
  {
    hide Act, CanAct, SystemInv, By, ConsumerOnly, ConsumerMove, ParkRank, HeadPublished, LogFits, Quiet;
    if s.consumer.loop.Parking? {
      OnlyNone();
      xs, t := [], s;
    } else {
      ParkMoves(c, s);
      var a := ConsumerMove(s);
      var u := Act(c, s, a);
      SaneStep(c, s, a);
      HeadStaysHidden(c, s, a);
      xs, t := ReachParking(c, u);
      QuietPrepend(c, s, a, xs, t);
      OnlyPrepend(a, xs);
      xs := [a] + xs;
    }
  }
}
