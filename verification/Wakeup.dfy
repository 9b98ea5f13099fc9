/** The park/wake handshake: no wake-up is lost, without any help from the park timeout. */
module Wakeup {
  import opened Geometry
  import opened RingModel
  import opened RingInvariant
  import opened System
  import opened SystemInvariant

  /** A signal of producer `j` is somewhere between its CAS and the unpark call. */
  predicate Busy(s: System, j: nat)
    requires j < |s.producers| && j < |s.links|
  {
    || s.producers[j].stage.Signalling?
    || s.links[j].channel != []
    || s.links[j].writer.Holding?
    || s.links[j].socket != []
    || s.links[j].reader.Counting?
    || s.links[j].reader.Unparking?
  }

  /** A wake-up is on its way, or has already arrived as the unpark token. */
  ghost predicate Pending(s: System)
    requires |s.producers| == |s.links|
  {
    s.token || exists j: nat :: j < |s.producers| && Busy(s, j)
  }

  /** A signal has died with the process that was to send it. */
  ghost predicate Lost(s: System) {
    exists j: nat :: j < |s.links| && s.links[j].lost != []
  }

  predicate HeadPublished(c: Setup, s: System)
    requires Wired(c, s)
  {
    Published(c.ring, s.ring, Freed(s.ring))
  }

  /** The owner of the head position has published it and still stands before its CAS. */
  predicate OwnerPosting(s: System) {
    && Freed(s.ring) < |s.ring.log|
    && var o := s.ring.log[Freed(s.ring)].owner;
    o < |s.producers| && s.producers[o].stage == Posting(Freed(s.ring))
  }

  ghost predicate WakeInv(c: Setup, s: System)
    requires Wired(c, s)
  {
    && (s.consumer.loop.Recheck? || s.consumer.loop.Parked? ==> s.word == PARKED || Pending(s) || Lost(s))
    && (s.consumer.loop.Parked? && s.word == PARKED && HeadPublished(c, s) ==> OwnerPosting(s))
  }

  lemma BusyUnderAccess(c: Setup, s: System, step: Step, j: nat)
    requires SystemInv(c, s) && CanAccess(c, s, step) && j < |s.producers| && Busy(s, j)
    ensures Busy(DoAccess(c, s, step), j)
  {
    hide Do, Inv, SystemInv;
  }

  lemma BusyUnderProducer(c: Setup, s: System, a: Action, j: nat)
    requires SystemInv(c, s) && IsProducerAction(a) && CanProduce(c, s, a) && j < |s.producers| && Busy(s, j)
    ensures Busy(Produce(c, s, a), j) || Produce(c, s, a).links[j].lost != []
  {
    assert Wired(c, s);
    hide Do, Inv, SystemInv;
    if a.j != j {
      assert Produce(c, s, a).links[j] == s.links[j];
    }
  }

  lemma BusyUnderLine(c: Setup, s: System, a: Action, j: nat)
    requires SystemInv(c, s) && IsLinkAction(a) && CanLink(c, s, a) && j < |s.producers| && Busy(s, j)
    ensures Busy(Convey(c, s, a), j) || Convey(c, s, a).token
  {
    assert LinkOk(c, s, j);
    hide Do, Inv, SystemInv;
  }

  /** The line of producer `j` stays busy until its signal has become the unpark token, or is lost. */
  lemma BusyPersists(c: Setup, s: System, a: Action, j: nat)
    requires SystemInv(c, s) && CanAct(c, s, a) && j < |s.producers| && Busy(s, j)
    ensures Busy(Act(c, s, a), j) || Act(c, s, a).token || Act(c, s, a).links[j].lost != []
  {
    assert Wired(c, s);
    hide DoAccess, Produce, Convey, Busy, SystemInv;
    if a.Access? {
      BusyUnderAccess(c, s, a.step, j);
    } else if IsProducerAction(a) {
      BusyUnderProducer(c, s, a, j);
    } else if IsLinkAction(a) {
      BusyUnderLine(c, s, a, j);
    } else {
      BusyUnderConsumer(c, s, a, j);
    }
  }

  lemma BusyUnderConsumer(c: Setup, s: System, a: Action, j: nat)
    requires Wired(c, s) && !a.Access? && !IsProducerAction(a) && !IsLinkAction(a) && CanConsume(c, s, a)
    requires j < |s.producers| && Busy(s, j)
    ensures Busy(Consume(c, s, a), j)
  {
    hide Do;
  }

  lemma LostStays(c: Setup, s: System, a: Action)
    requires SystemInv(c, s) && CanAct(c, s, a) && Lost(s)
    ensures Lost(Act(c, s, a))
  {
    var j: nat :| j < |s.links| && s.links[j].lost != [];
    LostLine(c, s, a, j);
    assert Act(c, s, a).links[j].lost != [];
  }

  /** What one process has lost changes only when it exits. */
  lemma LostLine(c: Setup, s: System, a: Action, j: nat)
    requires SystemInv(c, s) && CanAct(c, s, a) && j < |s.links|
    ensures |Act(c, s, a).links| == |s.links|
    ensures a != Exit(j) ==> Act(c, s, a).links[j].lost == s.links[j].lost
    ensures a == Exit(j) ==> s.links[j].lost == []
  {
    assert LinkOk(c, s, j);
    assert Wired(c, s);
    hide Do, SystemInv, DoAccess, Produce, Convey, Consume;
    if IsProducerAction(a) {
      LostByProducer(c, s, a, j);
    } else if IsLinkAction(a) {
      LostByLine(c, s, a, j);
    } else {
      LinesKept(c, s, a);
    }
  }

  lemma LostByProducer(c: Setup, s: System, a: Action, j: nat)
    requires Wired(c, s) && IsProducerAction(a) && CanProduce(c, s, a) && j < |s.links| && LinkOk(c, s, j)
    ensures a != Exit(j) ==> Produce(c, s, a).links[j].lost == s.links[j].lost
    ensures a == Exit(j) ==> s.links[j].lost == []
  {
    hide Do;
  }

  lemma LostByLine(c: Setup, s: System, a: Action, j: nat)
    requires Wired(c, s) && IsLinkAction(a) && CanLink(c, s, a) && j < |s.links|
    ensures Convey(c, s, a).links[j].lost == s.links[j].lost
  {
    hide Do;
  }

  lemma LinesKept(c: Setup, s: System, a: Action)
    requires Wired(c, s) && CanAct(c, s, a) && !IsProducerAction(a) && !IsLinkAction(a)
    ensures Act(c, s, a).links == s.links
  {
    hide Do;
  }

  /** A signal, once on its way, stays on its way until the consumer takes its token or it is lost. */
  lemma PendingPersists(c: Setup, s: System, a: Action)
    requires SystemInv(c, s) && CanAct(c, s, a) && Pending(s) && !a.ParkReturn?
    ensures Pending(Act(c, s, a)) || Lost(Act(c, s, a))
  {
    assert Wired(c, s);
    hide SystemInv, Act, CanAct, Busy;
    if s.token {
      TokenStays(c, s, a);
    } else {
      var j: nat :| j < |s.producers| && Busy(s, j);
      BusyPersists(c, s, a, j);
    }
  }

  lemma TokenStays(c: Setup, s: System, a: Action)
    requires Wired(c, s) && CanAct(c, s, a) && s.token && !a.ParkReturn?
    ensures Act(c, s, a).token
  {
    hide Do;
  }

  lemma SignalOrParked(c: Setup, s: System, a: Action)
    requires SystemInv(c, s) && WakeInv(c, s) && CanAct(c, s, a)
    ensures var t := Act(c, s, a);
            t.consumer.loop.Recheck? || t.consumer.loop.Parked? ==> t.word == PARKED || Pending(t) || Lost(t)
  {
    var t := Act(c, s, a);
    if t.consumer.loop.Recheck? || t.consumer.loop.Parked? {
      if Lost(s) {
        LostStays(c, s, a);
      } else if Pending(s) && !a.ParkReturn? {
        PendingPersists(c, s, a);
      } else if a.PostCas? && s.word == PARKED {
        assert Busy(t, a.j);
      }
    }
  }

  /** Publication of the head while the consumer sleeps leaves its owner before the CAS. */
  lemma HeadKeepsItsPoster(c: Setup, s: System, a: Action)
    requires Sound(c.ring) && SystemInv(c, s) && WakeInv(c, s) && CanAct(c, s, a)
    ensures var t := Act(c, s, a);
            t.consumer.loop.Parked? && t.word == PARKED && HeadPublished(c, t) ==> OwnerPosting(t)
  {
    var t := Act(c, s, a);
    if t.consumer.loop.Parked? && t.word == PARKED && HeadPublished(c, t) {
      if a.Access? {
        AccessKeepsPoster(c, s, a.step);
      } else if s.consumer.loop.Parked? {
        assert t.ring.log == s.ring.log && t.ring.slots == s.ring.slots;
        assert HeadPublished(c, s) && OwnerPosting(s);
      }
    }
  }

  lemma AccessKeepsPoster(c: Setup, s: System, step: Step)
    requires Sound(c.ring) && SystemInv(c, s) && WakeInv(c, s) && CanAccess(c, s, step)
    requires var t := DoAccess(c, s, step);
             t.consumer.loop.Parked? && t.word == PARKED && HeadPublished(c, t)
    ensures OwnerPosting(DoAccess(c, s, step))
  {
    var t := DoAccess(c, s, step);
    var h := Freed(s.ring);
    if IsPushStep(step) {
      PushFrame(c.ring, s.ring, step);
      NewlyPublished(c.ring, s.ring, step, h);
      assert ProducerOk(c, s, step.j);
      hide Do, Inv, SystemInv;
      assert HeadPublished(c, s) ==> OwnerPosting(s);
    } else {
      PopCannotPark(c, s, step);
    }
  }

  /** The consumer goes to sleep only on an unpublished head. */
  lemma PopCannotPark(c: Setup, s: System, step: Step)
    requires Sound(c.ring) && SystemInv(c, s) && CanAccess(c, s, step) && !IsPushStep(step)
    ensures DoAccess(c, s, step).consumer.loop.Parked? ==> !HeadPublished(c, DoAccess(c, s, step))
  {
    hide DoPush;
  }

  lemma WakeStep(c: Setup, s: System, a: Action)
    requires Sound(c.ring) && SystemInv(c, s) && WakeInv(c, s) && CanAct(c, s, a)
    ensures WakeInv(c, Act(c, s, a))
  {
    SignalOrParked(c, s, a);
    HeadKeepsItsPoster(c, s, a);
  }

  lemma {:induction false} ExecutionWake(c: Setup, s: System, actions: seq<Action>, t: System)
    requires Sound(c.ring) && SystemInv(c, s) && WakeInv(c, s) && Executes(c, s, actions, t)
    ensures SystemInv(c, t) && WakeInv(c, t)
    decreases |actions|
  {
    if actions != [] {
      WakeStep(c, s, actions[0]);
      ActInv(c, s, actions[0]);
      ExecutionWake(c, Act(c, s, actions[0]), actions[1..], t);
    }
  }

  /** No lost wake-up: in every reachable state, while the consumer is parked and the head position
      is published, a wake-up is pending, or the publishing producer has yet to make the CAS that will
      find PARKED, unless a signal has died with its process (`Failures` says when that can happen). */
  lemma NoLostWakeup(c: Setup, s: System)
    requires Sound(c.ring) && Occurs(c, s)
    ensures Wired(c, s)
    ensures s.consumer.loop.Parked? && HeadPublished(c, s) ==>
              Pending(s) || (s.word == PARKED && OwnerPosting(s)) || Lost(s)
  {
    var s0, actions :| Starts(c, s0) && Executes(c, s0, actions, s);
    StartsInv(c, s0);
    ExecutionWake(c, s0, actions, s);
  }

  /** A producer can win the CAS only between the consumer's store of PARKED and its next store
      of RUNNING. (The consumer need not be parked: it may just have rescued a message.) */
  lemma SignalsOnlyAfterParked(c: Setup, s: System, j: nat)
    requires Sound(c.ring) && Occurs(c, s) && Wired(c, s) && CanAct(c, s, PostCas(j))
    ensures Act(c, s, PostCas(j)).producers[j].stage.Signalling? ==>
              var loop := s.consumer.loop;
              loop.Recheck? || loop.Rescued? || loop.Parked? || loop.Waking?
  {
    OccursInv(c, s);
  }
}
