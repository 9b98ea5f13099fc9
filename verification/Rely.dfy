/** What one party may rely on while the others run. */
module Rely {
  import opened Words
  import opened Geometry
  import opened RingModel
  import opened RingInvariant
  import opened System
  import opened SystemInvariant

  datatype Party = ProducerTask(j: nat) | ConsumerThread | WriterTask(j: nat) | ServerLoop(j: nat)

  predicate By(a: Action, me: Party) {
    match me
    case ProducerTask(j) => (a.Access? && ByProducer(a.step, j)) || (IsProducerAction(a) && a.j == j)
    case ConsumerThread =>
      if a.Access? then !IsPushStep(a.step) else !IsProducerAction(a) && !IsLinkAction(a)
    case WriterTask(j) => (a.WriterRecv? || a.WriterSend? || a.WriterExit?) && a.j == j
    case ServerLoop(j) => (a.ReadLine? || a.CountPosted? || a.Unpark? || a.ReadEof?) && a.j == j
  }

  /** An action that begins something anew: a producer's call of `push`, an iteration of the consumer loop. */
  predicate Begins(a: Action) {
    a.EnterPush? || a.StartDrain?
  }

  /** How often in `run` party `me` has begun anew. */
  ghost function Begun(me: Party, run: seq<Action>): nat {
    match me
    case ProducerTask(j) => multiset(run)[EnterPush(j)]
    case ConsumerThread => multiset(run)[StartDrain]
    case _ => 0
  }

  lemma OwnStep(me: Party, run: seq<Action>, a: Action)
    requires By(a, me)
    ensures Begun(me, run + [a]) == Begun(me, run) + (if Begins(a) then 1 else 0)
  {
  }

  lemma OthersBeginNothing(me: Party, xs: seq<Action>, ys: seq<Action>)
    requires forall i :: 0 <= i < |ys| ==> !By(ys[i], me)
    ensures Begun(me, xs + ys) == Begun(me, xs)
  {
    forall a | a in multiset(ys) ensures !By(a, me) {
    }
  }

  /** The others took `s` to `t` by `actions`. */
  ghost predicate OthersRan(c: Setup, me: Party, s: System, actions: seq<Action>, t: System)
    requires Wired(c, s)
  {
    && Executes(c, s, actions, t)
    && forall i :: 0 <= i < |actions| ==> !By(actions[i], me)
  }

  // ----- A producer -----

  /** Producer `j` keeps its counters, its history and what it was promised. */
  ghost predicate ProducerKeeps(s: System, t: System, j: nat) {
    && j < |s.producers| == |t.producers| == |s.links| == |t.links|
    && |s.producers| == |s.ring.producers| == |t.ring.producers|
    && t.producers[j] == s.producers[j] && t.ring.producers[j] == s.ring.producers[j]
    && s.ring.log <= t.ring.log && Freed(s.ring) <= Freed(t.ring)
    && t.links[j].closed == s.links[j].closed && t.links[j].signalled == s.links[j].signalled
  }

  lemma ProducerKeepsStep(c: Setup, s: System, a: Action, j: nat)
    requires SystemInv(c, s) && CanAct(c, s, a) && j < |s.producers| && !By(a, ProducerTask(j))
    ensures ProducerKeeps(s, Act(c, s, a), j)
  {
    assert Wired(c, s);
    hide DoAccess, Produce, Convey, Consume, ProducerKeeps, Inv;
    if a.Access? {
      ForeignAccess(c, s, a.step, j);
    } else if IsProducerAction(a) {
      ForeignProduce(c, s, a, j);
    } else if IsLinkAction(a) {
      ForeignConvey(c, s, a, j);
    } else {
      ForeignConsume(c, s, a, j);
    }
  }

  lemma ForeignAccess(c: Setup, s: System, step: Step, j: nat)
    requires Wired(c, s) && Inv(c.ring, s.ring) && CanAccess(c, s, step) && j < |s.producers| && !ByProducer(step, j)
    ensures ProducerKeeps(s, DoAccess(c, s, step), j)
  {
    if IsPushStep(step) {
      PushFrame(c.ring, s.ring, step);
    } else {
      PopFrame(c.ring, s.ring, step);
      FreedGrows(c.ring, s.ring, step);
    }
    hide Do, Inv;
  }

  lemma ForeignConsume(c: Setup, s: System, a: Action, j: nat)
    requires Wired(c, s) && !a.Access? && !IsProducerAction(a) && !IsLinkAction(a) && CanConsume(c, s, a)
    requires j < |s.producers|
    ensures ProducerKeeps(s, Consume(c, s, a), j)
  {
  }

  lemma ForeignProduce(c: Setup, s: System, a: Action, j: nat)
    requires Wired(c, s) && IsProducerAction(a) && CanProduce(c, s, a) && j < |s.producers| && a.j != j
    ensures ProducerKeeps(s, Produce(c, s, a), j)
  {
  }

  lemma ForeignConvey(c: Setup, s: System, a: Action, j: nat)
    requires Wired(c, s) && IsLinkAction(a) && CanLink(c, s, a) && j < |s.producers|
    ensures ProducerKeeps(s, Convey(c, s, a), j)
  {
  }

  lemma FreedGrows(c: RingConfig, s: Ring, step: Step)
    requires Inv(c, s) && Enabled(c, s, step) && !IsPushStep(step)
    ensures Freed(s) <= Freed(Do(c, s, step))
  {
    hide DoPush;
  }

  lemma {:induction false} ProducerRely(c: Setup, s: System, actions: seq<Action>, t: System, j: nat)
    requires Sound(c.ring) && SystemInv(c, s) && j < |s.producers|
    requires OthersRan(c, ProducerTask(j), s, actions, t)
    ensures SystemInv(c, t) && ProducerKeeps(s, t, j)
    decreases |actions|
  {
    if actions != [] {
      var a := actions[0];
      assert !By(a, ProducerTask(j));
      ProducerKeepsStep(c, s, a, j);
      ActInv(c, s, a);
      var u := Act(c, s, a);
      assert forall i :: 0 <= i < |actions[1..]| ==> actions[1..][i] == actions[i + 1];
      hide Act, By;
      ProducerRely(c, u, actions[1..], t, j);
    }
  }

  // ----- The consumer -----

  ghost predicate ConsumerKeeps(c: Setup, s: System, t: System)
    requires Wired(c, s) && Wired(c, t)
  {
    && t.consumer == s.consumer
    && t.ring.consumer == s.ring.consumer && t.ring.head == s.ring.head && t.ring.popped == s.ring.popped
    && s.ring.log <= t.ring.log
    && (forall p: nat :: Published(c.ring, s.ring, p) ==> Published(c.ring, t.ring, p))
    && t.parks == s.parks && (s.word == RUNNING ==> t.word == RUNNING) && (s.token ==> t.token)
  }

  lemma ConsumerKeepsStep(c: Setup, s: System, a: Action)
    requires Sound(c.ring) && SystemInv(c, s) && CanAct(c, s, a) && !By(a, ConsumerThread)
    ensures ConsumerKeeps(c, s, Act(c, s, a))
  {
    hide DoAccess, Produce, Convey, Consume, ConsumerKeeps, Inv;
    if a.Access? {
      AccessKeepsConsumer(c, s, a.step);
    } else if IsProducerAction(a) {
      ProduceKeepsConsumer(c, s, a);
    } else {
      ConveyKeepsConsumer(c, s, a);
    }
  }

  lemma AccessKeepsConsumer(c: Setup, s: System, step: Step)
    requires Sound(c.ring) && Wired(c, s) && Inv(c.ring, s.ring) && CanAccess(c, s, step) && IsPushStep(step)
    ensures ConsumerKeeps(c, s, DoAccess(c, s, step))
  {
    hide Do, Inv, Published;
    PushFrame(c.ring, s.ring, step);
    forall p: nat | Published(c.ring, s.ring, p)
      ensures Published(c.ring, Do(c.ring, s.ring, step), p)
    {
      PublishedPersists(c.ring, s.ring, step, p);
    }
  }

  lemma ProduceKeepsConsumer(c: Setup, s: System, a: Action)
    requires Wired(c, s) && IsProducerAction(a) && CanProduce(c, s, a)
    ensures ConsumerKeeps(c, s, Produce(c, s, a))
  {
  }

  lemma ConveyKeepsConsumer(c: Setup, s: System, a: Action)
    requires Wired(c, s) && IsLinkAction(a) && CanLink(c, s, a)
    ensures ConsumerKeeps(c, s, Convey(c, s, a))
  {
    hide Do;
  }

  lemma {:induction false} ConsumerRely(c: Setup, s: System, actions: seq<Action>, t: System)
    requires Sound(c.ring) && SystemInv(c, s)
    requires OthersRan(c, ConsumerThread, s, actions, t)
    ensures SystemInv(c, t) && ConsumerKeeps(c, s, t)
    decreases |actions|
  {
    if actions != [] {
      var a := actions[0];
      assert !By(a, ConsumerThread);
      ConsumerKeepsStep(c, s, a);
      ActInv(c, s, a);
      var u := Act(c, s, a);
      assert forall i :: 0 <= i < |actions[1..]| ==> actions[1..][i] == actions[i + 1];
      hide Act, By;
      ConsumerRely(c, u, actions[1..], t);
    }
  }

  // ----- Published messages -----

  lemma FreeingSparesOthers(c: RingConfig, s: Ring, q: nat)
    requires Sound(c) && Inv(c, s) && Enabled(c, s, FreeSlot) && Published(c, s, q) && q != s.head
    ensures Published(c, Do(c, s, FreeSlot), q)
  {
    DistinctSlots(c, q, s.head);
  }

  lemma PublishedOrFreedStep(c: Setup, s: System, a: Action, q: nat)
    requires Sound(c.ring) && SystemInv(c, s) && CanAct(c, s, a) && Published(c.ring, s.ring, q)
    ensures var r := Act(c, s, a).ring; Freed(s.ring) <= Freed(r) && (q < Freed(r) || Published(c.ring, r, q))
  {
    if a.Access? {
      if a.step.FreeSlot? {
        if q != s.ring.head {
          FreeingSparesOthers(c.ring, s.ring, q);
        }
      } else {
        hide Do, Inv, Published;
        PublishedPersists(c.ring, s.ring, a.step, q);
      }
    } else {
      hide Inv, Do;
      SameRing(c, s, a);
    }
  }

  /** Only accesses inside `push` and `try_pop` touch the slots, the head or the history. */
  lemma SameRing(c: Setup, s: System, a: Action)
    requires Wired(c, s) && CanAct(c, s, a) && !a.Access?
    ensures var r := Act(c, s, a).ring;
            r.slots == s.ring.slots && r.log == s.ring.log && r.head == s.ring.head && Freed(r) == Freed(s.ring)
  {
    hide DoAccess;
  }

  /** A message once published stays so until it is delivered. */
  lemma {:induction false} PublishedOrFreed(c: Setup, s: System, actions: seq<Action>, t: System, q: nat)
    requires Sound(c.ring) && SystemInv(c, s) && Executes(c, s, actions, t) && Published(c.ring, s.ring, q)
    ensures Wired(c, t) && (q < Freed(t.ring) || Published(c.ring, t.ring, q))
    decreases |actions|
  {
    if actions != [] {
      PublishedOrFreedStep(c, s, actions[0], q);
      ActInv(c, s, actions[0]);
      var u := Act(c, s, actions[0]);
      hide Act, CanAct, Inv;
      if Published(c.ring, u.ring, q) {
        PublishedOrFreed(c, u, actions[1..], t, q);
      } else {
        FreedNeverFalls(c, u, actions[1..], t);
      }
    }
  }

  lemma {:induction false} FreedNeverFalls(c: Setup, s: System, actions: seq<Action>, t: System)
    requires Sound(c.ring) && SystemInv(c, s) && Executes(c, s, actions, t)
    ensures SystemInv(c, t) && Freed(s.ring) <= Freed(t.ring)
    decreases |actions|
  {
    if actions != [] {
      FreedStep(c, s, actions[0]);
      ActInv(c, s, actions[0]);
      hide Act, CanAct, SystemInv;
      FreedNeverFalls(c, Act(c, s, actions[0]), actions[1..], t);
    }
  }

  lemma FreedStep(c: Setup, s: System, a: Action)
    requires SystemInv(c, s) && CanAct(c, s, a)
    ensures Freed(s.ring) <= Freed(Act(c, s, a).ring)
  {
    hide Produce, Convey, Consume;
    if a.Access? {
      if IsPushStep(a.step) {
        PushFrame(c.ring, s.ring, a.step);
      } else {
        FreedGrows(c.ring, s.ring, a.step);
      }
      hide Do, Inv;
    } else {
      SameRing(c, s, a);
    }
  }

  // ----- Ancient positions -----

  /** The position producer `j` has loaded is at most 2^63 - numSlots reservations old: within that
      age the 64-bit comparisons of `push` mean what they say. */
  predicate Recent(c: RingConfig, s: Ring, j: nat)
    requires j < |s.producers|
  {
    var pc := s.producers[j];
    pc.AtSeq? || pc.AtCas? ==> s.tail - pc.pos <= TWO63 - c.numSlots
  }

  /** On recent positions the wrapped comparisons of `push` decide as the unbounded ones. */
  lemma WrappedPushChecks(c: RingConfig, s: Ring, j: nat)
    requires Sound(c) && c.Check() && Inv(c, s) && j < |s.producers| && Recent(c, s, j)
    ensures s.producers[j].AtSeq? ==>
              var pos := s.producers[j].pos; var q := SlotAt(c, s, pos).seqNo;
              SubI64(Wrap64(q), Wrap64(pos)) == q - pos
    ensures s.producers[j].AtCas? ==>
              (Wrap64(s.tail) == Wrap64(s.producers[j].pos) <==> s.tail == s.producers[j].pos)
  {
    assert ProducerInv(c, s, j);
    SlotCountBound(c);
    if s.producers[j].AtSeq? {
      var pos := s.producers[j].pos;
      SeqVerdict(c, s, j);
      SignedDifference(SlotAt(c, s, pos).seqNo, pos);
    } else if s.producers[j].AtCas? {
      EqualImages(s.tail, s.producers[j].pos);
    }
  }

  /** The consumer's test needs no such assumption: the two numbers it compares are never more
      than numSlots apart. */
  lemma WrappedPopCheck(c: RingConfig, s: Ring)
    requires Sound(c) && Inv(c, s) && s.consumer.AtHeadSeq?
    ensures var h := s.consumer.head;
            Wrap64(SlotAt(c, s, h).seqNo) == Wrap64(h + 1) <==> SlotAt(c, s, h).seqNo == h + 1
  {
    var h := s.consumer.head;
    assert SlotInv(c, s, h);
    EqualImages(SlotAt(c, s, h).seqNo, h + 1);
  }

  /** Exactly when the CAS on the wrapped `tail` is fooled: the position was loaded a positive multiple
      of 2^64 reservations ago. */
  lemma CasFooledExactly(c: RingConfig, s: Ring, j: nat)
    requires Inv(c, s) && j < |s.producers| && s.producers[j].AtCas?
    ensures var pos := s.producers[j].pos;
            (Wrap64(s.tail) == Wrap64(pos) <==> s.tail == pos) <==>
            !(s.tail > pos && (s.tail - pos) % TWO64 == 0)
  {
    assert ProducerInv(c, s, j);
    EqualImages(s.tail, s.producers[j].pos);
  }
}
