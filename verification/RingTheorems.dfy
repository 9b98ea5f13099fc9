/** What the ring guarantees in every reachable state and over every run. */
module RingTheorems {
  import opened Geometry
  import opened RingModel
  import opened RingInvariant
  import opened RingRuns
  import opened Sums

  // ----- States -----

  /** Exclusive access: two writers never share a slot, and nobody writes the slot that the
      consumer is reading. */
  lemma ExclusiveAccess(c: RingConfig, s: Ring, i: nat, j: nat)
    requires Sound(c) && Reachable(c, s)
    requires i < |s.producers| && j < |s.producers| && s.producers[i].Writing()
    ensures i != j && s.producers[j].Writing() ==>
              Index(c, s.producers[i].pos) != Index(c, s.producers[j].pos)
    ensures s.consumer.AtHeadLength? || s.consumer.AtHeadBytes? ==>
              Index(c, s.producers[i].pos) != Index(c, s.consumer.head)
  {
    ReachableInv(c, s);
    assert ProducerInv(c, s, i) && ProducerInv(c, s, j);
    if i != j && s.producers[j].Writing() {
      DistinctSlots(c, s.producers[i].pos, s.producers[j].pos);
    }
    if s.consumer.AtHeadLength? || s.consumer.AtHeadBytes? {
      DistinctSlots(c, s.producers[i].pos, s.consumer.head);
    }
  }

  /** `Full` is never spurious: it is answered exactly when, at the load of the sequence number,
      `tail` is the loaded position and numSlots positions are reserved and not freed. The failed
      push leaves the shared memory and the history as they were. */
  lemma FullIsExact(c: RingConfig, s: Ring, j: nat)
    requires Sound(c) && Reachable(c, s) && Shape(c, s) && Enabled(c, s, LoadSeq(j))
    ensures SeesFull(c, s, LoadSeq(j)) <==>
              s.producers[j].pos == s.tail == Freed(s) + c.numSlots
    ensures SeesFull(c, s, LoadSeq(j)) ==>
              Do(c, s, LoadSeq(j)) == SetPc(s, j, NotPushing)
  {
    ReachableInv(c, s);
    SeqVerdict(c, s, j);
  }

  /** `None` means that the position at the head is not published; it is answered in exactly that
      case, whether or not later positions are published. */
  lemma NoneIsExact(c: RingConfig, s: Ring)
    requires Sound(c) && Reachable(c, s) && Shape(c, s) && Enabled(c, s, LoadHeadSeq)
    ensures SeesNone(c, s, LoadHeadSeq) <==> !Published(c, s, s.head)
  {
    ReachableInv(c, s);
    assert SlotInv(c, s, s.head);
  }

  /** The window between the two stores of `try_pop`: measured with the stored `head` the ring can
      look one message over full, and it does so only inside that window. */
  lemma StoredHeadWindow(c: RingConfig, s: Ring)
    requires Sound(c) && Reachable(c, s)
    ensures s.tail - s.head <= c.numSlots + 1
    ensures s.tail - s.head == c.numSlots + 1 ==> s.consumer.AtAdvance?
    ensures Freed(s) <= s.tail <= Freed(s) + c.numSlots
  {
    ReachableInv(c, s);
  }

  /** A repeated iteration of the push loop always has a cause: the weak CAS failed
      spuriously, or `tail` has moved past the loaded position. */
  lemma RepeatHasCause(c: RingConfig, s: Ring, step: Step)
    requires Sound(c) && Inv(c, s) && Enabled(c, s, step) && Repeats(c, s, step)
    ensures (step.CasTail? && step.spurious) || s.producers[step.j].pos < s.tail
  {
    assert ProducerInv(c, s, step.j);
    if step.LoadSeq? {
      SeqVerdict(c, s, step.j);
    }
  }

  // ----- Runs -----

  /** No message is lost, duplicated, reordered or altered: what the consumer has taken out is the
      first `Freed` reservations of the history, payload for payload. */
  lemma DeliveredInOrder(c: RingConfig, s: Ring)
    requires Sound(c) && Reachable(c, s)
    ensures Delivered(s)
    ensures |s.log| == s.tail
  {
    ReachableInv(c, s);
  }

  /** History is append-only. */
  lemma {:induction false} HistoryGrows(c: RingConfig, s: Ring, steps: seq<Step>, t: Ring)
    requires Shape(c, s) && Runs(c, s, steps, t)
    ensures s.log <= t.log && s.popped <= t.popped && |s.producers| == |t.producers|
    decreases |steps|
  {
    if steps != [] {
      HistoryGrows(c, Do(c, s, steps[0]), steps[1..], t);
    }
  }

  /** Real-time order: a position reserved before the state `s` and one reserved after it are
      delivered in that order, whoever the producers are. */
  lemma RealTimeOrder(c: RingConfig, s: Ring, steps: seq<Step>, t: Ring, p: nat, q: nat)
    requires Sound(c) && Reachable(c, s) && Shape(c, s) && Runs(c, s, steps, t)
    requires p < |s.log| <= q < |t.log|
    ensures t.log[p] == s.log[p]
    ensures q < |t.popped| ==>
              p < q && t.popped[p] == s.log[p].data && t.popped[q] == t.log[q].data
    ensures |s.log| <= |t.popped| ==> t.popped[..|s.log|] == Data(s.log)
  {
    ReachableInv(c, s);
    RunInv(c, s, steps, t);
    HistoryGrows(c, s, steps, t);
  }

  // ----- Lock-freedom -----

  /** Does the step send its producer back to the top of the push loop? */
  predicate Repeats(c: RingConfig, s: Ring, step: Step)
    requires Shape(c, s) && Enabled(c, s, step)
  {
    && (step.LoadSeq? || step.CasTail?)
    && Do(c, s, step).producers[step.j].AtTail?
  }

  ghost function RepeatsOf(c: RingConfig, s: Ring, steps: seq<Step>, t: Ring, j: nat): nat
    requires Shape(c, s) && Runs(c, s, steps, t)
    decreases |steps|
  {
    if steps == [] then 0
    else
      (if ByProducer(steps[0], j) && Repeats(c, s, steps[0]) then 1 else 0) +
      RepeatsOf(c, Do(c, s, steps[0]), steps[1..], t, j)
  }

  function SpuriousOf(steps: seq<Step>, j: nat): nat {
    if steps == [] then 0
    else (if steps[0] == CasTail(j, true) then 1 else 0) + SpuriousOf(steps[1..], j)
  }

  /** The last value of `tail` that producer `j` still relies on. */
  function Basis(s: Ring, j: nat): nat
    requires j < |s.producers|
  {
    if s.producers[j].AtSeq? || s.producers[j].AtCas? then s.producers[j].pos else s.tail
  }

  lemma BasisStep(c: RingConfig, s: Ring, step: Step, j: nat)
    requires Sound(c) && Inv(c, s) && Enabled(c, s, step) && j < |s.producers|
    ensures Basis(s, j) <= s.tail
    ensures Basis(s, j) <= Basis(Do(c, s, step), j)
    ensures ByProducer(step, j) && Repeats(c, s, step) && step != CasTail(j, true) ==>
              Basis(s, j) < Basis(Do(c, s, step), j)
  {
    assert ProducerInv(c, s, j);
    if ByProducer(step, j) && Repeats(c, s, step) {
      RepeatHasCause(c, s, step);
    }
  }

  /** Over any stretch of a run, a producer repeats its loop at most once for every position reserved
      since the `tail` it last relied on, plus once for every spurious failure: whenever one
      producer is held up, another one has won a position. */
  lemma {:induction false} LockFreedom(c: RingConfig, s: Ring, steps: seq<Step>, t: Ring, j: nat)
    requires Sound(c) && Inv(c, s) && Runs(c, s, steps, t) && j < |s.producers|
    ensures j < |t.producers|
    ensures RepeatsOf(c, s, steps, t, j) <= SpuriousOf(steps, j) + Basis(t, j) - Basis(s, j)
    ensures Basis(t, j) <= t.tail
    decreases |steps|
  {
    if steps == [] {
      assert ProducerInv(c, s, j);
    } else {
      BasisStep(c, s, steps[0], j);
      StepInv(c, s, steps[0]);
      LockFreedom(c, Do(c, s, steps[0]), steps[1..], t, j);
    }
  }

  function Bases(s: Ring): (f: seq<nat>)
    ensures |f| == |s.producers|
  {
    seq(|s.producers|, j requires 0 <= j < |s.producers| => Basis(s, j))
  }

  /** Repeated iterations and spurious failures of all producers together. */
  ghost function AllRepeats(c: RingConfig, s: Ring, steps: seq<Step>, t: Ring): nat
    requires Shape(c, s) && Runs(c, s, steps, t)
    decreases |steps|
  {
    if steps == [] then 0
    else (if Repeats(c, s, steps[0]) then 1 else 0) + AllRepeats(c, Do(c, s, steps[0]), steps[1..], t)
  }

  function AllSpurious(steps: seq<Step>): nat {
    if steps == [] then 0
    else (if steps[0].CasTail? && steps[0].spurious then 1 else 0) + AllSpurious(steps[1..])
  }

  lemma BasesStep(c: RingConfig, s: Ring, step: Step)
    requires Sound(c) && Inv(c, s) && Enabled(c, s, step)
    ensures Sum(Bases(s)) + (if Repeats(c, s, step) then 1 else 0) <=
            Sum(Bases(Do(c, s, step))) + (if step.CasTail? && step.spurious then 1 else 0)
  {
    var f, g := Bases(s), Bases(Do(c, s, step));
    forall j | 0 <= j < |f| ensures f[j] <= g[j] {
      BasisStep(c, s, step, j);
    }
    SumAtMost(f, g);
    if Repeats(c, s, step) && !(step.CasTail? && step.spurious) {
      BasisStep(c, s, step, step.j);
      assert f[step.j] < g[step.j];
    }
  }

  /** All producers together repeat their loops no more often than there were spurious failures and, for
      each producer, positions reserved. */
  lemma {:induction false} TotalRetries(c: RingConfig, s: Ring, steps: seq<Step>, t: Ring)
    requires Sound(c) && Inv(c, s) && Runs(c, s, steps, t)
    ensures AllRepeats(c, s, steps, t) + Sum(Bases(s)) <= AllSpurious(steps) + Sum(Bases(t))
    ensures Sum(Bases(t)) <= |t.producers| * t.tail
    decreases |steps|
  {
    if steps == [] {
      forall j | 0 <= j < |s.producers| ensures Bases(s)[j] <= s.tail {
        assert ProducerInv(c, s, j);
      }
      SumBounded(Bases(s), s.tail);
    } else {
      BasesStep(c, s, steps[0]);
      StepInv(c, s, steps[0]);
      hide Do, Enabled, Inv;
      TotalRetries(c, Do(c, s, steps[0]), steps[1..], t);
    }
  }

  // ----- A stalled producer -----

  /** If the owner of position `p` stops before publishing it, the damage is bounded: from then on
      nothing at or after `p` is delivered, and no position beyond p + numSlots is reserved. */
  lemma {:induction false} StallIsContained(c: RingConfig, s: Ring, steps: seq<Step>, t: Ring, j: nat)
    requires Sound(c) && Inv(c, s) && Runs(c, s, steps, t)
    requires j < |s.producers| && s.producers[j].Writing()
    requires forall i :: 0 <= i < |steps| ==> !ByProducer(steps[i], j)
    ensures j < |t.producers| && t.producers[j] == s.producers[j]
    ensures var p := s.producers[j].pos;
            t.head <= p && |t.popped| <= p && t.tail <= p + c.numSlots
    decreases |steps|
  {
    assert ProducerInv(c, s, j);
    if steps != [] {
      assert !ByProducer(steps[0], j);
      var u := Do(c, s, steps[0]);
      StepInv(c, s, steps[0]);
      assert u.producers[j] == s.producers[j];
      StallIsContained(c, u, steps[1..], t, j);
    }
  }

  /** Everything before the stalled position can still be delivered: there is a schedule, with no
      step of the stalled producer, after which exactly the messages before `p` are out. */
  lemma {:induction false} StallSparesEarlier(c: RingConfig, s: Ring, j: nat) returns (steps: seq<Step>, t: Ring)
    requires Sound(c) && Inv(c, s) && j < |s.producers| && s.producers[j].Writing()
    ensures Runs(c, s, steps, t)
    ensures forall i :: 0 <= i < |steps| ==> !ByProducer(steps[i], j)
    ensures |t.popped| == s.producers[j].pos
    decreases s.producers[j].pos - Freed(s)
  {
    var p := s.producers[j].pos;
    assert ProducerInv(c, s, j);
    if Freed(s) == p {
      steps, t := [], s;
    } else {
      assert SlotInv(c, s, Freed(s));
      var xs, u := DeliverHead(c, s);
      StallIsContained(c, s, xs, u, j);
      RunInv(c, s, xs, u);
      var ys;
      ys, t := StallSparesEarlier(c, u, j);
      Concat(c, s, xs, u, ys, t);
      steps := xs + ys;
    }
  }

  /** The owner of the head position and the consumer can deliver it between them. */
  lemma DeliverHead(c: RingConfig, s: Ring) returns (steps: seq<Step>, t: Ring)
    requires Sound(c) && Inv(c, s) && Freed(s) < |s.log|
    ensures Runs(c, s, steps, t) && Shape(c, t)
    ensures Freed(t) == Freed(s) + 1 && t.log == s.log
    ensures forall i :: 0 <= i < |steps| && IsPushStep(steps[i]) ==>
              !Published(c, s, Freed(s)) && steps[i].j == s.log[Freed(s)].owner
  {
    var xs, u := PublishHead(c, s);
    RunInv(c, s, xs, u);
    var ys;
    ys, t := TakeHead(c, u);
    Concat(c, s, xs, u, ys, t);
    steps := xs + ys;
  }

  /** If the head position is reserved, its owner alone can bring it to publication. */
  lemma PublishHead(c: RingConfig, s: Ring) returns (steps: seq<Step>, t: Ring)
    requires Sound(c) && Inv(c, s) && Freed(s) < |s.log|
    ensures Runs(c, s, steps, t) && Shape(c, t)
    ensures Freed(t) == Freed(s) && t.log == s.log && t.consumer == s.consumer
    ensures Published(c, t, Freed(s))
    ensures forall i :: 0 <= i < |steps| ==>
              !Published(c, s, Freed(s)) && ByProducer(steps[i], s.log[Freed(s)].owner)
  {
    var h := Freed(s);
    assert SlotInv(c, s, h);
    var o := s.log[h].owner;
    assert ProducerInv(c, s, o);
    if SlotAt(c, s, h).seqNo == h + 1 {
      steps, t := [], s;
    } else if s.producers[o].AtLength? {
      steps, t := SoloWrite(c, s, o);
    } else {
      steps, t := SoloCopy(c, s, o);
    }
  }

  /** If the head position is published, the consumer alone can take it out. */
  lemma TakeHead(c: RingConfig, s: Ring) returns (steps: seq<Step>, t: Ring)
    requires Sound(c) && Inv(c, s) && Published(c, s, Freed(s))
    ensures Runs(c, s, steps, t) && Shape(c, t)
    ensures Freed(t) == Freed(s) + 1 && t.log == s.log && t.producers == s.producers
    ensures forall i :: 0 <= i < |steps| ==> !IsPushStep(steps[i])
    decreases match s.consumer
              case AtAdvance(_, _) => 5
              case NotPopping => 4
              case AtHead => 3
              case AtHeadSeq(_) => 2
              case AtHeadLength(_) => 1
              case AtHeadBytes(_, _, _) => 0
  {
    assert SlotInv(c, s, Freed(s));
    if s.consumer.AtHeadBytes? {
      steps, t := SoloTake(c, s);
    } else {
      var step := match s.consumer
        case AtAdvance(_, _) => AdvanceHead
        case NotPopping => CallPop
        case AtHead => LoadHead
        case AtHeadSeq(_) => LoadHeadSeq
        case AtHeadLength(_) => LoadLength
        case AtHeadBytes(_, _, _) => CopyOut;
      var u := Do(c, s, step);
      StepInv(c, s, step);
      steps, t := TakeHead(c, u);
      Prepend(c, s, step, steps, t);
      steps := [step] + steps;
    }
  }
}
