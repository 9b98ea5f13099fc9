/** The counters agree with history: per-producer order of delivery, and what `events` and
    `wire_bytes` say at every moment and at the end of a run. */
module Statistics {
  import opened Words
  import opened RingModel
  import opened RingInvariant
  import opened Sums
  import opened System
  import opened SystemInvariant

  function Bytes(xs: seq<seq<byte>>): nat {
    if xs == [] then 0 else Bytes(xs[..|xs| - 1]) + |xs[|xs| - 1]|
  }

  lemma BytesExtend(xs: seq<seq<byte>>, x: seq<byte>)
    ensures Bytes(xs + [x]) == Bytes(xs) + |x|
  {
    assert (xs + [x])[..|xs|] == xs;
  }

  // ----- The counters -----

  /** A message is taken out but not yet counted in `events`. */
  predicate Uncounted(pop: PopPc, k: Consumer) {
    pop.AtAdvance? || k.loop.Rescued? || k.loop.CountEvent?
  }

  /** A message is taken out but not yet counted in `wire_bytes`. */
  predicate Unmeasured(pop: PopPc, k: Consumer) {
    Uncounted(pop, k) || k.loop.CountBytes?
  }

  /** That message. */
  function Held(pop: PopPc, k: Consumer): seq<byte>
    requires Unmeasured(pop, k)
  {
    if pop.AtAdvance? then pop.out
    else match k.loop
         case Rescued(buf) => buf
         case CountEvent(buf, _) => buf
         case CountBytes(buf, _) => buf
         case _ => []
  }

  /** How many of its events producer `j` has encoded. */
  function Encoded(p: Producer): nat {
    if p.stage.Ready? || p.stage.Pushing? || p.stage.Sleeping? || p.stage.Posting? || p.stage.Signalling? ||
       p.stage.Rejected? || p.stage.Failed? || p.stage.Gone?
    then p.event + 1 else p.event
  }

  ghost predicate EncodedOk(c: Setup, s: System, j: nat)
    requires Wired(c, s) && j < |s.producers|
  {
    var p := s.producers[j];
    Encoded(p) <= |c.work[j]| && p.wireBytes == Bytes(c.work[j][..Encoded(p)])
  }

  ghost predicate CountersOk(popped: seq<seq<byte>>, pop: PopPc, k: Consumer) {
    && k.events + (if Uncounted(pop, k) then 1 else 0) == |popped|
    && k.wireBytes + (if Unmeasured(pop, k) then |Held(pop, k)| else 0) == Bytes(popped)
    && (Unmeasured(pop, k) ==> popped != [] && popped[|popped| - 1] == Held(pop, k))
  }

  ghost predicate StatInv(c: Setup, s: System)
    requires Wired(c, s)
  {
    && CountersOk(s.ring.popped, s.ring.consumer, s.consumer)
    && (forall i :: 0 <= i < |s.ring.log| ==> s.ring.log[i].owner < |s.producers|)
    && (forall j: nat :: j < |s.producers| ==> EncodedOk(c, s, j))
  }

  lemma AccessStats(c: Setup, s: System, step: Step)
    requires Wired(c, s) && ConsumerOk(s) && CanAccess(c, s, step)
    requires CountersOk(s.ring.popped, s.ring.consumer, s.consumer)
    ensures var t := DoAccess(c, s, step); CountersOk(t.ring.popped, t.ring.consumer, t.consumer)
  {
    if IsPushStep(step) {
      PushFrame(c.ring, s.ring, step);
      assert DoAccess(c, s, step).consumer == s.consumer by {
        hide Do;
      }
    } else {
      PopStats(c, s, step);
    }
  }

  lemma PopStats(c: Setup, s: System, step: Step)
    requires Wired(c, s) && ConsumerOk(s) && CanAccess(c, s, step) && !IsPushStep(step)
    requires CountersOk(s.ring.popped, s.ring.consumer, s.consumer)
    ensures var t := DoAccess(c, s, step); CountersOk(t.ring.popped, t.ring.consumer, t.consumer)
  {
    if step.FreeSlot? {
      BytesExtend(s.ring.popped, s.ring.consumer.out);
    } else {
      PopFrame(c.ring, s.ring, step);
    }
    hide DoPush, Shape, Bytes;
  }

  lemma OtherStats(c: Setup, s: System, a: Action)
    requires Wired(c, s) && ConsumerOk(s) && CanAct(c, s, a) && !a.Access?
    requires CountersOk(s.ring.popped, s.ring.consumer, s.consumer)
    ensures var t := Act(c, s, a); CountersOk(t.ring.popped, t.ring.consumer, t.consumer)
  {
    var t := Act(c, s, a);
    if IsProducerAction(a) {
      hide CountersOk, Wired;
      assert t.ring.popped == s.ring.popped && t.ring.consumer == s.ring.consumer && t.consumer == s.consumer;
    } else if IsLinkAction(a) {
      hide CountersOk, Wired;
      assert t.ring == s.ring && t.consumer == s.consumer;
    } else {
      LoopStats(c, s, a);
    }
  }

  lemma LoopStats(c: Setup, s: System, a: Action)
    requires Wired(c, s) && ConsumerOk(s)
    requires !a.Access? && !IsProducerAction(a) && !IsLinkAction(a) && CanConsume(c, s, a)
    requires CountersOk(s.ring.popped, s.ring.consumer, s.consumer)
    ensures var t := Consume(c, s, a); CountersOk(t.ring.popped, t.ring.consumer, t.consumer)
  {
    hide DoPush, Shape;
  }

  lemma EncodeStats(c: Setup, s: System, a: Action, j: nat)
    requires SystemInv(c, s) && StatInv(c, s) && CanAct(c, s, a) && j < |s.producers|
    ensures EncodedOk(c, Act(c, s, a), j)
  {
    assert ProducerOk(c, s, j) && EncodedOk(c, s, j);
    var t := Act(c, s, a);
    if a == Encode(j) {
      var e := s.producers[j].event;
      BytesExtend(c.work[j][..e], c.work[j][e]);
      assert c.work[j][..e + 1] == c.work[j][..e] + [c.work[j][e]];
    } else {
      SameEncoded(c, s, a, j);
    }
  }

  lemma SameEncoded(c: Setup, s: System, a: Action, j: nat)
    requires SystemInv(c, s) && CanAct(c, s, a) && j < |s.producers| && a != Encode(j)
    ensures var p, q := s.producers[j], Act(c, s, a).producers[j];
            Encoded(p) == Encoded(q) && p.wireBytes == q.wireBytes
  {
    assert ProducerOk(c, s, j);
    if a.Access? {
      AccessEncoded(c, s, a.step, j);
    } else if IsProducerAction(a) {
      ProduceEncoded(c, s, a, j);
    } else {
      hide Do, SystemInv, Encoded;
    }
  }

  lemma AccessEncoded(c: Setup, s: System, step: Step, j: nat)
    requires Wired(c, s) && CanAccess(c, s, step) && j < |s.producers|
    ensures var p, q := s.producers[j], DoAccess(c, s, step).producers[j];
            Encoded(p) == Encoded(q) && p.wireBytes == q.wireBytes
  {
    hide Do;
  }

  lemma ProduceEncoded(c: Setup, s: System, a: Action, j: nat)
    requires Wired(c, s) && IsProducerAction(a) && CanProduce(c, s, a)
    requires j < |s.producers| && ProducerOk(c, s, j) && a != Encode(j)
    ensures var p, q := s.producers[j], Produce(c, s, a).producers[j];
            Encoded(p) == Encoded(q) && p.wireBytes == q.wireBytes
  {
    hide Do;
  }

  lemma OwnersStep(c: Setup, s: System, a: Action)
    requires SystemInv(c, s) && CanAct(c, s, a)
    requires forall i :: 0 <= i < |s.ring.log| ==> s.ring.log[i].owner < |s.producers|
    ensures forall i :: 0 <= i < |Act(c, s, a).ring.log| ==> Act(c, s, a).ring.log[i].owner < |s.producers|
  {
    assert Wired(c, s);
    hide Do, Inv, SystemInv, DoAccess, Produce, Convey, Consume;
    if a.Access? {
      LogOfAccess(c, s, a.step);
    } else {
      LogOfOthers(c, s, a);
    }
  }

  lemma LogOfAccess(c: Setup, s: System, step: Step)
    requires Wired(c, s) && CanAccess(c, s, step)
    ensures var log := DoAccess(c, s, step).ring.log;
            log == s.ring.log || (log != [] && log[..|log| - 1] == s.ring.log && log[|log| - 1].owner < |s.producers|)
  {
    hide Do;
    if IsPushStep(step) {
      PushFrame(c.ring, s.ring, step);
    } else {
      PopFrame(c.ring, s.ring, step);
    }
  }

  lemma LogOfOthers(c: Setup, s: System, a: Action)
    requires Wired(c, s) && CanAct(c, s, a) && !a.Access?
    ensures Act(c, s, a).ring.log == s.ring.log
  {
  }

  lemma StatStep(c: Setup, s: System, a: Action)
    requires SystemInv(c, s) && StatInv(c, s) && CanAct(c, s, a)
    ensures StatInv(c, Act(c, s, a))
  {
    var t := Act(c, s, a);
    if a.Access? {
      AccessStats(c, s, a.step);
    } else {
      OtherStats(c, s, a);
    }
    OwnersStep(c, s, a);
    forall j: nat | j < |t.producers| ensures EncodedOk(c, t, j) {
      EncodeStats(c, s, a, j);
    }
  }

  lemma {:induction false} ExecutionStats(c: Setup, s: System, actions: seq<Action>, t: System)
    requires Sound(c.ring) && SystemInv(c, s) && StatInv(c, s) && Executes(c, s, actions, t)
    ensures SystemInv(c, t) && StatInv(c, t)
    decreases |actions|
  {
    if actions != [] {
      StatStep(c, s, actions[0]);
      ActInv(c, s, actions[0]);
      ExecutionStats(c, Act(c, s, actions[0]), actions[1..], t);
    }
  }

  lemma OccursStats(c: Setup, t: System)
    requires Sound(c.ring) && Occurs(c, t)
    ensures SystemInv(c, t) && StatInv(c, t)
  {
    var s, actions :| Starts(c, s) && Executes(c, s, actions, t);
    StartsInv(c, s);
    ExecutionStats(c, s, actions, t);
  }

  /** `events` and `wire_bytes` are the count and the byte sum of a prefix of the delivered payloads
      that misses at most the last one, the message the consumer has in hand. */
  lemma CountersLagByOne(c: Setup, s: System)
    requires Sound(c.ring) && Occurs(c, s)
    ensures s.consumer.events <= |s.ring.popped| <= s.consumer.events + 1
    ensures s.consumer.wireBytes == Bytes(s.ring.popped) ||
            (s.ring.popped != [] && s.consumer.wireBytes == Bytes(s.ring.popped[..|s.ring.popped| - 1]))
    ensures s.consumer.loop.Top? ==>
              s.consumer.events == |s.ring.popped| && s.consumer.wireBytes == Bytes(s.ring.popped)
  {
    OccursStats(c, s);
  }

  // ----- Order of one producer's events -----

  lemma {:induction false} OwnDataPrefix(log: seq<Entry>, n: nat, j: nat)
    requires n <= |log|
    ensures OwnData(log[..n], j) <= OwnData(log, j)
  {
    if n < |log| {
      OwnDataPrefix(log[..|log| - 1], n, j);
      assert log[..|log| - 1][..n] == log[..n];
    } else {
      assert log[..n] == log;
    }
  }

  /** The events of each producer are delivered in the order it produced them, from its event 0 on,
      without a gap, across any number of Full answers; the delivered payloads are those entries. */
  lemma ProducerOrder(c: Setup, s: System, j: nat)
    requires Sound(c.ring) && Occurs(c, s) && j < |c.work|
    ensures |s.ring.popped| <= |s.ring.log|
    ensures forall i :: 0 <= i < |s.ring.popped| ==> s.ring.popped[i] == s.ring.log[i].data
    ensures OwnData(s.ring.log[..|s.ring.popped|], j) <= c.work[j]
  {
    OccursInv(c, s);
    assert ProducerOk(c, s, j);
    OwnDataPrefix(s.ring.log, |s.ring.popped|, j);
  }

  // ----- The end of a run -----

  function Lengths(xss: seq<seq<seq<byte>>>): (f: seq<nat>)
    ensures |f| == |xss|
  {
    seq(|xss|, j requires 0 <= j < |xss| => |xss[j]|)
  }

  function Sizes(xss: seq<seq<seq<byte>>>): (f: seq<nat>)
    ensures |f| == |xss|
  {
    seq(|xss|, j requires 0 <= j < |xss| => Bytes(xss[j]))
  }

  function Shares(log: seq<Entry>, n: nat): (xss: seq<seq<seq<byte>>>)
    ensures |xss| == n
  {
    seq(n, j requires j >= 0 => OwnData(log, j))
  }

  /** The history is partitioned among its owners: in number and in bytes. */
  lemma {:induction false} HistoryIsShared(log: seq<Entry>, n: nat)
    requires forall i :: 0 <= i < |log| ==> log[i].owner < n
    ensures |log| == Sum(Lengths(Shares(log, n)))
    ensures Bytes(Data(log)) == Sum(Sizes(Shares(log, n)))
  {
    var shares := Shares(log, n);
    if log == [] {
      SumZero(Lengths(shares));
      SumZero(Sizes(shares));
    } else {
      var rest, e := log[..|log| - 1], log[|log| - 1];
      HistoryIsShared(rest, n);
      hide *;
      assert log == rest + [e];
      ShareOfLast(rest, e, n);
      ShareGrows(Shares(rest, n), e.owner, e.data);
      BytesExtend(Data(rest), e.data);
    }
  }

  lemma ShareOfLast(rest: seq<Entry>, e: Entry, n: nat)
    requires e.owner < n
    ensures var before := Shares(rest, n);
            Shares(rest + [e], n) == before[e.owner := before[e.owner] + [e.data]]
    ensures Data(rest + [e]) == Data(rest) + [e.data]
  {
    var log, before := rest + [e], Shares(rest, n);
    assert log[..|rest|] == rest;
    forall j: nat | j < n ensures OwnData(log, j) == before[e.owner := before[e.owner] + [e.data]][j] {
    }
    assert Data(log) == Data(rest) + [e.data];
  }

  lemma ShareGrows(xss: seq<seq<seq<byte>>>, j: nat, x: seq<byte>)
    requires j < |xss|
    ensures Sum(Lengths(xss[j := xss[j] + [x]])) == Sum(Lengths(xss)) + 1
    ensures Sum(Sizes(xss[j := xss[j] + [x]])) == Sum(Sizes(xss)) + |x|
  {
    var yss := xss[j := xss[j] + [x]];
    BytesExtend(xss[j], x);
    SumUpdate(Lengths(xss), j, |yss[j]|);
    SumUpdate(Sizes(xss), j, Bytes(yss[j]));
    assert Lengths(yss) == Lengths(xss)[j := |yss[j]|];
    assert Sizes(yss) == Sizes(xss)[j := Bytes(yss[j])];
  }

  function ProducedBytes(s: System): (f: seq<nat>)
    ensures |f| == |s.producers|
  {
    seq(|s.producers|, j requires 0 <= j < |s.producers| => s.producers[j].wireBytes)
  }

  lemma HistoryBound(c: Setup, s: System)
    requires SystemInv(c, s) && StatInv(c, s)
    ensures |s.ring.log| <= Sum(Lengths(c.work))
    ensures |s.ring.log| == Sum(Lengths(c.work)) ==> Shares(s.ring.log, |c.work|) == c.work
  {
    var shares := Shares(s.ring.log, |c.work|);
    HistoryIsShared(s.ring.log, |c.work|);
    forall j | 0 <= j < |c.work| ensures shares[j] <= c.work[j] {
      assert ProducerOk(c, s, j);
    }
    SumAtMost(Lengths(shares), Lengths(c.work));
    if |s.ring.log| == Sum(Lengths(c.work)) {
      forall j | 0 <= j < |c.work| ensures shares[j] == c.work[j] {
        assert Lengths(shares)[j] == Lengths(c.work)[j];
      }
    }
  }

  /** `events` never exceeds the number of events produced; and when it has reached it, `wire_bytes` equals
      the sum of the producers' own byte counts exactly when the consumer is past the update of
      `wire_bytes` for the last message (or that message was empty). */
  lemma EndOfRun(c: Setup, s: System)
    requires Sound(c.ring) && Occurs(c, s)
    ensures s.consumer.events <= Sum(Lengths(c.work))
    ensures s.consumer.events == Sum(Lengths(c.work)) ==>
              (s.consumer.wireBytes == Sum(ProducedBytes(s)) <==>
               !(s.consumer.loop.CountBytes? && s.consumer.loop.buf != []))
  {
    OccursStats(c, s);
    HistoryBound(c, s);
    var log, popped := s.ring.log, s.ring.popped;
    if s.consumer.events == Sum(Lengths(c.work)) {
      assert popped == Data(log);
      HistoryIsShared(log, |c.work|);
      forall j | 0 <= j < |c.work| ensures ProducedBytes(s)[j] == Sizes(c.work)[j] {
        assert ProducerOk(c, s, j) && EncodedOk(c, s, j);
        assert OwnData(log, j) == Shares(log, |c.work|)[j] == c.work[j];
        assert c.work[j][..|c.work[j]|] == c.work[j];
      }
      assert ProducedBytes(s) == Sizes(c.work);
    }
  }
}
