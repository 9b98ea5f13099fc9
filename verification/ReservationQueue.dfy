/** The specification the ring refines: a bounded queue whose entries are reserved first and
    become ready later, and that hands out only a ready entry at its front. */
module ReservationQueue {
  import opened Words
  import opened Geometry
  import opened RingModel
  import opened RingInvariant

  datatype Queue = Queue(entries: seq<Entry>, ready: seq<bool>, taken: nat)

  datatype Event =
    | Reserve(owner: nat, data: seq<byte>)  // `push` wins a position
    | Ready(pos: nat)                       // ... and publishes it
    | Take(data: seq<byte>)                 // `try_pop` delivers
    | AnswerFull(owner: nat)
    | AnswerNone
    | Silent

  ghost predicate WellFormed(q: Queue) {
    |q.ready| == |q.entries| && q.taken <= |q.entries|
  }

  /** One event of a queue with room for `n` outstanding entries. */
  ghost predicate Next(n: nat, q: Queue, e: Event, r: Queue) {
    && WellFormed(q)
    && match e
       case Reserve(owner, data) =>
         && |q.entries| - q.taken < n
         && r == Queue(q.entries + [Entry(owner, data)], q.ready + [false], q.taken)
       case Ready(pos) =>
         && q.taken <= pos < |q.entries| && !q.ready[pos]
         && r == q.(ready := q.ready[pos := true])
       case Take(data) =>
         && q.taken < |q.entries| && q.ready[q.taken] && data == q.entries[q.taken].data
         && r == q.(taken := q.taken + 1)
       case AnswerFull(_) => |q.entries| - q.taken == n && r == q
       case AnswerNone => (q.taken < |q.entries| ==> !q.ready[q.taken]) && r == q
       case Silent => r == q
  }

  ghost predicate Accepts(n: nat, q: Queue, trace: seq<Event>, r: Queue)
    decreases |trace|
  {
    if trace == [] then q == r
    else exists m :: Next(n, q, trace[0], m) && Accepts(n, m, trace[1..], r)
  }

  // ----- Refinement -----

  ghost function IsReady(c: RingConfig, s: Ring, p: nat): bool
    requires Shape(c, s)
  {
    p < Freed(s) || SlotAt(c, s, p).seqNo == p + 1
  }

  ghost function Abstract(c: RingConfig, s: Ring): (q: Queue)
    requires Shape(c, s)
    ensures |q.ready| == |q.entries|
  {
    Queue(s.log, seq(|s.log|, p requires 0 <= p < |s.log| => IsReady(c, s, p)), Freed(s))
  }

  /** What an observer of calls, answers and publications sees of a step. */
  function Observe(c: RingConfig, s: Ring, step: Step): Event
    requires Shape(c, s) && Enabled(c, s, step)
  {
    if WinsCas(s, step) then Reserve(step.j, s.producers[step.j].data)
    else if step.Publish? then Ready(s.producers[step.j].pos)
    else if step.FreeSlot? then Take(s.consumer.out)
    else if SeesFull(c, s, step) then AnswerFull(step.j)
    else if SeesNone(c, s, step) then AnswerNone
    else Silent
  }

  lemma SameQueue(c: RingConfig, s: Ring, t: Ring)
    requires Shape(c, s) && Shape(c, t)
    requires s.log == t.log && Freed(s) == Freed(t)
    requires forall p: nat :: Freed(s) <= p < |s.log| ==> SlotAt(c, s, p).seqNo == SlotAt(c, t, p).seqNo
    ensures Abstract(c, s) == Abstract(c, t)
  {
    assert Abstract(c, s).ready == Abstract(c, t).ready;
  }

  lemma RefineReserve(c: RingConfig, s: Ring, j: nat)
    requires Sound(c) && Inv(c, s) && WinsCas(s, CasTail(j, false))
    ensures Next(c.numSlots, Abstract(c, s), Observe(c, s, CasTail(j, false)), Abstract(c, Do(c, s, CasTail(j, false))))
  {
    StaleCheckStillValid(c, s, CasTail(j, false));
    var t := Do(c, s, CasTail(j, false));
    assert Abstract(c, t).ready == Abstract(c, s).ready + [false];
  }

  lemma RefineReady(c: RingConfig, s: Ring, j: nat)
    requires Sound(c) && Inv(c, s) && Enabled(c, s, Publish(j))
    ensures Next(c.numSlots, Abstract(c, s), Observe(c, s, Publish(j)), Abstract(c, Do(c, s, Publish(j))))
  {
    assert ProducerInv(c, s, j);
    var pos := s.producers[j].pos;
    var t := Do(c, s, Publish(j));
    forall p: nat | Freed(s) <= p < |s.log| && p != pos
      ensures SlotAt(c, t, p) == SlotAt(c, s, p)
    {
      DistinctSlots(c, p, pos);
    }
    assert Abstract(c, t).ready == Abstract(c, s).ready[pos := true];
  }

  lemma RefineTake(c: RingConfig, s: Ring)
    requires Sound(c) && Inv(c, s) && Enabled(c, s, FreeSlot)
    ensures Next(c.numSlots, Abstract(c, s), Observe(c, s, FreeSlot), Abstract(c, Do(c, s, FreeSlot)))
  {
    var h := s.head;
    var t := Do(c, s, FreeSlot);
    forall p: nat | h < p < |s.log|
      ensures SlotAt(c, t, p) == SlotAt(c, s, p)
    {
      DistinctSlots(c, p, h);
    }
    assert Abstract(c, t).ready == Abstract(c, s).ready;
  }

  /** Each step of the ring is one event of the reservation queue. */
  lemma Refines(c: RingConfig, s: Ring, step: Step)
    requires Sound(c) && Inv(c, s) && Enabled(c, s, step)
    ensures Next(c.numSlots, Abstract(c, s), Observe(c, s, step), Abstract(c, Do(c, s, step)))
  {
    var t := Do(c, s, step);
    if WinsCas(s, step) {
      RefineReserve(c, s, step.j);
    } else if step.Publish? {
      RefineReady(c, s, step.j);
    } else if step.FreeSlot? {
      RefineTake(c, s);
    } else {
      if step.StoreLength? || step.CopyIn? {
        assert SlotAt(c, t, s.producers[step.j].pos).seqNo == SlotAt(c, s, s.producers[step.j].pos).seqNo;
      }
      SameQueue(c, s, t);
      if SeesFull(c, s, step) {
        SeqVerdict(c, s, step.j);
      } else if SeesNone(c, s, step) {
        assert SlotInv(c, s, s.head);
      }
    }
  }

  ghost function Trace(c: RingConfig, s: Ring, steps: seq<Step>, t: Ring): seq<Event>
    requires Shape(c, s) && Runs(c, s, steps, t)
    decreases |steps|
  {
    if steps == [] then []
    else [Observe(c, s, steps[0])] + Trace(c, Do(c, s, steps[0]), steps[1..], t)
  }

  lemma {:induction false} TraceAccepted(c: RingConfig, s: Ring, steps: seq<Step>, t: Ring)
    requires Sound(c) && Inv(c, s) && Runs(c, s, steps, t)
    ensures Shape(c, t)
    ensures Accepts(c.numSlots, Abstract(c, s), Trace(c, s, steps, t), Abstract(c, t))
    decreases |steps|
  {
    if steps != [] {
      var u := Do(c, s, steps[0]);
      Refines(c, s, steps[0]);
      StepInv(c, s, steps[0]);
      TraceAccepted(c, u, steps[1..], t);
      var trace := Trace(c, s, steps, t);
      assert trace[0] == Observe(c, s, steps[0]) && trace[1..] == Trace(c, u, steps[1..], t);
    }
  }

  // ----- What the specification promises -----

  function Reserved(trace: seq<Event>): seq<seq<byte>> {
    if trace == [] then []
    else (if trace[0].Reserve? then [trace[0].data] else []) + Reserved(trace[1..])
  }

  function Taken(trace: seq<Event>): seq<seq<byte>> {
    if trace == [] then []
    else (if trace[0].Take? then [trace[0].data] else []) + Taken(trace[1..])
  }

  lemma {:induction false} QueueIsFifo(n: nat, q: Queue, trace: seq<Event>, r: Queue)
    requires WellFormed(q) && Accepts(n, q, trace, r)
    ensures WellFormed(r)
    ensures Data(r.entries) == Data(q.entries) + Reserved(trace)
    ensures r.taken == q.taken + |Taken(trace)|
    ensures Taken(trace) == Data(r.entries)[q.taken..r.taken]
    decreases |trace|
  {
    if trace == [] {
    } else {
      var e := trace[0];
      var m :| Next(n, q, e, m) && Accepts(n, m, trace[1..], r);
      assert WellFormed(m);
      QueueIsFifo(n, m, trace[1..], r);
      hide Accepts;
      var d := if e.Reserve? then [e.data] else [];
      assert Data(m.entries) == Data(q.entries) + d;
      Regroup(Data(q.entries), d, Reserved(trace[1..]));
      if e.Take? {
        assert Data(r.entries)[q.taken] == Data(m.entries)[q.taken] == e.data;
        FirstAndRest(Data(r.entries), q.taken, r.taken);
      }
    }
  }

  lemma Regroup<T>(xs: seq<T>, ys: seq<T>, zs: seq<T>)
    ensures xs + (ys + zs) == (xs + ys) + zs
  {
  }

  lemma FirstAndRest<T>(xs: seq<T>, i: nat, j: nat)
    requires i < j <= |xs|
    ensures xs[i..j] == [xs[i]] + xs[i + 1..j]
  {
  }

  /** The observable statement: in every run of the ring from its initial state, the payloads
      delivered are a prefix of the payloads reserved, in reservation order. */
  lemma DeliveryIsPrefix(c: RingConfig, s: Ring, steps: seq<Step>, t: Ring)
    requires Sound(c) && Initial(c, s) && Runs(c, s, steps, t)
    ensures Taken(Trace(c, s, steps, t)) <= Reserved(Trace(c, s, steps, t))
    ensures |Reserved(Trace(c, s, steps, t))| <= |Taken(Trace(c, s, steps, t))| + c.numSlots
  {
    InitialInv(c, s);
    TraceAccepted(c, s, steps, t);
    RunInv(c, s, steps, t);
    var q, r := Abstract(c, s), Abstract(c, t);
    QueueIsFifo(c.numSlots, q, Trace(c, s, steps, t), r);
    assert Data(q.entries) == [];
  }
}
