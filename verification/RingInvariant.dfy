/** The global inductive invariant of the ring: what ties `tail`, `head`, every slot's sequence
    number, every producer's program counter and the history together. */
module RingInvariant {
  import opened Words
  import opened Geometry
  import opened RingModel

  /** The geometries on which the ring is sound (see `GeometryTheorem`): at least two slots,
      and every accepted payload length fits the 32-bit length field. */
  predicate Sound(c: RingConfig) {
    && c.Sized()
    && c.numSlots >= 2
    && c.MaxPayload() < TWO32
  }

  /** Position `p` of the current window is free (`seqNo == p`), or reserved by the producer the
      history names and still being written, or published (`seqNo == p + 1`) with that entry's payload. */
  ghost predicate SlotInv(c: RingConfig, s: Ring, p: nat)
    requires Shape(c, s)
  {
    var slot := SlotAt(c, s, p);
    if p < |s.log| then
      var e := s.log[p];
      && e.owner < |s.producers|
      && (slot.seqNo == p || slot.seqNo == p + 1)
      && (slot.seqNo == p ==> var pc := s.producers[e.owner]; pc.Writing() && pc.pos == p)
      && (slot.seqNo == p + 1 ==> slot.len == |e.data| <= c.MaxPayload() && slot.data[..|e.data|] == e.data)
    else
      slot.seqNo == p
  }

  ghost predicate ProducerInv(c: RingConfig, s: Ring, j: nat)
    requires Shape(c, s) && j < |s.producers|
  {
    var pc := s.producers[j];
    && (!pc.NotPushing? ==> |pc.data| <= c.MaxPayload())
    && (match pc
        case NotPushing => true
        case AtTail(_) => true
        case AtSeq(_, pos) => pos <= s.tail
        case AtCas(_, pos) => pos <= s.tail && pos < Freed(s) + c.numSlots
        case AtLength(data, pos) => Owns(c, s, j, data, pos)
        case AtBytes(data, pos, k) =>
          && Owns(c, s, j, data, pos)
          && k <= |data|
          && SlotAt(c, s, pos).len == |data|
          && SlotAt(c, s, pos).data[..k] == data[..k])
  }

  /** Producer `j` holds position `pos` of the window, unpublished. */
  ghost predicate Owns(c: RingConfig, s: Ring, j: nat, data: seq<byte>, pos: nat)
    requires Shape(c, s)
  {
    && Freed(s) <= pos < |s.log|
    && s.log[pos] == Entry(j, data)
    && SlotAt(c, s, pos).seqNo == pos
  }

  /** Position `p` is published and not yet taken out. */
  predicate Published(c: RingConfig, s: Ring, p: nat)
    requires Shape(c, s)
  {
    Freed(s) <= p < |s.log| && SlotAt(c, s, p).seqNo == p + 1
  }

  ghost predicate ConsumerInv(c: RingConfig, s: Ring)
    requires Shape(c, s)
  {
    match s.consumer
    case NotPopping => true
    case AtHead => true
    case AtHeadSeq(h) => h == s.head
    case AtHeadLength(h) => h == s.head && Published(c, s, h)
    case AtHeadBytes(h, len, out) =>
      && h == s.head && Published(c, s, h)
      && len == |s.log[h].data| && |out| <= len
      && out == s.log[h].data[..|out|]
    case AtAdvance(h, out) => h == s.head < |s.log| && out == s.log[h].data
  }

  /** The payloads delivered are those of the first `Freed(s)` reservations, in order. */
  ghost predicate Delivered(s: Ring) {
    && |s.popped| == Freed(s) <= |s.log|
    && forall i :: 0 <= i < |s.popped| ==> s.popped[i] == s.log[i].data
  }

  ghost predicate Inv(c: RingConfig, s: Ring) {
    && Shape(c, s)
    && s.tail == |s.log|
    && s.tail <= Freed(s) + c.numSlots
    && (forall p: nat :: Freed(s) <= p < Freed(s) + c.numSlots ==> SlotInv(c, s, p))
    && (forall j: nat :: j < |s.producers| ==> ProducerInv(c, s, j))
    && ConsumerInv(c, s)
    && Delivered(s)
  }

  // ----- Window arithmetic -----

  /** Two positions of one window of `numSlots` use different slots. */
  lemma DistinctSlots(c: RingConfig, p: nat, q: nat)
    requires c.Sized() && p != q && p < q + c.numSlots && q < p + c.numSlots
    ensures Index(c, p) != Index(c, q)
  {
    if p < q {
      DistinctRemainders(p, q, c.numSlots);
    } else {
      DistinctRemainders(q, p, c.numSlots);
    }
  }

  lemma NextLap(c: RingConfig, p: nat)
    requires c.Sized()
    ensures Index(c, p + c.numSlots) == Index(c, p)
  {
    SameRemainder(p, c.numSlots);
  }

  /** The position of the window [lo, lo + numSlots) that shares a slot with `p`. */
  lemma {:induction false} Representative(c: RingConfig, lo: nat, p: nat) returns (q: nat)
    requires c.Sized()
    ensures lo <= q < lo + c.numSlots && Index(c, q) == Index(c, p)
    ensures lo <= p < lo + c.numSlots ==> q == p
    ensures p < lo ==> q >= p + c.numSlots
    ensures p >= lo + c.numSlots ==> q + c.numSlots <= p
    decreases if p < lo then lo - p else p - lo
  {
    if p < lo {
      NextLap(c, p);
      if p + c.numSlots >= lo {
        q := p + c.numSlots;
      } else {
        q := Representative(c, lo, p + c.numSlots);
      }
    } else if p >= lo + c.numSlots {
      NextLap(c, p - c.numSlots);
      q := Representative(c, lo, p - c.numSlots);
    } else {
      q := p;
    }
  }

  // ----- What a producer reads -----

  /** The value `push` loads from its slot decides, at that very moment:
      equal: the position is free for it; less: the ring is exactly full and `tail` has not moved
      since it was loaded; greater: `tail` has moved on. */
  lemma SeqVerdict(c: RingConfig, s: Ring, j: nat)
    requires Sound(c) && Inv(c, s) && j < |s.producers| && s.producers[j].AtSeq?
    ensures var pos := s.producers[j].pos;
            var q := SlotAt(c, s, pos).seqNo;
            && (q == pos ==> pos < Freed(s) + c.numSlots)
            && (q < pos <==> pos == s.tail == Freed(s) + c.numSlots)
            && (q > pos ==> pos < s.tail)
            && pos <= q + c.numSlots && q < s.tail + c.numSlots
  {
    assert ProducerInv(c, s, j);
    var pos := s.producers[j].pos;
    var r := Representative(c, Freed(s), pos);
    assert SlotInv(c, s, r);
    if pos == Freed(s) + c.numSlots && r != Freed(s) {
      NextLap(c, Freed(s));
      DistinctSlots(c, r, Freed(s));
    }
  }

  /** A check made earlier is still good when the CAS succeeds: whatever happened in between,
      the slot is free for `pos` at that instant and no producer is writing to it. */
  lemma StaleCheckStillValid(c: RingConfig, s: Ring, step: Step)
    requires Sound(c) && Inv(c, s) && WinsCas(s, step)
    ensures var pos := s.producers[step.j].pos;
            && SlotAt(c, s, pos).seqNo == pos == s.tail < Freed(s) + c.numSlots
            && forall i: nat :: i < |s.producers| && s.producers[i].Writing() ==>
                 Index(c, s.producers[i].pos) != Index(c, pos)
  {
    var pos := s.producers[step.j].pos;
    assert ProducerInv(c, s, step.j);
    assert SlotInv(c, s, pos);
    forall i: nat | i < |s.producers| && s.producers[i].Writing()
      ensures Index(c, s.producers[i].pos) != Index(c, pos)
    {
      assert ProducerInv(c, s, i);
      DistinctSlots(c, s.producers[i].pos, pos);
    }
  }

  // ----- Preservation, step by step -----

  lemma InitialInv(c: RingConfig, s: Ring)
    requires Sound(c) && Initial(c, s)
    ensures Inv(c, s)
  {
    forall p: nat | Freed(s) <= p < Freed(s) + c.numSlots ensures SlotInv(c, s, p) {
      Remainder(p, c.numSlots, 0, p);
    }
  }

  /** Steps that leave slots, `tail`, history and consumer alone, and move one producer between
      program counters outside the write phase. */
  lemma LocalPushStep(c: RingConfig, s: Ring, j: nat, pc: PushPc)
    requires Sound(c) && Inv(c, s) && j < |s.producers|
    requires !s.producers[j].Writing() && !pc.Writing()
    requires ProducerInv(c, s.(producers := s.producers[j := pc]), j)
    ensures Inv(c, s.(producers := s.producers[j := pc]))
  {
    var t := s.(producers := s.producers[j := pc]);
    forall p: nat | Freed(t) <= p < Freed(t) + c.numSlots ensures SlotInv(c, t, p) {
      assert SlotInv(c, s, p);
    }
    forall i: nat | i < |t.producers| ensures ProducerInv(c, t, i) {
      assert ProducerInv(c, s, i);
    }
  }

  lemma LoadSeqInv(c: RingConfig, s: Ring, j: nat)
    requires Sound(c) && Inv(c, s) && Enabled(c, s, LoadSeq(j))
    ensures Inv(c, Do(c, s, LoadSeq(j)))
  {
    assert ProducerInv(c, s, j);
    SeqVerdict(c, s, j);
    var t := Do(c, s, LoadSeq(j));
    LocalPushStep(c, s, j, t.producers[j]);
  }

  lemma CasWonInv(c: RingConfig, s: Ring, j: nat)
    requires Sound(c) && Inv(c, s) && WinsCas(s, CasTail(j, false))
    ensures Inv(c, Do(c, s, CasTail(j, false)))
  {
    StaleCheckStillValid(c, s, CasTail(j, false));
    var t := Do(c, s, CasTail(j, false));
    forall p: nat | Freed(t) <= p < Freed(t) + c.numSlots ensures SlotInv(c, t, p) {
      assert SlotInv(c, s, p);
    }
    forall i: nat | i < |t.producers| ensures ProducerInv(c, t, i) {
      assert ProducerInv(c, s, i);
    }
  }

  /** A producer in the write phase changes its slot: no other position, */
  lemma WriteSlots(c: RingConfig, s: Ring, j: nat, slot: Slot, pc: PushPc, p: nat)
    requires Sound(c) && Inv(c, s) && j < |s.producers| && s.producers[j].Writing()
    requires |slot.data| == c.PayloadCapacity()
    requires Freed(s) <= p < Freed(s) + c.numSlots && p != s.producers[j].pos
    ensures SlotInv(c, SetPc(SetSlot(c, s, s.producers[j].pos, slot), j, pc), p)
  {
    assert ProducerInv(c, s, j);
    assert SlotInv(c, s, p);
    DistinctSlots(c, p, s.producers[j].pos);
  }

  /** no other producer */
  lemma WriteProducers(c: RingConfig, s: Ring, j: nat, slot: Slot, pc: PushPc, i: nat)
    requires Sound(c) && Inv(c, s) && j < |s.producers| && s.producers[j].Writing()
    requires |slot.data| == c.PayloadCapacity() && i < |s.producers| && i != j
    ensures ProducerInv(c, SetPc(SetSlot(c, s, s.producers[j].pos, slot), j, pc), i)
  {
    assert ProducerInv(c, s, j) && ProducerInv(c, s, i);
    if s.producers[i].Writing() {
      DistinctSlots(c, s.producers[i].pos, s.producers[j].pos);
    }
  }

  /** and not the consumer is looking there. */
  lemma WriteInv(c: RingConfig, s: Ring, j: nat, slot: Slot, pc: PushPc)
    requires Sound(c) && Inv(c, s) && j < |s.producers| && s.producers[j].Writing()
    requires |slot.data| == c.PayloadCapacity()
    requires var pos := s.producers[j].pos;
             var t := SetPc(SetSlot(c, s, pos, slot), j, pc);
             SlotInv(c, t, pos) && ProducerInv(c, t, j)
    ensures Inv(c, SetPc(SetSlot(c, s, s.producers[j].pos, slot), j, pc))
  {
    var pos := s.producers[j].pos;
    var t := SetPc(SetSlot(c, s, pos, slot), j, pc);
    assert ConsumerInv(c, t) by {
      assert ProducerInv(c, s, j);
      if s.consumer.AtHeadLength? || s.consumer.AtHeadBytes? {
        DistinctSlots(c, s.head, pos);
      }
    }
    hide ConsumerInv;
    forall p: nat | Freed(t) <= p < Freed(t) + c.numSlots ensures SlotInv(c, t, p) {
      if p != pos {
        WriteSlots(c, s, j, slot, pc, p);
      }
    }
    forall i: nat | i < |t.producers| ensures ProducerInv(c, t, i) {
      if i != j {
        WriteProducers(c, s, j, slot, pc, i);
      }
    }
  }

  lemma WriteStepInv(c: RingConfig, s: Ring, step: Step)
    requires Sound(c) && Inv(c, s) && Enabled(c, s, step)
    requires step.StoreLength? || step.CopyIn? || step.Publish?
    ensures Inv(c, Do(c, s, step))
  {
    var j := step.j;
    var pc := s.producers[j];
    assert ProducerInv(c, s, j);
    assert SlotInv(c, s, pc.pos);
    var t := Do(c, s, step);
    var slot := SlotAt(c, t, pc.pos);
    assert t == SetPc(SetSlot(c, s, pc.pos, slot), j, t.producers[j]);
    WriteInv(c, s, j, slot, t.producers[j]);
  }

  lemma ConsumerStepInv(c: RingConfig, s: Ring, step: Step)
    requires Sound(c) && Inv(c, s) && Enabled(c, s, step)
    requires !IsPushStep(step) && !step.FreeSlot?
    ensures Inv(c, Do(c, s, step))
  {
    var t := Do(c, s, step);
    PopFrame(c, s, step);
    assert ConsumerInv(c, t) && Delivered(t) && Freed(t) == Freed(s) by {
      assert SlotInv(c, s, Freed(s));
      hide ProducerInv, DoPush;
    }
    hide Do;
    forall p: nat | Freed(t) <= p < Freed(t) + c.numSlots ensures SlotInv(c, t, p) {
      assert SlotInv(c, s, p);
    }
    forall i: nat | i < |t.producers| ensures ProducerInv(c, t, i) {
      assert ProducerInv(c, s, i);
    }
  }

  lemma FreeSlotInv(c: RingConfig, s: Ring)
    requires Sound(c) && Inv(c, s) && Enabled(c, s, FreeSlot)
    ensures Inv(c, Do(c, s, FreeSlot))
  {
    var t := Do(c, s, FreeSlot);
    var h := s.head;
    assert SlotInv(c, s, h);
    forall p: nat | Freed(t) <= p < Freed(t) + c.numSlots ensures SlotInv(c, t, p) {
      if p == h + c.numSlots {
        NextLap(c, h);
      } else {
        assert SlotInv(c, s, p);
        DistinctSlots(c, p, h);
      }
    }
    forall i: nat | i < |t.producers| ensures ProducerInv(c, t, i) {
      assert ProducerInv(c, s, i);
      if s.producers[i].Writing() {
        DistinctSlots(c, s.producers[i].pos, h);
      }
    }
  }

  /** Every step of every participant keeps the invariant. */
  lemma StepInv(c: RingConfig, s: Ring, step: Step)
    requires Sound(c) && Inv(c, s) && Enabled(c, s, step)
    ensures Inv(c, Do(c, s, step))
  {
    if IsPushStep(step) {
      assert ProducerInv(c, s, step.j);
      var t := Do(c, s, step);
      if step.LoadSeq? {
        LoadSeqInv(c, s, step.j);
      } else if WinsCas(s, step) {
        CasWonInv(c, s, step.j);
      } else if step.CallPush? || step.LoadTail? || step.CasTail? {
        LocalPushStep(c, s, step.j, t.producers[step.j]);
      } else {
        WriteStepInv(c, s, step);
      }
    } else if step.FreeSlot? {
      FreeSlotInv(c, s);
    } else {
      ConsumerStepInv(c, s, step);
    }
  }

  /** A published message stays published until the consumer frees its slot. */
  lemma PublishedPersists(c: RingConfig, s: Ring, step: Step, p: nat)
    requires Sound(c) && Inv(c, s) && Enabled(c, s, step) && Published(c, s, p)
    requires !step.FreeSlot?
    ensures Published(c, Do(c, s, step), p) && Freed(Do(c, s, step)) == Freed(s)
  {
    if step.StoreLength? || step.CopyIn? || step.Publish? {
      assert ProducerInv(c, s, step.j);
      DistinctSlots(c, s.producers[step.j].pos, p);
    }
  }

  /** Only the owner's publishing store publishes a position. */
  lemma NewlyPublished(c: RingConfig, s: Ring, step: Step, p: nat)
    requires Sound(c) && Inv(c, s) && Enabled(c, s, step) && IsPushStep(step)
    requires Published(c, Do(c, s, step), p)
    ensures Freed(Do(c, s, step)) == Freed(s)
    ensures Published(c, s, p) ||
            (step.Publish? && s.producers[step.j].pos == p < |s.log| && s.log[p].owner == step.j)
  {
    PushFrame(c, s, step);
    assert ProducerInv(c, s, step.j);
    if step.Publish? && s.producers[step.j].pos != p {
      DistinctSlots(c, s.producers[step.j].pos, p);
    }
    if p < Freed(s) + c.numSlots {
      assert SlotInv(c, s, p);
    }
  }

  lemma {:induction false} RunInv(c: RingConfig, s: Ring, steps: seq<Step>, t: Ring)
    requires Sound(c) && Inv(c, s) && Runs(c, s, steps, t)
    ensures Inv(c, t)
    decreases |steps|
  {
    if steps != [] {
      StepInv(c, s, steps[0]);
      RunInv(c, Do(c, s, steps[0]), steps[1..], t);
    }
  }

  /** The invariant holds in every reachable state, for every sound geometry, any number of
      producers, any payloads and any interleaving. */
  lemma ReachableInv(c: RingConfig, t: Ring)
    requires Sound(c) && Reachable(c, t)
    ensures Inv(c, t)
  {
    var s, steps :| Initial(c, s) && Runs(c, s, steps, t);
    InitialInv(c, s);
    RunInv(c, s, steps, t);
  }
}
