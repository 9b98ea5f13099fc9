/** Schedules: joining runs, and what one participant running alone does. */
module RingRuns {
  import opened Words
  import opened Geometry
  import opened RingModel

  lemma {:induction false} Concat(c: RingConfig, s: Ring, xs: seq<Step>, t: Ring, ys: seq<Step>, u: Ring)
    requires Shape(c, s) && Runs(c, s, xs, t) && Shape(c, t) && Runs(c, t, ys, u)
    ensures Runs(c, s, xs + ys, u)
    decreases |xs|
  {
    if xs == [] {
      assert xs + ys == ys;
    } else {
      Concat(c, Do(c, s, xs[0]), xs[1..], t, ys, u);
      assert (xs + ys)[1..] == xs[1..] + ys;
    }
  }

  lemma Prepend(c: RingConfig, s: Ring, step: Step, xs: seq<Step>, t: Ring)
    requires Shape(c, s) && Enabled(c, s, step) && Runs(c, Do(c, s, step), xs, t)
    ensures Runs(c, s, [step] + xs, t)
  {
    assert ([step] + xs)[1..] == xs;
  }

  lemma Extend(c: RingConfig, s: Ring, xs: seq<Step>, t: Ring, step: Step)
    requires Shape(c, s) && Runs(c, s, xs, t) && Shape(c, t) && Enabled(c, t, step)
    ensures Runs(c, s, xs + [step], Do(c, t, step))
  {
    Prepend(c, t, step, [], Do(c, t, step));
    Concat(c, s, xs, t, [step], Do(c, t, step));
  }

  /** The slot with a whole payload written over the front of its payload area. */
  function WithPrefix(slot: Slot, data: seq<byte>): Slot
    requires |data| <= |slot.data|
  {
    slot.(data := data + slot.data[|data|..])
  }

  /** A producer in the copy loop, running alone, completes its message and publishes it. */
  lemma {:induction false} SoloCopy(c: RingConfig, s: Ring, j: nat) returns (xs: seq<Step>, t: Ring)
    requires Shape(c, s) && j < |s.producers| && s.producers[j].AtBytes?
    requires var pc := s.producers[j];
             && pc.copied <= |pc.data| <= c.PayloadCapacity()
             && SlotAt(c, s, pc.pos).data[..pc.copied] == pc.data[..pc.copied]
    ensures Runs(c, s, xs, t)
    ensures forall i :: 0 <= i < |xs| ==> ByProducer(xs[i], j) && (xs[i].CopyIn? || xs[i].Publish?)
    ensures var pc := s.producers[j];
            var slot := SlotAt(c, s, pc.pos).(seqNo := pc.pos + 1);
            t == SetPc(SetSlot(c, s, pc.pos, WithPrefix(slot, pc.data)), j, NotPushing)
    decreases |s.producers[j].data| - s.producers[j].copied
  {
    var pc := s.producers[j];
    var slot := SlotAt(c, s, pc.pos);
    if pc.copied == |pc.data| {
      xs := [Publish(j)];
      t := Do(c, s, Publish(j));
      assert xs[1..] == [];
      assert pc.data + slot.data[|pc.data|..] == slot.data by {
        assert pc.data == pc.data[..|pc.data|];
      }
      assert Runs(c, t, [], t);
    } else {
      var k := pc.copied;
      var u := Do(c, s, CopyIn(j));
      var slot' := SlotAt(c, u, pc.pos);
      assert slot'.data[..k + 1] == slot.data[..k] + [pc.data[k]] == pc.data[..k + 1];
      var ys;
      ys, t := SoloCopy(c, u, j);
      xs := [CopyIn(j)] + ys;
      assert xs[1..] == ys;
      assert slot'.data[|pc.data|..] == slot.data[|pc.data|..];
      assert t == SetPc(SetSlot(c, s, pc.pos, WithPrefix(slot.(seqNo := pc.pos + 1), pc.data)), j, NotPushing);
    }
  }

  /** The sequential effect of `push` on a free slot. */
  function AfterPush(c: RingConfig, s: Ring, j: nat, data: seq<byte>): Ring
    requires Shape(c, s) && |data| <= c.MaxPayload()
  {
    var slot := Slot(s.tail + 1, Truncate32(|data|), data + SlotAt(c, s, s.tail).data[|data|..]);
    SetSlot(c, s, s.tail, slot).(tail := s.tail + 1, log := s.log + [Entry(j, data)])
  }

  lemma SoloPush(c: RingConfig, s: Ring, j: nat, data: seq<byte>) returns (xs: seq<Step>)
    requires Shape(c, s) && j < |s.producers| && s.producers[j].NotPushing?
    requires |data| <= c.MaxPayload()
    requires SlotAt(c, s, s.tail).seqNo == s.tail
    ensures Runs(c, s, xs, AfterPush(c, s, j, data))
    ensures forall i :: 0 <= i < |xs| ==> ByProducer(xs[i], j)
  {
    var s1 := Do(c, s, CallPush(j, data));
    var s2 := Do(c, s1, LoadTail(j));
    var s3 := Do(c, s2, LoadSeq(j));
    var ys, t := SoloReserve(c, s3, j);
    assert t == AfterPush(c, s, j, data) by {
      assert t.producers == s.producers;
    }
    Prepend(c, s2, LoadSeq(j), ys, t);
    Prepend(c, s1, LoadTail(j), [LoadSeq(j)] + ys, t);
    xs := [LoadTail(j)] + ([LoadSeq(j)] + ys);
    Prepend(c, s, CallPush(j, data), xs, t);
    xs := [CallPush(j, data)] + xs;
  }

  lemma SoloReserve(c: RingConfig, s: Ring, j: nat) returns (xs: seq<Step>, t: Ring)
    requires Shape(c, s) && j < |s.producers|
    requires var pc := s.producers[j];
             pc.AtCas? && pc.pos == s.tail && |pc.data| <= c.MaxPayload()
    ensures Runs(c, s, xs, t)
    ensures forall i :: 0 <= i < |xs| ==> ByProducer(xs[i], j)
    ensures t == SetPc(AfterPush(c, s, j, s.producers[j].data), j, NotPushing)
  {
    var u := Do(c, s, CasTail(j, false));
    xs, t := SoloWrite(c, u, j);
    assert t.producers == SetPc(s, j, NotPushing).producers;
    Prepend(c, s, CasTail(j, false), xs, t);
    xs := [CasTail(j, false)] + xs;
  }

  /** A producer that has won its position, running alone, writes and publishes its message. */
  lemma SoloWrite(c: RingConfig, s: Ring, j: nat) returns (xs: seq<Step>, t: Ring)
    requires Shape(c, s) && j < |s.producers| && s.producers[j].AtLength?
    requires |s.producers[j].data| <= c.MaxPayload()
    ensures Runs(c, s, xs, t)
    ensures forall i :: 0 <= i < |xs| ==> ByProducer(xs[i], j)
    ensures var pc := s.producers[j];
            var slot := Slot(pc.pos + 1, Truncate32(|pc.data|), pc.data + SlotAt(c, s, pc.pos).data[|pc.data|..]);
            t == SetPc(SetSlot(c, s, pc.pos, slot), j, NotPushing)
  {
    var u := Do(c, s, StoreLength(j));
    xs, t := SoloCopy(c, u, j);
    Prepend(c, s, StoreLength(j), xs, t);
    xs := [StoreLength(j)] + xs;
  }

  /** The consumer in its copy loop, running alone, takes the message out and frees the slot. */
  lemma {:induction false} SoloTake(c: RingConfig, s: Ring) returns (xs: seq<Step>, t: Ring)
    requires Shape(c, s) && s.consumer.AtHeadBytes?
    requires var pc := s.consumer;
             && |pc.out| <= pc.len <= c.PayloadCapacity()
             && pc.out == SlotAt(c, s, pc.head).data[..|pc.out|]
    ensures Runs(c, s, xs, t)
    ensures forall i :: 0 <= i < |xs| ==> xs[i].CopyOut? || xs[i].FreeSlot?
    ensures var pc := s.consumer;
            var slot := SlotAt(c, s, pc.head);
            var out := slot.data[..pc.len];
            t == SetSlot(c, s, pc.head, slot.(seqNo := pc.head + c.numSlots))
                 .(consumer := AtAdvance(pc.head, out), popped := s.popped + [out])
    decreases s.consumer.len - |s.consumer.out|
  {
    var pc := s.consumer;
    if |pc.out| == pc.len {
      xs := [FreeSlot];
      t := Do(c, s, FreeSlot);
      assert xs[1..] == [] && Runs(c, t, [], t);
    } else {
      var u := Do(c, s, CopyOut);
      var ys;
      ys, t := SoloTake(c, u);
      xs := [CopyOut] + ys;
      assert xs[1..] == ys;
    }
  }

  /** The sequential effect of `try_pop` on a published head. */
  function AfterPop(c: RingConfig, s: Ring): Ring
    requires Shape(c, s) && SlotAt(c, s, s.head).len <= c.PayloadCapacity()
  {
    var slot := SlotAt(c, s, s.head);
    SetSlot(c, s, s.head, slot.(seqNo := s.head + c.numSlots))
      .(head := s.head + 1, popped := s.popped + [slot.data[..slot.len]])
  }

  lemma SoloPop(c: RingConfig, s: Ring) returns (xs: seq<Step>)
    requires Shape(c, s) && s.consumer.NotPopping?
    requires SlotAt(c, s, s.head).seqNo == s.head + 1
    requires SlotAt(c, s, s.head).len <= c.PayloadCapacity()
    ensures Runs(c, s, xs, AfterPop(c, s))
    ensures forall i :: 0 <= i < |xs| ==> !IsPushStep(xs[i])
  {
    var s1 := Do(c, s, CallPop);
    var s2 := Do(c, s1, LoadHead);
    var s3 := Do(c, s2, LoadHeadSeq);
    var t;
    xs, t := SoloConsume(c, s3);
    assert t == AfterPop(c, s);
    Prepend(c, s2, LoadHeadSeq, xs, t);
    xs := [LoadHeadSeq] + xs;
    Prepend(c, s1, LoadHead, xs, t);
    xs := [LoadHead] + xs;
    Prepend(c, s, CallPop, xs, t);
    xs := [CallPop] + xs;
  }

  lemma SoloConsume(c: RingConfig, s: Ring) returns (xs: seq<Step>, t: Ring)
    requires Shape(c, s) && s.consumer == AtHeadLength(s.head)
    requires SlotAt(c, s, s.head).len <= c.PayloadCapacity()
    ensures Runs(c, s, xs, t)
    ensures forall i :: 0 <= i < |xs| ==> !IsPushStep(xs[i])
    ensures t == AfterPop(c, s).(consumer := NotPopping)
  {
    var s1 := Do(c, s, LoadLength);
    var s2;
    xs, s2 := SoloTake(c, s1);
    t := Do(c, s2, AdvanceHead);
    JoinConsume(c, s, xs, s2);
    xs := [LoadLength] + (xs + [AdvanceHead]);
  }

  lemma JoinConsume(c: RingConfig, s: Ring, xs: seq<Step>, u: Ring)
    requires Shape(c, s) && Enabled(c, s, LoadLength) && Runs(c, Do(c, s, LoadLength), xs, u)
    requires Shape(c, u) && Enabled(c, u, AdvanceHead)
    ensures Runs(c, s, [LoadLength] + (xs + [AdvanceHead]), Do(c, u, AdvanceHead))
  {
    hide Runs, Enabled;
    Extend(c, Do(c, s, LoadLength), xs, u, AdvanceHead);
    Prepend(c, s, LoadLength, xs + [AdvanceHead], Do(c, u, AdvanceHead));
  }
}
