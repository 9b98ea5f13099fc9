/** `try_pop`, access by access, over the bytes of the segment. */
module Pop {
  import opened Words
  import opened Geometry
  import opened RingModel
  import opened RingInvariant
  import opened System
  import opened SystemInvariant
  import opened Memory
  import opened Rely
  import opened Segment

  datatype Option<T> = None | Some(value: T)

  /** The consumer is inside `try_pop` and about to make the access `pc`. */
  ghost predicate AtPop(s: System, pc: PopPc) {
    (s.consumer.loop.Drain? || s.consumer.loop.Recheck?) && s.ring.consumer == pc
  }

  /** An access of the consumer inside `try_pop`: producers, lines and books are as they were. */
  ghost predicate PopFrameHolds(s: System, t: System) {
    && SameShared(s, t) && t.producers == s.producers && t.ring.producers == s.ring.producers
    && t.word == s.word && t.parks == s.parks
    && t.ring.log == s.ring.log && t.ring.tail == s.ring.tail
  }

  /** The consumer stays where it is in its loop, and has freed nothing. */
  ghost predicate SamePlace(s: System, t: System) {
    && t.consumer == s.consumer && t.ring.popped == s.ring.popped
    && t.ring.head == s.ring.head && Freed(t.ring) == Freed(s.ring)
  }

  /** Position `h` is the next one to deliver, and it is not published. */
  ghost predicate Unready(c: RingConfig, s: System, h: nat) {
    Freed(s.ring) == h && Shape(c, s.ring) && !Published(c, s.ring, h)
  }

  /** `try_pop` answered None: what the loop does next. */
  ghost predicate Answered(s: System, t: System) {
    && t.ring.consumer == NotPopping && t.ring.popped == s.ring.popped && Freed(t.ring) == Freed(s.ring)
    && t.consumer.drained == s.consumer.drained
    && t.consumer.loop == (if s.consumer.loop.Recheck? then Parked
                           else if s.consumer.drained == 0 then Parking else Top)
  }

  /** `try_pop` answered Some: the message is in the consumer's hands. */
  ghost predicate Got(s: System, t: System, out: seq<byte>) {
    && t.ring.consumer == NotPopping && t.ring.popped == s.ring.popped
    && Freed(t.ring) == Freed(s.ring)
    && (if s.consumer.loop.Recheck? then t.consumer == s.consumer.(loop := Rescued(out))
        else t.consumer == s.consumer.(loop := CountEvent(out, true), drained := Truncate32(s.consumer.drained + 1)))
  }

  // ----- Loads -----

  lemma LoadHeadEffect(c: Setup, s: System, m: seq<byte>)
    requires SystemInv(c, s) && AtPop(s, AtHead) && Image(c.ring, m, s.ring, s.word)
    ensures CanAct(c, s, Access(LoadHead)) && |m| >= HDR
    ensures Load(m, HEAD_OFFSET, 8) == Wrap64(s.ring.head)
    ensures var t := Act(c, s, Access(LoadHead));
            && PopFrameHolds(s, t) && SamePlace(s, t) && AtPop(t, AtHeadSeq(s.ring.head))
            && t.ring.head == s.ring.head == Freed(t.ring)
            && (Unready(c.ring, t, s.ring.head) ==> Unready(c.ring, s, s.ring.head))
            && Image(c.ring, m, t.ring, t.word)
  {
    LoadHeader(c.ring, m, s.ring, s.word);
    SameImage(c.ring, m, s.ring, s.word, Act(c, s, Access(LoadHead)).ring);
    hide Image, SystemInv, DoPush;
  }

  method LoadHeadWord(seg: Segment) returns (head: u64)
    requires seg.me == ConsumerThread
    requires seg.Valid() && AtPop(seg.sys, AtHead)
    modifies seg`sys, seg`run
    ensures seg.Valid() && seg.Since(old(seg.run), 0)
    ensures PopFrameHolds(old(seg.sys), seg.sys) && SamePlace(old(seg.sys), seg.sys)
    ensures head == Wrap64(seg.sys.ring.head) && AtPop(seg.sys, AtHeadSeq(seg.sys.ring.head))
    ensures Freed(seg.sys.ring) == seg.sys.ring.head
    ensures Unready(seg.cfg, seg.sys, seg.sys.ring.head) ==> Unready(seg.cfg, old(seg.sys), seg.sys.ring.head)
  {
    hide Act, CanAct, Image, Begun, Executes, SystemInv, Starts, Wired, Sound, PopCount, AtPop, SamePlace, Unready;
    LoadHeadEffect(seg.setup, seg.sys, seg.mem[..]);
    head := seg.LoadWord(HEAD_OFFSET);
    seg.ReadStep(Access(LoadHead));
  }

  /** The wrapped inequality `seq != head + 1` decides as the unbounded one: matched means published,
      not matched means not published. */
  lemma LoadHeadSeqEffect(c: Setup, s: System, m: seq<byte>, h: nat)
    requires Sound(c.ring) && SystemInv(c, s) && AtPop(s, AtHeadSeq(h)) && Image(c.ring, m, s.ring, s.word)
    ensures Base(c.ring, Index(c.ring, h)) + 8 <= |m|
    ensures CanAct(c, s, Access(LoadHeadSeq)) && h == Freed(s.ring)
    ensures var t := Act(c, s, Access(LoadHeadSeq));
            var q := Load(m, Base(c.ring, Index(c.ring, h)), 8);
            && q < TWO64 && PopFrameHolds(s, t) && Image(c.ring, m, t.ring, t.word)
            && (q == (Wrap64(h) + 1) % TWO64 ==> SamePlace(s, t) && AtPop(t, AtHeadLength(h)))
            && (q != (Wrap64(h) + 1) % TWO64 ==> Answered(s, t) && Unready(c.ring, s, h))
  {
    LoadSlot(c.ring, m, s.ring, s.word, Index(c.ring, h));
    WrappedPopCheck(c.ring, s.ring);
    WrapSum(h, 1);
    SameImage(c.ring, m, s.ring, s.word, Act(c, s, Access(LoadHeadSeq)).ring);
    hide Image, SystemInv, DoPush, Base;
  }

  method LoadHeadSlotSeq(seg: Segment, ghost h: nat, s: nat, head: u64) returns (matched: bool)
    requires seg.me == ConsumerThread
    requires seg.Valid() && AtPop(seg.sys, AtHeadSeq(h))
    requires head == Wrap64(h) && s == Base(seg.cfg, Index(seg.cfg, h)) && s % 8 == 0
    modifies seg`sys, seg`run
    ensures seg.Valid() && seg.Since(old(seg.run), 0) && PopFrameHolds(old(seg.sys), seg.sys)
    ensures matched ==> SamePlace(old(seg.sys), seg.sys) && AtPop(seg.sys, AtHeadLength(h))
    ensures !matched ==> Answered(old(seg.sys), seg.sys) && Unready(seg.cfg, old(seg.sys), h)
  {
    hide Act, CanAct, Image, Begun, Executes, SystemInv, Starts, Wired, PopCount, AtPop, SamePlace, Answered, Unready,
         Base;
    LoadHeadSeqEffect(seg.setup, seg.sys, seg.mem[..], h);
    var q := seg.LoadWord(s);
    matched := q == (head + 1) % TWO64;
    seg.ReadStep(Access(LoadHeadSeq));
  }

  lemma LoadLengthEffect(c: Setup, s: System, m: seq<byte>, h: nat)
    requires SystemInv(c, s) && AtPop(s, AtHeadLength(h)) && Image(c.ring, m, s.ring, s.word)
    ensures Base(c.ring, Index(c.ring, h)) + LEN_OFFSET + 4 <= |m|
    ensures CanAct(c, s, Access(LoadLength))
    ensures var t := Act(c, s, Access(LoadLength));
            && PopFrameHolds(s, t) && SamePlace(s, t) && Image(c.ring, m, t.ring, t.word)
            && AtPop(t, AtHeadBytes(h, Load(m, Base(c.ring, Index(c.ring, h)) + LEN_OFFSET, 4), []))
  {
    LoadSlot(c.ring, m, s.ring, s.word, Index(c.ring, h));
    SameImage(c.ring, m, s.ring, s.word, Act(c, s, Access(LoadLength)).ring);
    hide Image, SystemInv, DoPush, Base;
  }

  method LoadLengthField(seg: Segment, ghost h: nat, s: nat) returns (len: nat)
    requires seg.me == ConsumerThread
    requires seg.Valid() && AtPop(seg.sys, AtHeadLength(h)) && s == Base(seg.cfg, Index(seg.cfg, h)) && s % 8 == 0
    modifies seg`sys, seg`run
    ensures seg.Valid() && seg.Since(old(seg.run), 0)
    ensures PopFrameHolds(old(seg.sys), seg.sys) && SamePlace(old(seg.sys), seg.sys)
    ensures AtPop(seg.sys, AtHeadBytes(h, len, []))
  {
    hide Act, CanAct, Image, Begun, Executes, SystemInv, Starts, Wired, PopCount, AtPop, SamePlace, Base;
    LoadLengthEffect(seg.setup, seg.sys, seg.mem[..], h);
    len := seg.LoadLength(s + LEN_OFFSET);
    seg.ReadStep(Access(LoadLength));
  }

  lemma CopyOutEffect(c: Setup, s: System, m: seq<byte>, h: nat, len: nat, out: seq<byte>)
    requires Sound(c.ring) && SystemInv(c, s) && AtPop(s, AtHeadBytes(h, len, out)) && |out| < len
    requires Image(c.ring, m, s.ring, s.word)
    ensures Base(c.ring, Index(c.ring, h)) + SLOT_HDR + |out| < |m|
    ensures CanAct(c, s, Access(CopyOut))
    ensures var t := Act(c, s, Access(CopyOut));
            && PopFrameHolds(s, t) && SamePlace(s, t) && Image(c.ring, m, t.ring, t.word)
            && AtPop(t, AtHeadBytes(h, len, out + [m[Base(c.ring, Index(c.ring, h)) + SLOT_HDR + |out|]]))
  {
    assert SlotInv(c.ring, s.ring, h);
    LoadSlot(c.ring, m, s.ring, s.word, Index(c.ring, h));
    SameImage(c.ring, m, s.ring, s.word, Act(c, s, Access(CopyOut)).ring);
    hide Image, SystemInv, DoPush, Base;
  }

  method CopyByteOut(seg: Segment, ghost h: nat, s: nat, len: nat, out: seq<byte>) returns (more: seq<byte>)
    requires seg.me == ConsumerThread
    requires seg.Valid() && AtPop(seg.sys, AtHeadBytes(h, len, out)) && |out| < len
    requires s == Base(seg.cfg, Index(seg.cfg, h)) && s % 8 == 0
    modifies seg`sys, seg`run
    ensures seg.Valid() && seg.Since(old(seg.run), 0)
    ensures PopFrameHolds(old(seg.sys), seg.sys) && SamePlace(old(seg.sys), seg.sys)
    ensures AtPop(seg.sys, AtHeadBytes(h, len, more)) && |more| == |out| + 1
  {
    hide Act, CanAct, Image, Begun, Executes, SystemInv, Starts, Wired, PopCount, AtPop, SamePlace, Base;
    CopyOutEffect(seg.setup, seg.sys, seg.mem[..], h, len, out);
    more := out + [seg.mem[s + SLOT_HDR + |out|]];
    seg.ReadStep(Access(CopyOut));
  }

  // ----- The two stores -----

  /** After the freeing store the message counts as delivered. */
  ghost predicate HasFreed(s: System, t: System, h: nat, out: seq<byte>) {
    && t.consumer == s.consumer && t.ring.head == s.ring.head == h == Freed(s.ring)
    && Freed(t.ring) == h + 1 && t.ring.popped == s.ring.popped + [out]
    && h < |s.ring.log| && out == s.ring.log[h].data
  }

  lemma FreeFacts(c: Setup, s: System, h: nat, out: seq<byte>)
    requires Sound(c.ring) && SystemInv(c, s) && AtPop(s, AtHeadBytes(h, |out|, out))
    ensures CanAct(c, s, Access(FreeSlot))
    ensures var t := Act(c, s, Access(FreeSlot));
            && PopFrameHolds(s, t) && HasFreed(s, t, h, out) && AtPop(t, AtAdvance(h, out))
            && t.ring == SetSlot(c.ring, s.ring, h, SlotAt(c.ring, s.ring, h).(seqNo := h + c.ring.numSlots))
                         .(consumer := AtAdvance(h, out), popped := s.ring.popped + [out])
  {
    hide DoPush, ProducerInv, ProducerOk, LinkOk;
    assert SlotInv(c.ring, s.ring, h);
    assert s.ring.log[h].data[..|out|] == out;
    hide SystemInv, Inv;
  }

  /** The ring after the freeing store, whatever else the consumer notes. */
  lemma FreedImage(c: RingConfig, m: seq<byte>, r: Ring, word: u64, h: nat, pc: PopPc, popped: seq<seq<byte>>)
    requires Image(c, m, r, word)
    ensures Base(c, Index(c, h)) + 8 <= |m|
    ensures var t := SetSlot(c, r, h, SlotAt(c, r, h).(seqNo := h + c.numSlots)).(consumer := pc, popped := popped);
            Image(c, Store(m, Base(c, Index(c, h)), ToLE((Wrap64(h) + c.numSlots) % TWO64, 8)), t, word)
  {
    WrapSum(h, c.numSlots);
    var i := Index(c, h);
    var slot := r.slots[i].(seqNo := h + c.numSlots);
    StoreSlotSeq(c, m, r, word, i, h + c.numSlots);
    var bare := r.(slots := r.slots[i := slot]);
    var t := SetSlot(c, r, h, slot).(consumer := pc, popped := popped);
    hide Image, Base;
    SameImage(c, Store(m, Base(c, i), ToLE(Wrap64(h + c.numSlots), 8)), bare, word, t);
  }

  lemma FreeEffect(c: Setup, s: System, m: seq<byte>, h: nat, out: seq<byte>)
    requires Sound(c.ring) && SystemInv(c, s) && AtPop(s, AtHeadBytes(h, |out|, out))
    requires Image(c.ring, m, s.ring, s.word)
    ensures Base(c.ring, Index(c.ring, h)) + 8 <= |m|
    ensures CanAct(c, s, Access(FreeSlot))
    ensures var t := Act(c, s, Access(FreeSlot));
            && PopFrameHolds(s, t) && HasFreed(s, t, h, out) && AtPop(t, AtAdvance(h, out))
            && Image(c.ring, Store(m, Base(c.ring, Index(c.ring, h)), ToLE((Wrap64(h) + c.ring.numSlots) % TWO64, 8)),
                     t.ring, t.word)
  {
    FreedImage(c.ring, m, s.ring, s.word, h, AtAdvance(h, out), s.ring.popped + [out]);
    hide Act, CanAct, SystemInv, Image, Base, HasFreed, AtPop, ToLE, Store, Index;
    FreeFacts(c, s, h, out);
  }

  method FreeHeadSlot(seg: Segment, ghost h: nat, s: nat, head: u64, ghost out: seq<byte>)
    requires seg.me == ConsumerThread
    requires seg.Valid() && AtPop(seg.sys, AtHeadBytes(h, |out|, out))
    requires head == Wrap64(h) && s == Base(seg.cfg, Index(seg.cfg, h)) && s % 8 == 0
    modifies seg`sys, seg`run, seg.mem
    ensures seg.Valid() && seg.Since(old(seg.run), 0) && PopFrameHolds(old(seg.sys), seg.sys)
    ensures HasFreed(old(seg.sys), seg.sys, h, out) && AtPop(seg.sys, AtAdvance(h, out))
    ensures s + 8 <= seg.mem.Length
    ensures seg.mem[..] == Store(old(seg.mem[..]), s, ToLE((head + seg.cfg.numSlots) % TWO64, 8))
  {
    hide Act, CanAct, Image, Begun, Executes, SystemInv, Starts, Wired, PopCount, AtPop, HasFreed, Base, ToLE, Store;
    FreeEffect(seg.setup, seg.sys, seg.mem[..], h, out);
    seg.StoreStep(Access(FreeSlot), s, ToLE((head + seg.cfg.numSlots) % TWO64, 8));
  }

  lemma AdvanceEffect(c: Setup, s: System, m: seq<byte>, h: nat, out: seq<byte>)
    requires SystemInv(c, s) && AtPop(s, AtAdvance(h, out)) && Image(c.ring, m, s.ring, s.word)
    ensures CanAct(c, s, Access(AdvanceHead)) && |m| >= HDR
    ensures var t := Act(c, s, Access(AdvanceHead));
            && PopFrameHolds(s, t) && Got(s, t, out)
            && Image(c.ring, Store(m, HEAD_OFFSET, ToLE((Wrap64(h) + 1) % TWO64, 8)), t.ring, t.word)
  {
    WrapSum(h, 1);
    var t := Act(c, s, Access(AdvanceHead));
    StoreHeader(c.ring, m, s.ring, s.word, HEAD_OFFSET, Wrap64(h + 1), t.ring, t.word);
    hide Image, SystemInv, DoPush;
  }

  method AdvanceHeadWord(seg: Segment, ghost h: nat, head: u64, ghost out: seq<byte>)
    requires seg.me == ConsumerThread
    requires seg.Valid() && AtPop(seg.sys, AtAdvance(h, out)) && head == Wrap64(h)
    modifies seg`sys, seg`run, seg.mem
    ensures seg.Valid() && seg.Since(old(seg.run), 0) && PopFrameHolds(old(seg.sys), seg.sys)
    ensures Got(old(seg.sys), seg.sys, out) && seg.mem.Length >= HDR
    ensures seg.mem[..] == Store(old(seg.mem[..]), HEAD_OFFSET, ToLE((head + 1) % TWO64, 8))
  {
    hide Act, CanAct, Image, Begun, Executes, SystemInv, Starts, Wired, PopCount, AtPop, Got, ToLE, Store;
    AdvanceEffect(seg.setup, seg.sys, seg.mem[..], h, out);
    seg.StoreStep(Access(AdvanceHead), HEAD_OFFSET, ToLE((head + 1) % TWO64, 8));
  }

  // ----- The whole call -----

  /** What a stretch of the consumer's life leaves: producers may have moved on. */
  ghost predicate Later(s: System, t: System) {
    && s.ring.log <= t.ring.log && t.parks == s.parks
    && (s.word == RUNNING ==> t.word == RUNNING)
    && t.consumer.events == s.consumer.events && t.consumer.wireBytes == s.consumer.wireBytes
  }

  /** One message was taken out: the next one in reservation order, whole. */
  ghost predicate Popped(s: System, t: System, out: seq<byte>) {
    && t.ring.consumer == NotPopping
    && Freed(t.ring) == Freed(s.ring) + 1 && t.ring.popped == s.ring.popped + [out]
    && Freed(s.ring) < |t.ring.log| && out == t.ring.log[Freed(s.ring)].data
    && (if s.consumer.loop.Recheck? then t.consumer == s.consumer.(loop := Rescued(out))
        else t.consumer == s.consumer.(loop := CountEvent(out, true), drained := Truncate32(s.consumer.drained + 1)))
  }

  /** `try_pop(base, cfg, out)`, with the producers running between any two accesses. Some(h): the
      payload of the next reservation, whole, and nothing else was delivered. None: the position at the
      head was not published when its sequence number was read, hence not when the call began; nothing
      was delivered and the buffer is as it was. */
  method TryPop(seg: Segment, buf: seq<byte>) returns (r: Option<u64>, out: seq<byte>)
    requires seg.me == ConsumerThread
    requires seg.Valid() && AtPop(seg.sys, AtHead)
    modifies seg, seg.mem
    ensures seg.Valid() && seg.Since(old(seg.run), 0) && Later(old(seg.sys), seg.sys)
    ensures r.Some? ==> r.value == Wrap64(Freed(old(seg.sys.ring))) && Popped(old(seg.sys), seg.sys, out)
    ensures r.None? ==> Answered(old(seg.sys), seg.sys) && out == buf
    ensures r.None? ==> Unready(seg.cfg, old(seg.sys), Freed(old(seg.sys.ring)))
    ensures seg.sys.ring.tail + seg.budget == old(seg.sys.ring.tail + seg.budget)
  {
    hide Act, CanAct, Image, Begun, Executes, SystemInv, Starts, Sound, PopCount, Base, Unready;
    ghost var start := seg.sys;
    seg.YieldConsumer();
    ghost var yielded := seg.sys;
    var head := LoadHeadWord(seg);
    ghost var h := seg.sys.ring.head;
    ghost var loaded := seg.sys;
    seg.YieldConsumer();
    ghost var looked := seg.sys;
    var s := seg.SlotAddress(head, h);
    var matched := LoadHeadSlotSeq(seg, h, s, head);
    if matched {
      out := ReadOut(seg, h, s, head);
      r := Some(head);
    } else {
      UnreadyBefore(seg.setup, loaded, looked, h);
      UnreadyBefore(seg.setup, start, yielded, h);
      r, out := None, buf;
    }
  }

  /** What is not published now was not published earlier in the same call. */
  lemma UnreadyBefore(c: Setup, s: System, t: System, h: nat)
    requires SystemInv(c, s) && SystemInv(c, t) && ConsumerKeeps(c, s, t) && Unready(c.ring, t, h)
    ensures Unready(c.ring, s, h)
  {
    hide Published, Inv;
  }

  /** From the matched sequence number to the store of `head`. */
  method ReadOut(seg: Segment, ghost h: nat, s: nat, head: u64) returns (out: seq<byte>)
    requires seg.me == ConsumerThread
    requires seg.Valid() && AtPop(seg.sys, AtHeadLength(h)) && h == Freed(seg.sys.ring)
    requires head == Wrap64(h) && s == Base(seg.cfg, Index(seg.cfg, h)) && s % 8 == 0
    modifies seg, seg.mem
    ensures seg.Valid() && seg.Since(old(seg.run), 0) && Later(old(seg.sys), seg.sys)
    ensures Popped(old(seg.sys), seg.sys, out)
    ensures seg.sys.ring.tail + seg.budget == old(seg.sys.ring.tail + seg.budget)
  {
    hide Act, CanAct, Image, Begun, Executes, SystemInv, Starts, Sound, PopCount, Base;
    seg.YieldConsumer();
    var len := LoadLengthField(seg, h, s);
    out := [];
    while |out| < len
      invariant seg.Valid() && AtPop(seg.sys, AtHeadBytes(h, len, out)) && |out| <= len
      invariant seg.Since(old(seg.run), 0) && Later(old(seg.sys), seg.sys) && SamePlace(old(seg.sys), seg.sys)
      invariant seg.sys.ring.tail + seg.budget == old(seg.sys.ring.tail + seg.budget)
    {
      seg.YieldConsumer();
      out := CopyByteOut(seg, h, s, len, out);
    }
    seg.YieldConsumer();
    FreeHeadSlot(seg, h, s, head, out);
    seg.YieldConsumer();
    AdvanceHeadWord(seg, h, head, out);
  }
}
