/** `push`, access by access, over the bytes of the segment. */
module Push {
  import opened Words
  import opened Geometry
  import opened RingModel
  import opened RingInvariant
  import opened System
  import opened SystemInvariant
  import opened Memory
  import opened Rely
  import opened Segment

  /** Producer `j` is inside `push` and about to make the access `pc`. */
  ghost predicate At(s: System, j: nat, pc: PushPc) {
    && j < |s.producers| == |s.ring.producers|
    && s.producers[j].stage.Pushing? && s.ring.producers[j] == pc
  }

  /** Producer `j` has published position `p` and stands before its CAS on the state word. */
  ghost predicate PostingAt(s: System, j: nat, p: nat) {
    j < |s.producers| && s.producers[j].stage == Posting(p)
  }

  /** An access of producer `j` inside `push`: the other parties and the books are as they were. */
  ghost predicate SameOutside(s: System, t: System, j: nat) {
    && j < |s.producers| == |t.producers|
    && SameShared(s, t) && t.consumer == s.consumer && t.word == s.word
    && t.ring.tail >= s.ring.tail && t.ring.head == s.ring.head && s.ring.log <= t.ring.log
    && t.ring.consumer == s.ring.consumer && t.ring.popped == s.ring.popped
    && t.producers[j].event == s.producers[j].event && t.producers[j].wireBytes == s.producers[j].wireBytes
    && (forall i :: 0 <= i < |s.producers| && i != j ==> t.producers[i] == s.producers[i])
  }

  /** The message of producer `j` stands in history at `p` and is published whole. */
  ghost predicate PublishedBy(c: RingConfig, t: System, j: nat, data: seq<byte>, p: nat) {
    && PostingAt(t, j, p)
    && p < |t.ring.log| && t.ring.log[p] == Entry(j, data)
    && Shape(c, t.ring) && Published(c, t.ring, p)
  }

  // ----- Loads -----

  lemma LoadTailEffect(c: Setup, s: System, m: seq<byte>, j: nat, data: seq<byte>)
    requires SystemInv(c, s) && At(s, j, AtTail(data)) && Image(c.ring, m, s.ring, s.word)
    ensures CanAct(c, s, Access(LoadTail(j))) && |m| >= HDR
    ensures var t := Act(c, s, Access(LoadTail(j)));
            && SameShared(s, t) && SameOutside(s, t, j) && t.ring.tail == s.ring.tail && t.ring.log == s.ring.log
            && Image(c.ring, m, t.ring, t.word)
            && At(t, j, AtSeq(data, s.ring.tail))
    ensures Load(m, TAIL_OFFSET, 8) == Wrap64(s.ring.tail)
  {
    LoadHeader(c.ring, m, s.ring, s.word);
    SameImage(c.ring, m, s.ring, s.word, Act(c, s, Access(LoadTail(j))).ring);
    hide Image, SystemInv;
  }

  method LoadTailWord(seg: Segment, ghost j: nat, ghost data: seq<byte>) returns (pos: u64)
    requires seg.me == ProducerTask(j)
    requires seg.Valid() && At(seg.sys, j, AtTail(data))
    modifies seg`sys, seg`run
    ensures seg.Valid() && seg.Since(old(seg.run), 0) && SameOutside(old(seg.sys), seg.sys, j)
    ensures pos == Wrap64(seg.sys.ring.tail) && At(seg.sys, j, AtSeq(data, seg.sys.ring.tail))
    ensures seg.sys.ring.tail == old(seg.sys.ring.tail) && seg.sys.ring.log == old(seg.sys.ring.log)
  {
    hide Act, CanAct, Image, Begun, Executes, SystemInv, Starts, Wired, Sound, PopCount, Base, SameOutside, At, Recent,
         PublishedBy, HasReserved, ToLE, Store, SubI64;
    LoadTailEffect(seg.setup, seg.sys, seg.mem[..], j, data);
    pos := seg.LoadWord(TAIL_OFFSET);
    seg.ReadStep(Access(LoadTail(j)));
  }

  /** The wrapped signed difference decides as the unbounded counters would: free, full or overtaken. */
  lemma LoadSeqEffect(c: Setup, s: System, m: seq<byte>, j: nat, data: seq<byte>, p: nat)
    requires Sound(c.ring) && c.ring.Check() && SystemInv(c, s) && Image(c.ring, m, s.ring, s.word)
    requires At(s, j, AtSeq(data, p)) && Recent(c.ring, s.ring, j)
    ensures Base(c.ring, Index(c.ring, p)) + 8 <= |m|
    ensures CanAct(c, s, Access(LoadSeq(j)))
    ensures var t := Act(c, s, Access(LoadSeq(j)));
            var q := Load(m, Base(c.ring, Index(c.ring, p)), 8);
            && q < TWO64
            && SameShared(s, t) && SameOutside(s, t, j) && t.ring.tail == s.ring.tail && t.ring.log == s.ring.log
            && Image(c.ring, m, t.ring, t.word)
            && var diff := SubI64(q, Wrap64(p));
            && (diff == 0 ==> At(t, j, AtCas(data, p)))
            && (diff < 0 ==> ExactlyFull(c.ring, t, j) && p == t.ring.tail)
            && (diff > 0 ==> At(t, j, AtTail(data)) && p < t.ring.tail)
  {
    LoadSlot(c.ring, m, s.ring, s.word, Index(c.ring, p));
    WrappedPushChecks(c.ring, s.ring, j);
    SeqVerdict(c.ring, s.ring, j);
    SameImage(c.ring, m, s.ring, s.word, Act(c, s, Access(LoadSeq(j))).ring);
    hide Image, SystemInv, Inv, SubI64, Base;
  }

  method LoadSlotSeq(seg: Segment, ghost j: nat, ghost data: seq<byte>, ghost p: nat, s: nat, pos: u64)
    returns (diff: int)
    requires seg.me == ProducerTask(j)
    requires seg.Valid() && At(seg.sys, j, AtSeq(data, p)) && Recent(seg.cfg, seg.sys.ring, j)
    requires pos == Wrap64(p) && s == Base(seg.cfg, Index(seg.cfg, p)) && s % 8 == 0
    modifies seg`sys, seg`run
    ensures seg.Valid() && seg.Since(old(seg.run), 0) && SameOutside(old(seg.sys), seg.sys, j)
    ensures diff == 0 ==> At(seg.sys, j, AtCas(data, p))
    ensures diff < 0 ==> ExactlyFull(seg.cfg, seg.sys, j)
    ensures diff > 0 ==> At(seg.sys, j, AtTail(data)) && p < seg.sys.ring.tail
    ensures seg.sys.ring.tail == old(seg.sys.ring.tail) && seg.sys.ring.log == old(seg.sys.ring.log)
  {
    hide Act, CanAct, Image, Begun, Executes, SystemInv, Starts, Wired, Sound, PopCount, Base, SameOutside, At, Recent,
         PublishedBy, HasReserved, ToLE, Store, SubI64;
    LoadSeqEffect(seg.setup, seg.sys, seg.mem[..], j, data, p);
    var q := seg.LoadWord(s);
    diff := SubI64(q, pos);
    seg.ReadStep(Access(LoadSeq(j)));
  }

  /** `Full` at this very moment: numSlots positions are reserved and not freed. */
  ghost predicate ExactlyFull(c: RingConfig, t: System, j: nat) {
    t.ring.tail == Freed(t.ring) + c.numSlots && j < |t.producers| && t.producers[j].stage.Sleeping?
  }

  // ----- The CAS on tail -----

  lemma CasEffect(c: Setup, s: System, m: seq<byte>, j: nat, data: seq<byte>, p: nat, fluke: bool)
    requires Sound(c.ring) && c.ring.Check() && SystemInv(c, s) && Image(c.ring, m, s.ring, s.word)
    requires At(s, j, AtCas(data, p)) && Recent(c.ring, s.ring, j)
    ensures CanAct(c, s, Access(CasTail(j, fluke)))
    ensures |m| >= HDR
    ensures Load(m, TAIL_OFFSET, 8) == Wrap64(s.ring.tail)
    ensures var t := Act(c, s, Access(CasTail(j, fluke)));
            var won := !fluke && Wrap64(s.ring.tail) == Wrap64(p);
            && SameShared(s, t) && SameOutside(s, t, j)
            && (won ==> HasReserved(s, t, j, data, p) && t.ring.tail == p + 1 &&
                        Image(c.ring, Store(m, TAIL_OFFSET, ToLE((Wrap64(p) + 1) % TWO64, 8)), t.ring, t.word))
            && (!won ==> At(t, j, AtTail(data)) && t.ring.tail == s.ring.tail && Image(c.ring, m, t.ring, t.word))
            && (!won ==> fluke || p < t.ring.tail)
  {
    assert ProducerInv(c.ring, s.ring, j);
    WrappedPushChecks(c.ring, s.ring, j);
    LoadHeader(c.ring, m, s.ring, s.word);
    WrapSum(p, 1);
    var t := Act(c, s, Access(CasTail(j, fluke)));
    if !fluke && s.ring.tail == p {
      assert t.ring.slots == s.ring.slots && t.ring.head == s.ring.head && t.ring.tail == p + 1;
      StoreHeader(c.ring, m, s.ring, s.word, TAIL_OFFSET, Wrap64(p + 1), t.ring, t.word);
    } else {
      SameImage(c.ring, m, s.ring, s.word, t.ring);
    }
    hide Image, SystemInv;
  }

  /** Position `p`, not reserved in `s`, is reserved by producer `j` in `t`. */
  ghost predicate HasReserved(s: System, t: System, j: nat, data: seq<byte>, p: nat) {
    && |s.ring.log| <= p < |t.ring.log| && t.ring.log[p] == Entry(j, data)
    && At(t, j, AtLength(data, p))
  }

  /** `compare_exchange_weak` on `tail`; `fluke` is a failure without cause. */
  method CasTailWord(seg: Segment, ghost j: nat, ghost data: seq<byte>, ghost p: nat, pos: u64, fluke: bool)
    returns (ok: bool)
    requires seg.me == ProducerTask(j)
    requires seg.Valid() && At(seg.sys, j, AtCas(data, p)) && Recent(seg.cfg, seg.sys.ring, j)
    requires pos == Wrap64(p)
    modifies seg`sys, seg`run, seg.mem
    ensures seg.Valid() && seg.Since(old(seg.run), 0)
    ensures SameOutside(old(seg.sys), seg.sys, j)
    ensures ok ==> HasReserved(old(seg.sys), seg.sys, j, data, p)
    ensures ok ==> seg.mem[..] == Store(old(seg.mem[..]), TAIL_OFFSET, ToLE((pos + 1) % TWO64, 8))
    ensures !ok ==> At(seg.sys, j, AtTail(data)) && seg.mem[..] == old(seg.mem[..])
    ensures !ok ==> seg.sys.ring.tail == old(seg.sys.ring.tail) && (fluke || p < seg.sys.ring.tail)
  {
    hide Act, CanAct, Image, Begun, Executes, SystemInv, Starts, Wired, Sound, PopCount, Base, SameOutside, At, Recent,
         PublishedBy, HasReserved, ToLE, Store, SubI64;
    CasEffect(seg.setup, seg.sys, seg.mem[..], j, data, p, fluke);
    var current := seg.LoadWord(TAIL_OFFSET);
    ok := !fluke && current == pos;
    if ok {
      seg.StoreStep(Access(CasTail(j, fluke)), TAIL_OFFSET, ToLE((pos + 1) % TWO64, 8));
    } else {
      seg.ReadStep(Access(CasTail(j, fluke)));
    }
  }

  // ----- The writes to the slot -----

  lemma StoreLengthEffect(c: Setup, s: System, m: seq<byte>, j: nat, data: seq<byte>, p: nat)
    requires SystemInv(c, s) && At(s, j, AtLength(data, p)) && Image(c.ring, m, s.ring, s.word)
    ensures Base(c.ring, Index(c.ring, p)) + LEN_OFFSET + 4 <= |m|
    ensures CanAct(c, s, Access(StoreLength(j)))
    ensures var t := Act(c, s, Access(StoreLength(j)));
            && SameShared(s, t) && SameOutside(s, t, j) && At(t, j, AtBytes(data, p, 0))
            && Image(c.ring, Store(m, Base(c.ring, Index(c.ring, p)) + LEN_OFFSET, ToLE(Truncate32(|data|), 4)),
                     t.ring, t.word)
  {
    var i := Index(c.ring, p);
    StoreSlotLength(c.ring, m, s.ring, s.word, i, Truncate32(|data|));
    SameImage(c.ring, Store(m, Base(c.ring, i) + LEN_OFFSET, ToLE(Truncate32(|data|), 4)),
              s.ring.(slots := s.ring.slots[i := s.ring.slots[i].(len := Truncate32(|data|))]), s.word,
              Act(c, s, Access(StoreLength(j))).ring);
    hide Image, SystemInv, Base;
  }

  method StoreLengthField(seg: Segment, ghost j: nat, data: seq<byte>, ghost p: nat, s: nat)
    requires seg.me == ProducerTask(j)
    requires seg.Valid() && At(seg.sys, j, AtLength(data, p)) && s == Base(seg.cfg, Index(seg.cfg, p)) && s % 8 == 0
    modifies seg`sys, seg`run, seg.mem
    ensures seg.Valid() && seg.Since(old(seg.run), 0) && SameOutside(old(seg.sys), seg.sys, j)
    ensures At(seg.sys, j, AtBytes(data, p, 0))
    ensures s + LEN_OFFSET + 4 <= seg.mem.Length
    ensures seg.mem[..] == Store(old(seg.mem[..]), s + LEN_OFFSET, ToLE(Truncate32(|data|), 4))
  {
    hide Act, CanAct, Image, Begun, Executes, SystemInv, Starts, Wired, Sound, PopCount, Base, SameOutside, At, Recent,
         PublishedBy, HasReserved, ToLE, Store, SubI64;
    StoreLengthEffect(seg.setup, seg.sys, seg.mem[..], j, data, p);
    seg.StoreStep(Access(StoreLength(j)), s + LEN_OFFSET, ToLE(Truncate32(|data|), 4));
  }

  lemma CopyInEffect(c: Setup, s: System, m: seq<byte>, j: nat, data: seq<byte>, p: nat, k: nat)
    requires SystemInv(c, s) && At(s, j, AtBytes(data, p, k)) && k < |data| && Image(c.ring, m, s.ring, s.word)
    ensures Base(c.ring, Index(c.ring, p)) + SLOT_HDR + k < |m| && k < c.ring.PayloadCapacity()
    ensures CanAct(c, s, Access(CopyIn(j)))
    ensures var t := Act(c, s, Access(CopyIn(j)));
            && SameShared(s, t) && SameOutside(s, t, j) && At(t, j, AtBytes(data, p, k + 1))
            && Image(c.ring, Store(m, Base(c.ring, Index(c.ring, p)) + SLOT_HDR + k, [data[k]]), t.ring, t.word)
  {
    hide DoPop, Produce, Convey, Consume, SlotInv, ProducerOk, LinkOk, ConsumerInv;
    assert ProducerInv(c.ring, s.ring, j);
    var i := Index(c.ring, p);
    StoreSlotByte(c.ring, m, s.ring, s.word, i, k, data[k]);
    SameImage(c.ring, Store(m, Base(c.ring, i) + SLOT_HDR + k, [data[k]]),
              s.ring.(slots := s.ring.slots[i := s.ring.slots[i].(data := s.ring.slots[i].data[k := data[k]])]), s.word,
              Act(c, s, Access(CopyIn(j))).ring);
    hide Image, SystemInv, Inv, Base, DoPop, Produce, Convey, Consume, Store;
  }

  method CopyOneByte(seg: Segment, ghost j: nat, data: seq<byte>, ghost p: nat, s: nat, k: nat)
    requires seg.me == ProducerTask(j)
    requires seg.Valid() && At(seg.sys, j, AtBytes(data, p, k)) && s == Base(seg.cfg, Index(seg.cfg, p)) && s % 8 == 0
    requires k < |data|
    modifies seg`sys, seg`run, seg.mem
    ensures seg.Valid() && seg.Since(old(seg.run), 0) && SameOutside(old(seg.sys), seg.sys, j)
    ensures At(seg.sys, j, AtBytes(data, p, k + 1))
    ensures s + SLOT_HDR + k < seg.mem.Length && k < seg.cfg.PayloadCapacity()
    ensures seg.mem[..] == Store(old(seg.mem[..]), s + SLOT_HDR + k, [data[k]])
  {
    hide Act, CanAct, Image, Begun, Executes, SystemInv, Starts, Wired, Sound, PopCount, Base, SameOutside, At, Recent,
         PublishedBy, HasReserved, ToLE, Store, SubI64;
    CopyInEffect(seg.setup, seg.sys, seg.mem[..], j, data, p, k);
    seg.StoreStep(Access(CopyIn(j)), s + SLOT_HDR + k, [data[k]]);
  }

  lemma PublishEffect(c: Setup, s: System, m: seq<byte>, j: nat, data: seq<byte>, p: nat)
    requires Sound(c.ring) && SystemInv(c, s) && At(s, j, AtBytes(data, p, |data|)) && Image(c.ring, m, s.ring, s.word)
    ensures Base(c.ring, Index(c.ring, p)) + 8 <= |m|
    ensures CanAct(c, s, Access(Publish(j)))
    ensures var t := Act(c, s, Access(Publish(j)));
            && SameShared(s, t) && SameOutside(s, t, j) && PublishedBy(c.ring, t, j, data, p)
            && Image(c.ring, Store(m, Base(c.ring, Index(c.ring, p)), ToLE((Wrap64(p) + 1) % TWO64, 8)), t.ring, t.word)
  {
    hide DoPop, Produce, Convey, Consume, ProducerOk, LinkOk, ConsumerInv;
    assert ProducerInv(c.ring, s.ring, j);
    WrapSum(p, 1);
    var i := Index(c.ring, p);
    StoreSlotSeq(c.ring, m, s.ring, s.word, i, p + 1);
    SameImage(c.ring, Store(m, Base(c.ring, i), ToLE(Wrap64(p + 1), 8)),
              s.ring.(slots := s.ring.slots[i := s.ring.slots[i].(seqNo := p + 1)]), s.word,
              Act(c, s, Access(Publish(j))).ring);
    hide Image, SystemInv, Inv, Base, DoPop, Produce, Convey, Consume, ToLE, Store;
  }

  method PublishSlot(seg: Segment, ghost j: nat, ghost data: seq<byte>, ghost p: nat, s: nat, pos: u64)
    requires seg.me == ProducerTask(j)
    requires seg.Valid() && At(seg.sys, j, AtBytes(data, p, |data|))
    requires s == Base(seg.cfg, Index(seg.cfg, p)) && s % 8 == 0
    requires pos == Wrap64(p)
    modifies seg`sys, seg`run, seg.mem
    ensures seg.Valid() && seg.Since(old(seg.run), 0) && SameOutside(old(seg.sys), seg.sys, j)
    ensures PublishedBy(seg.cfg, seg.sys, j, data, p)
    ensures s + 8 <= seg.mem.Length
    ensures seg.mem[..] == Store(old(seg.mem[..]), s, ToLE((pos + 1) % TWO64, 8))
  {
    hide Act, CanAct, Image, Begun, Executes, SystemInv, Starts, Wired, Sound, PopCount, Base, SameOutside, At, Recent,
         PublishedBy, HasReserved, ToLE, Store, SubI64;
    PublishEffect(seg.setup, seg.sys, seg.mem[..], j, data, p);
    seg.StoreStep(Access(Publish(j)), s, ToLE((pos + 1) % TWO64, 8));
  }

  // ----- Runs of accesses -----

  /** Producer `j` has been let run on: its own counters are as they were, history has only grown. */
  ghost predicate Onward(s: System, t: System, j: nat) {
    && j < |s.producers| == |t.producers|
    && t.producers[j].event == s.producers[j].event && t.producers[j].wireBytes == s.producers[j].wireBytes
    && s.ring.log <= t.ring.log
  }

  /** The two writes between the CAS and the publishing store. */
  method FillSlot(seg: Segment, ghost j: nat, data: seq<byte>, ghost p: nat, s: nat)
    requires seg.me == ProducerTask(j)
    requires seg.Valid() && j < |seg.setup.work| && At(seg.sys, j, AtLength(data, p))
    requires s == Base(seg.cfg, Index(seg.cfg, p)) && s % 8 == 0
    modifies seg, seg.mem
    ensures seg.Valid() && seg.Since(old(seg.run), 0) && seg.turns >= old(seg.turns)
    ensures At(seg.sys, j, AtBytes(data, p, |data|)) && Onward(old(seg.sys), seg.sys, j)
  {
    hide SystemInv, Image, Begun, Executes, Starts;
    seg.YieldProducer(j);
    StoreLengthField(seg, j, data, p, s);
    for k := 0 to |data|
      invariant seg.Valid() && At(seg.sys, j, AtBytes(data, p, k))
      invariant seg.Since(old(seg.run), 0) && seg.turns >= old(seg.turns)
      invariant Onward(old(seg.sys), seg.sys, j)
    {
      seg.YieldProducer(j);
      CopyOneByte(seg, j, data, p, s, k);
    }
  }

  // ----- The whole call -----

  ghost predicate Untouched(s: System, t: System, j: nat) {
    t.ring == s.ring && t.word == s.word && j < |t.producers| && t.producers[j].stage.Rejected?
  }

  /** The test at the head of `push`. */
  lemma EnterEffect(c: Setup, s: System, m: seq<byte>, j: nat, data: seq<byte>)
    requires SystemInv(c, s) && Image(c.ring, m, s.ring, s.word) && Calling(c, s, j, data)
    ensures CanAct(c, s, EnterPush(j))
    ensures var t := Act(c, s, EnterPush(j));
            && SameShared(s, t) && Image(c.ring, m, t.ring, t.word) && Onward(s, t, j)
            && t.ring.log == s.ring.log
            && (if |data| > c.ring.MaxPayload() then Untouched(s, t, j) else At(t, j, AtTail(data)))
  {
    assert ProducerOk(c, s, j);
    SameImage(c.ring, m, s.ring, s.word, Act(c, s, EnterPush(j)).ring);
    hide Image, SystemInv;
  }

  /** Producer `j` is about to call `push` with its current event. */
  ghost predicate Calling(c: Setup, s: System, j: nat, data: seq<byte>) {
    && j < |c.work| == |s.producers|
    && var p := s.producers[j];
    (p.stage.Ready? || p.stage.Sleeping?) && p.event < |c.work[j]| && data == c.work[j][p.event]
  }

  /** The message of producer `j` stands in history at `p`, a position that was not reserved in `s`, and
      is published whole. */
  ghost predicate HasPushed(c: RingConfig, s: System, t: System, j: nat, data: seq<byte>, p: nat) {
    |s.ring.log| <= p && PublishedBy(c, t, j, data, p)
  }

  /** `push(base, cfg, data)` called by producer `j` for its current event, with every other party running
      between any two accesses. It returns, in a run in which the others reserve finitely many positions
      and the weak CAS fails finitely often without cause.
      Pushed: the message has been reserved at a position not reserved before the call, and is published
      whole. Full: at this moment numSlots positions are reserved and not freed. TooBig: not one byte has
      been touched and nobody else has run. */
  method Push(seg: Segment, j: nat, data: seq<byte>) returns (r: PushResult)
    requires seg.me == ProducerTask(j)
    requires seg.Valid() && Calling(seg.setup, seg.sys, j, data)
    modifies seg, seg.mem
    ensures seg.Valid() && seg.Since(old(seg.run), 1) && seg.turns >= old(seg.turns)
    ensures Onward(old(seg.sys), seg.sys, j)
    ensures r.TooBig? <==> |data| > seg.cfg.MaxPayload()
    ensures r.TooBig? ==> Untouched(old(seg.sys), seg.sys, j) && seg.mem[..] == old(seg.mem[..])
    ensures r.Full? ==> ExactlyFull(seg.cfg, seg.sys, j)
    ensures r.Pushed? ==> exists p: nat :: r.pos == Wrap64(p) && HasPushed(seg.cfg, old(seg.sys), seg.sys, j, data, p)
  {
    hide Act, CanAct, Image, SystemInv, Begun, Executes, Starts, Sound, PopCount;
    EnterEffect(seg.setup, seg.sys, seg.mem[..], j, data);
    seg.ReadStep(EnterPush(j));
    if |data| > seg.cfg.MaxPayload() {
      return TooBig;
    }
    var won, pos := Reserve(seg, j, data);
    if !won {
      return Full;
    }
    WritePublish(seg, old(seg.sys), j, data, pos);
    return Pushed(pos);
  }

  /** From the won CAS to the publishing store. */
  method WritePublish(seg: Segment, ghost start: System, j: nat, data: seq<byte>, pos: u64)
    requires seg.me == ProducerTask(j)
    requires seg.Valid() && j < |seg.setup.work|
    requires exists p: nat :: pos == Wrap64(p) && HasReserved(start, seg.sys, j, data, p)
    modifies seg, seg.mem
    ensures seg.Valid() && seg.Since(old(seg.run), 0) && seg.turns >= old(seg.turns)
    ensures Onward(old(seg.sys), seg.sys, j)
    ensures exists p: nat :: pos == Wrap64(p) && HasPushed(seg.cfg, start, seg.sys, j, data, p)
  {
    hide SystemInv, Image, Begun, Executes, Starts, Act, CanAct;
    ghost var p: nat :| pos == Wrap64(p) && HasReserved(start, seg.sys, j, data, p);
    var s := seg.SlotAddress(pos, p);
    FillSlot(seg, j, data, p, s);
    seg.YieldProducer(j);
    PublishSlot(seg, j, data, p, s, pos);
    assert HasPushed(seg.cfg, start, seg.sys, j, data, p);
  }

  /** The loop of `push`: until a position is won or the ring is full. */
  method Reserve(seg: Segment, j: nat, data: seq<byte>) returns (won: bool, pos: u64)
    requires seg.me == ProducerTask(j)
    requires seg.Valid() && j < |seg.setup.work| && At(seg.sys, j, AtTail(data))
    modifies seg, seg.mem
    ensures seg.Valid() && seg.Since(old(seg.run), 0) && seg.turns >= old(seg.turns)
    ensures Onward(old(seg.sys), seg.sys, j)
    ensures !won ==> ExactlyFull(seg.cfg, seg.sys, j)
    ensures won ==> exists p: nat :: pos == Wrap64(p) && HasReserved(old(seg.sys), seg.sys, j, data, p)
  {
    hide SystemInv, Image, Begun, Executes, Starts, Act, CanAct, Base;
    var full := false;
    won, pos := false, 0;
    while !won && !full
      invariant seg.Valid() && seg.Since(old(seg.run), 0) && seg.turns >= old(seg.turns)
      invariant Onward(old(seg.sys), seg.sys, j)
      invariant !won && !full ==> At(seg.sys, j, AtTail(data))
      invariant full ==> !won && ExactlyFull(seg.cfg, seg.sys, j)
      invariant won ==> exists p: nat :: pos == Wrap64(p) && HasReserved(old(seg.sys), seg.sys, j, data, p)
      decreases if won || full then 0 else 1, seg.budget, seg.flukes
    {
      won, full, pos := Attempt(seg, old(seg.sys), j, data);
    }
  }

  /** One iteration of that loop. When it has to be repeated, another producer has reserved a position
      or a fluke has been used up. */
  method Attempt(seg: Segment, ghost start: System, j: nat, data: seq<byte>) returns (won: bool, full: bool, pos: u64)
    requires seg.me == ProducerTask(j)
    requires seg.Valid() && j < |seg.setup.work| && At(seg.sys, j, AtTail(data)) && Onward(start, seg.sys, j)
    modifies seg, seg.mem
    ensures seg.Valid() && seg.Since(old(seg.run), 0) && seg.turns >= old(seg.turns)
    ensures Onward(start, seg.sys, j)
    ensures won ==> !full && exists p: nat :: pos == Wrap64(p) && HasReserved(start, seg.sys, j, data, p)
    ensures full ==> ExactlyFull(seg.cfg, seg.sys, j)
    ensures !won && !full ==>
              At(seg.sys, j, AtTail(data)) &&
              (seg.budget < old(seg.budget) || (seg.budget == old(seg.budget) && seg.flukes < old(seg.flukes)))
  {
    hide SystemInv, Image, Begun, Executes, Starts, Act, CanAct, Base;
    won, full := false, false;
    seg.YieldProducer(j);
    ghost var p := seg.sys.ring.tail;
    pos := LoadTailWord(seg, j, data);
    SlotCountBound(seg.cfg);
    seg.YieldProducer(j);
    var s := seg.SlotAddress(pos, p);
    var diff := LoadSlotSeq(seg, j, data, p, s, pos);
    if diff == 0 {
      seg.YieldProducer(j);
      var fluke := seg.Fluke();
      won := CasTailWord(seg, j, data, p, pos, fluke);
    } else if diff < 0 {
      full := true;
    }
  }
}
