/** Which of the geometries that `check` accepts are safe to run, exactly; and two situations that
    look wrong from outside and are reachable on every safe geometry. */
module GeometryTheorem {
  import opened Words
  import opened Geometry
  import opened RingModel
  import opened RingInvariant
  import opened RingRuns

  /** In every reachable state, what was taken out is a prefix of what was reserved. */
  ghost predicate Delivers(c: RingConfig) {
    forall t :: Reachable(c, t) ==> Delivered(t)
  }

  /** The segment holds every slot, and different slots lie apart. */
  ghost predicate Addressable(c: RingConfig)
    requires c.Sized()
  {
    && (forall i: nat :: i < c.numSlots ==> HoldsSlot(c, i))
    && forall i: nat, j: nat :: i < j < c.numSlots ==> Apart(c, i, j)
  }

  predicate Apart(c: RingConfig, i: nat, j: nat)
    requires c.Sized()
  {
    c.SlotOffset(i) + c.slotSize <= c.SlotOffset(j) || c.SlotOffset(j) + c.slotSize <= c.SlotOffset(i)
  }

  /** Every access to a sequence number is one step: the word does not straddle what the machine reads and
      writes at once. */
  ghost predicate Atomic(c: RingConfig)
    requires c.Sized()
  {
    forall i: nat :: i < c.numSlots ==> AlignedSlot(c, i)
  }

  ghost predicate Faithful(c: RingConfig) {
    c.Sized() && Addressable(c) && Atomic(c) && Delivers(c)
  }

  function Start(c: RingConfig, producers: nat): (s: Ring)
    requires c.Sized()
    ensures Initial(c, s) && |s.producers| == producers
  {
    var blank := seq(c.PayloadCapacity(), _ => 0);
    Ring(0, 0, seq(c.numSlots, i requires i >= 0 => Slot(i, 0, blank)),
         seq(producers, _ => NotPushing), NotPopping, [], [])
  }

  lemma ReachStep(c: RingConfig, t: Ring, step: Step)
    requires Shape(c, t) && Reachable(c, t) && Enabled(c, t, step)
    ensures Reachable(c, Do(c, t, step))
  {
    var s, xs :| Initial(c, s) && Runs(c, s, xs, t);
    Extend(c, s, xs, t, step);
  }

  lemma ReachRun(c: RingConfig, t: Ring, ys: seq<Step>, u: Ring)
    requires Shape(c, t) && Reachable(c, t) && Runs(c, t, ys, u)
    ensures Reachable(c, u)
  {
    var s, xs :| Initial(c, s) && Runs(c, s, xs, t);
    Concat(c, s, xs, t, ys, u);
  }

  /** Producer `j`, alone, loads `tail` and finds its slot free. */
  lemma CheckOnly(c: RingConfig, s: Ring, j: nat, data: seq<byte>) returns (t: Ring)
    requires Shape(c, s) && Reachable(c, s) && j < |s.producers| && s.producers[j].NotPushing?
    requires |data| <= c.MaxPayload() && SlotAt(c, s, s.tail).seqNo == s.tail
    ensures Shape(c, t) && Reachable(c, t) && t == SetPc(s, j, AtCas(data, s.tail))
  {
    var t1 := Do(c, s, CallPush(j, data));
    ReachStep(c, s, CallPush(j, data));
    var t2 := Do(c, t1, LoadTail(j));
    ReachStep(c, t1, LoadTail(j));
    t := Do(c, t2, LoadSeq(j));
    ReachStep(c, t2, LoadSeq(j));
  }

  /** Producer `j`, alone, reserves the next position and stops there. */
  lemma ReserveOnly(c: RingConfig, s: Ring, j: nat, data: seq<byte>) returns (t: Ring)
    requires Shape(c, s) && Reachable(c, s) && j < |s.producers| && s.producers[j].NotPushing?
    requires |data| <= c.MaxPayload() && SlotAt(c, s, s.tail).seqNo == s.tail
    ensures Shape(c, t) && Reachable(c, t)
    ensures t == SetPc(s, j, AtLength(data, s.tail)).(tail := s.tail + 1, log := s.log + [Entry(j, data)])
  {
    var u := CheckOnly(c, s, j, data);
    t := Do(c, u, CasTail(j, false));
    ReachStep(c, u, CasTail(j, false));
  }

  lemma PushWhole(c: RingConfig, s: Ring, j: nat, data: seq<byte>) returns (t: Ring)
    requires Shape(c, s) && Reachable(c, s) && j < |s.producers| && s.producers[j].NotPushing?
    requires |data| <= c.MaxPayload() && SlotAt(c, s, s.tail).seqNo == s.tail
    ensures Shape(c, t) && Reachable(c, t) && t == AfterPush(c, s, j, data)
  {
    var xs := SoloPush(c, s, j, data);
    t := AfterPush(c, s, j, data);
    ReachRun(c, s, xs, t);
  }

  /** The consumer, alone, finds the head published and is about to read its length. */
  lemma MatchHead(c: RingConfig, s: Ring) returns (t: Ring)
    requires Shape(c, s) && Reachable(c, s) && s.consumer.NotPopping?
    requires SlotAt(c, s, s.head).seqNo == s.head + 1
    ensures Shape(c, t) && Reachable(c, t) && t == s.(consumer := AtHeadLength(s.head))
  {
    var t1 := Do(c, s, CallPop);
    ReachStep(c, s, CallPop);
    var t2 := Do(c, t1, LoadHead);
    ReachStep(c, t1, LoadHead);
    t := Do(c, t2, LoadHeadSeq);
    ReachStep(c, t2, LoadHeadSeq);
  }

  lemma StartReachable(c: RingConfig, producers: nat) returns (s: Ring)
    requires c.Sized()
    ensures s == Start(c, producers) && Reachable(c, s)
    ensures SlotAt(c, s, 0).seqNo == 0
    ensures c.numSlots >= 2 ==> SlotAt(c, s, 1).seqNo == 1
  {
    s := Start(c, producers);
    assert Runs(c, s, [], s);
    Remainder(0, c.numSlots, 0, 0);
    if c.numSlots >= 2 {
      Remainder(1, c.numSlots, 0, 1);
    }
  }

  /** A payload of 2^32 bytes is accepted when the slot is large enough, its length is stored as 0,
      and the consumer takes out an empty message. */
  lemma LongPayloadIsCut(c: RingConfig)
    requires c.Sized() && c.MaxPayload() >= TWO32
    ensures !Delivers(c)
  {
    var s := StartReachable(c, 1);
    var data: seq<byte> := seq(TWO32, _ => 0);
    var t := PushWhole(c, s, 0, data);
    assert SlotAt(c, t, 0).len == 0;
    var xs := SoloPop(c, t);
    var u := AfterPop(c, t);
    ReachRun(c, t, xs, u);
    assert u.popped[0] == [] && u.log[0].data == data;
  }

  /** With a single slot, "published 0" and "free for 1" are the same number: a second push
      overwrites the message the consumer is about to read. */
  lemma OneSlotOverwrites(c: RingConfig)
    requires c.Sized() && c.numSlots == 1
    ensures !Delivers(c)
  {
    var s := StartReachable(c, 1);
    var s1 := PushWhole(c, s, 0, []);
    var s2 := MatchHead(c, s1);
    var s3 := ReserveOnly(c, s2, 0, [0]);
    var s4 := Do(c, s3, StoreLength(0));
    ReachStep(c, s3, StoreLength(0));
    var s5 := Do(c, s4, LoadLength);
    ReachStep(c, s4, LoadLength);
    TakesOneByte(c, s5);
  }

  lemma TakesOneByte(c: RingConfig, s: Ring)
    requires Shape(c, s) && Reachable(c, s) && s.consumer == AtHeadBytes(0, 1, [])
    requires s.popped == [] && |s.log| > 0 && s.log[0].data == []
    ensures !Delivers(c)
  {
    var t := Do(c, s, CopyOut);
    ReachStep(c, s, CopyOut);
    var u := Do(c, t, FreeSlot);
    ReachStep(c, t, FreeSlot);
    assert |u.popped[0]| == 1 && u.log[0].data == [];
  }

  /** Different slots lie apart, and inside the segment, exactly if their extent does not reach 2^64. */
  lemma AddressableExactly(c: RingConfig)
    requires c.Check()
    ensures c.Sized() && (Addressable(c) <==> c.InMemory())
  {
    SlotInSegment(c);
    if c.InMemory() {
      forall i: nat, j: nat | i < j < c.numSlots ensures Apart(c, i, j) {
        Remainder(i, c.numSlots, 0, i);
        Remainder(j, c.numSlots, 0, j);
        SlotsDisjoint(c, i, j);
      }
    }
  }

  /** `check` accepts four families of geometries on which messages can be lost: a single slot, slots whose
      payload can exceed the 32-bit length field, slots that together reach 2^64 bytes, so that `total()`
      wraps, and slots whose size is no multiple of eight, so that sequence numbers are torn. All others
      are faithful. */
  lemma CheckedGeometries(c: RingConfig)
    requires c.Check()
    ensures Faithful(c) <==>
              && c.numSlots >= 2 && c.slotSize < TWO32 + SLOT_HDR + 4
              && HDR + c.numSlots * c.slotSize < TWO64 && c.slotSize % 8 == 0
    ensures Faithful(c) <==> Sound(c) && c.InMemory() && c.Aligned()
  {
    SlotCountBound(c);
    AddressableExactly(c);
    if c.numSlots == 1 {
      OneSlotOverwrites(c);
    } else if c.slotSize >= TWO32 + SLOT_HDR + 4 {
      LongPayloadIsCut(c);
    } else {
      if c.InMemory() {
        SlotsAligned(c);
      }
      forall t | Reachable(c, t) ensures Delivered(t) {
        ReachableInv(c, t);
      }
    }
  }

  /** 2^62 slots of 32 bytes pass `check` and the first two conditions; `total()` is 192, so that the
      segment holds not one slot, and slots 0 and 2^59 have the same address. */
  lemma TotalWraps(c: RingConfig)
    requires c == RingConfig(0x4000_0000_0000_0000, 32)
    ensures c.Check() && Sound(c) && c.Total() == HDR
    ensures c.SlotOffset(0) == c.SlotOffset(0x800_0000_0000_0000) == HDR
    ensures !Faithful(c)
  {
    hide PopCount, Pow2, BitAnd, Faithful, Delivers, Addressable;
    HugeCount();
    CheckedGeometries(c);
    MaskIsRemainder(c, 0);
    MaskIsRemainder(c, 0x800_0000_0000_0000);
  }

  lemma HugeCount()
    ensures PopCount(0x4000_0000_0000_0000) == 1
  {
    PowerOf64();
    Pow2HasOneBit(62);
    assert Pow2(64) == 2 * Pow2(63) == 4 * Pow2(62);
    hide PopCount, Pow2;
  }

  /** The four preset geometries are among the faithful ones. */
  lemma PresetsAreFaithful(c: RingConfig)
    requires c in {RingConfig(1024, 512), RingConfig(512, 4096), RingConfig(256, 32768), RingConfig(32, 2097152)}
    ensures c.Check() && Faithful(c)
  {
    Pow2HasOneBit(5);
    Pow2HasOneBit(8);
    Pow2HasOneBit(9);
    Pow2HasOneBit(10);
    assert Pow2(5) == 32 && Pow2(8) == 256;
    assert Pow2(10) == 4 * Pow2(8);
    CheckedGeometries(c);
  }

  /** `None` is not "empty": on every sound geometry there is a reachable state in which `try_pop`
      answers None while a whole message waits in the ring behind an unfinished one. */
  lemma NoneIsNotEmpty(c: RingConfig) returns (s: Ring)
    requires Sound(c)
    ensures Shape(c, s) && Reachable(c, s) && Enabled(c, s, LoadHeadSeq)
    ensures SeesNone(c, s, LoadHeadSeq)
    ensures Published(c, s, s.head + 1)
  {
    var t := SecondPublished(c);
    var u := Do(c, t, CallPop);
    ReachStep(c, t, CallPop);
    s := Do(c, u, LoadHead);
    ReachStep(c, u, LoadHead);
  }

  /** Position 0 is reserved and unfinished, position 1 is published. */
  lemma SecondPublished(c: RingConfig) returns (s: Ring)
    requires Sound(c)
    ensures Shape(c, s) && Reachable(c, s)
    ensures s.head == 0 && s.consumer.NotPopping? && SlotAt(c, s, 0).seqNo == 0
    ensures Published(c, s, 1)
  {
    var s0 := StartReachable(c, 2);
    DistinctSlots(c, 0, 1);
    var s1 := ReserveOnly(c, s0, 0, []);
    s := PushWhole(c, s1, 1, []);
  }

  /** `k` pushes fill the first `k` positions. */
  lemma {:induction false} Fill(c: RingConfig, k: nat) returns (s: Ring)
    requires Sound(c) && k <= c.numSlots
    ensures Shape(c, s) && Reachable(c, s)
    ensures s.tail == k && s.head == 0 && s.producers == [NotPushing] && s.consumer == NotPopping
    ensures k > 0 ==> SlotAt(c, s, 0).seqNo == 1
  {
    if k == 0 {
      s := StartReachable(c, 1);
    } else {
      var t := Fill(c, k - 1);
      ReachableInv(c, t);
      assert SlotInv(c, t, k - 1);
      s := PushWhole(c, t, 0, []);
      if k > 1 {
        DistinctSlots(c, 0, k - 1);
      }
    }
  }

  /** The stored `head` can lag so far that the ring looks one message over full. */
  lemma HeadLagIsReached(c: RingConfig) returns (s: Ring)
    requires Sound(c)
    ensures Shape(c, s) && Reachable(c, s)
    ensures s.tail - s.head == c.numSlots + 1
  {
    var t := FreedOfFull(c);
    ReachableInv(c, t);
    assert SlotInv(c, t, t.tail);
    s := PushWhole(c, t, 0, []);
  }

  lemma FreedOfFull(c: RingConfig) returns (s: Ring)
    requires Sound(c)
    ensures Shape(c, s) && Reachable(c, s)
    ensures s.tail == c.numSlots && s.head == 0 && s.producers == [NotPushing] && s.consumer.AtAdvance?
  {
    var t := Fill(c, c.numSlots);
    ReachableInv(c, t);
    assert SlotInv(c, t, 0);
    var t1 := MatchHead(c, t);
    var t2 := Do(c, t1, LoadLength);
    ReachStep(c, t1, LoadLength);
    var xs;
    xs, s := SoloTake(c, t2);
    ReachRun(c, t2, xs, s);
  }

  // ----- A position older than 2^64 reservations -----

  /** Producer 0 has found position 0 free and stands before its CAS; producer 1 and the consumer have moved
      on to position `k`. */
  ghost predicate Overtaken(c: RingConfig, s: Ring, k: nat) {
    && Shape(c, s) && Reachable(c, s)
    && s.tail == k && s.producers == [AtCas([], 0), NotPushing] && s.consumer == NotPopping
  }

  lemma {:induction false} Overtake(c: RingConfig, k: nat) returns (s: Ring)
    requires Sound(c)
    ensures Overtaken(c, s, k) && Freed(s) == k
  {
    if k == 0 {
      var s0 := StartReachable(c, 2);
      s := CheckOnly(c, s0, 0, []);
    } else {
      var t := Overtake(c, k - 1);
      ReachableInv(c, t);
      assert SlotInv(c, t, t.tail);
      var u := PushWhole(c, t, 1, []);
      hide Reachable, Inv;
      s := PopWhole(c, u);
    }
  }

  lemma PopWhole(c: RingConfig, s: Ring) returns (t: Ring)
    requires Shape(c, s) && Reachable(c, s) && s.consumer.NotPopping?
    requires SlotAt(c, s, s.head).seqNo == s.head + 1 && SlotAt(c, s, s.head).len <= c.PayloadCapacity()
    ensures Shape(c, t) && Reachable(c, t)
    ensures t.tail == s.tail && t.head == s.head + 1 && t.producers == s.producers && t.consumer == NotPopping
  {
    var xs := SoloPop(c, s);
    t := AfterPop(c, s);
    ReachRun(c, s, xs, t);
  }

  lemma {:induction false} OvertakeAndFill(c: RingConfig, k: nat, n: nat) returns (s: Ring)
    requires Sound(c) && n <= c.numSlots
    ensures Overtaken(c, s, k + n) && Freed(s) == k
    ensures n > 0 ==> Published(c, s, k)
  {
    if n == 0 {
      s := Overtake(c, k);
    } else {
      var t := OvertakeAndFill(c, k, n - 1);
      ReachableInv(c, t);
      assert SlotInv(c, t, t.tail);
      s := PushWhole(c, t, 1, []);
      if n > 1 {
        DistinctSlots(c, k, t.tail);
      }
    }
  }

  /** A run in which the CAS on the 64-bit `tail` is fooled, to harm: producer 0 loaded position 0 exactly
      2^64 reservations ago, so that the words are equal although the positions are not, and the slot it is
      about to win holds a message that has been published and not delivered. */
  lemma FooledCasOverwrites(c: RingConfig) returns (s: Ring)
    requires Sound(c) && c.Check()
    ensures Shape(c, s) && Reachable(c, s) && s.producers == [AtCas([], 0), NotPushing]
    ensures s.tail != 0 && Wrap64(s.tail) == Wrap64(0)
    ensures c.numSlots <= TWO64 && Published(c, s, TWO64 - c.numSlots)
    ensures Index(c, TWO64 - c.numSlots) == Index(c, 0)
  {
    SlotCountBound(c);
    s := OvertakeAndFill(c, TWO64 - c.numSlots, c.numSlots);
    NextLap(c, TWO64 - c.numSlots);
    WrappedIndex(c, TWO64);
  }

  // ----- A sequence number read in two parts -----

  /** `k` messages pushed and delivered. */
  lemma {:induction false} Cycle(c: RingConfig, k: nat) returns (s: Ring)
    requires Sound(c)
    ensures Shape(c, s) && Reachable(c, s)
    ensures s.tail == k && Freed(s) == k && s.producers == [NotPushing, NotPushing] && s.consumer == NotPopping
  {
    if k == 0 {
      s := StartReachable(c, 2);
    } else {
      var t := Cycle(c, k - 1);
      ReachableInv(c, t);
      assert SlotInv(c, t, t.tail);
      var u := PushWhole(c, t, 1, []);
      hide Reachable, Inv;
      s := PopWhole(c, u);
    }
  }

  /** Producer 0 holds position `k`, all written but its sequence number; producer 1 has filled the `n`
      positions after it. */
  lemma {:induction false} HoldAndFill(c: RingConfig, k: nat, n: nat) returns (s: Ring)
    requires Sound(c) && n < c.numSlots
    ensures Shape(c, s) && Reachable(c, s)
    ensures s.tail == k + 1 + n && Freed(s) == k && s.producers == [AtBytes([], k, 0), NotPushing]
    ensures s.consumer == NotPopping && SlotAt(c, s, k).seqNo == k
  {
    if n == 0 {
      var t := Cycle(c, k);
      ReachableInv(c, t);
      assert SlotInv(c, t, t.tail);
      var u := ReserveOnly(c, t, 0, []);
      s := Do(c, u, StoreLength(0));
      ReachStep(c, u, StoreLength(0));
    } else {
      var t := HoldAndFill(c, k, n - 1);
      ReachableInv(c, t);
      assert SlotInv(c, t, t.tail);
      s := PushWhole(c, t, 1, []);
      DistinctSlots(c, k, t.tail);
    }
  }

  /** Producer 1 stands before its load of the sequence number that producer 0 is about to store. */
  lemma FullAndLooking(c: RingConfig, k: nat) returns (s: Ring)
    requires Sound(c)
    ensures Shape(c, s) && Reachable(c, s) && s.tail == k + c.numSlots && Freed(s) == k
    ensures s.producers == [AtBytes([], k, 0), AtSeq([], k + c.numSlots)] && SlotAt(c, s, k).seqNo == k
  {
    var t := HoldAndFill(c, k, c.numSlots - 1);
    var u := Do(c, t, CallPush(1, []));
    ReachStep(c, t, CallPush(1, []));
    s := Do(c, u, LoadTail(1));
    ReachStep(c, u, LoadTail(1));
  }

  /** Before the store and after it that load would answer Full. */
  lemma FullEitherWay(c: RingConfig, s: Ring, k: nat)
    requires Sound(c) && Shape(c, s) && s.tail == k + c.numSlots == |s.log| && Freed(s) == k
    requires s.producers == [AtBytes([], k, 0), AtSeq([], k + c.numSlots)] && SlotAt(c, s, k).seqNo == k
    ensures Index(c, k + c.numSlots) == Index(c, k)
    ensures Enabled(c, s, Publish(0)) && Enabled(c, s, LoadSeq(1)) && SeesFull(c, s, LoadSeq(1))
    ensures var t := Do(c, s, Publish(0));
            && SlotAt(c, s, k + c.numSlots).seqNo == k && SlotAt(c, t, k + c.numSlots).seqNo == k + 1
            && Published(c, t, k) && Enabled(c, t, LoadSeq(1)) && SeesFull(c, t, LoadSeq(1))
            && Freed(t) == k && t.tail == s.tail && |t.producers| == 2
  {
    NextLap(c, k);
    hide DoPop;
  }

  /** A producer that takes the slot of an undelivered message for free, as it does after reading its own
      position there, puts an end to that message. */
  lemma TakenForFree(c: RingConfig, t: Ring, k: nat) returns (v: Ring)
    requires Sound(c) && Shape(c, t) && t.tail == k + c.numSlots && Freed(t) == k && Published(c, t, k)
    requires |t.producers| == 2
    requires Index(c, k + c.numSlots) == Index(c, k)
    ensures var u := SetPc(t, 1, AtCas([], k + c.numSlots));
            Runs(c, u, [CasTail(1, false), StoreLength(1), Publish(1)], v)
    ensures Shape(c, v) && Freed(v) == k && v.popped == t.popped && !Published(c, v, k)
  {
    var u := SetPc(t, 1, AtCas([], k + c.numSlots));
    var u1 := Do(c, u, CasTail(1, false));
    var u2 := Do(c, u1, StoreLength(1));
    v := Do(c, u2, Publish(1));
  }

  /** 256 slots of 65 bytes meet the first three conditions. The sequence number of slot 255 has its first
      byte in one cache line and seven in the next. In a reachable state the ring is full, position 255 is
      about to be published, and a producer is about to look at its slot for position 511. Before the
      publishing store the number is 255, after it 256, and either answers Full. A load that takes the low
      byte from before the store and the rest from after it reads 511, which says that the slot is free for
      511: the producer goes on to its CAS, wins it, and overwrites message 255, published and undelivered. */
  lemma TornSequenceNumber(c: RingConfig) returns (s: Ring, v: Ring)
    requires c == RingConfig(256, 65)
    ensures c.Check() && Sound(c) && c.InMemory() && !Faithful(c)
    ensures c.SlotOffset(255) % 64 == 63
    ensures Shape(c, s) && Reachable(c, s) && Enabled(c, s, Publish(0)) && Enabled(c, s, LoadSeq(1))
    ensures s.producers[1] == AtSeq([], 511) && SeesFull(c, s, LoadSeq(1))
    ensures var t := Do(c, s, Publish(0));
            var was, now := SlotAt(c, s, 511).seqNo, SlotAt(c, t, 511).seqNo;
            && Enabled(c, t, LoadSeq(1)) && SeesFull(c, t, LoadSeq(1)) && Published(c, t, 255)
            && FromLE(ToLE(Wrap64(was), 8)[..1] + ToLE(Wrap64(now), 8)[1..]) == Wrap64(511)
            && Runs(c, SetPc(t, 1, AtCas([], 511)), [CasTail(1, false), StoreLength(1), Publish(1)], v)
    ensures Shape(c, v) && Freed(v) == 255 && !Published(c, v, 255)
  {
    TornGeometry(c);
    s := FullAndLooking(c, 255);
    ReachableInv(c, s);
    TornBytes();
    hide RingConfig.Check, PopCount, BitAnd, Faithful, ToLE, FromLE, Reachable, Enabled, SeesFull, Do, Inv, Published;
    FullEitherWay(c, s, 255);
    v := TakenForFree(c, Do(c, s, Publish(0)), 255);
  }

  lemma TornGeometry(c: RingConfig)
    requires c == RingConfig(256, 65)
    ensures c.Check() && Sound(c) && c.InMemory() && !Faithful(c) && c.SlotOffset(255) % 64 == 63
  {
    TornIsChecked(c);
    hide RingConfig.Check, RingConfig.SlotOffset, Faithful;
    CheckedGeometries(c);
    TrueAddress(c, 255);
  }

  lemma TornIsChecked(c: RingConfig)
    requires c == RingConfig(256, 65)
    ensures c.Check()
  {
    Pow2HasOneBit(8);
    assert Pow2(8) == 256;
  }

  lemma TornBytes()
    ensures FromLE(ToLE(255, 8)[..1] + ToLE(256, 8)[1..]) == 511
  {
    var was, now := ToLE(255, 8), ToLE(256, 8);
    assert was[0] == 255;
    assert now == [0] + ToLE(1, 7);
    LoadStored(1, 7);
    assert was[..1] + now[1..] == [255] + ToLE(1, 7);
    assert ([255] + ToLE(1, 7))[1..] == ToLE(1, 7);
  }
}
