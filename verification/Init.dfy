/** `init`: from any bytes to the initial state of the ring. */
module Init {
  import opened Words
  import opened Geometry
  import opened RingModel
  import opened RingInvariant
  import opened System
  import opened Memory
  import opened Rely
  import opened Segment

  lemma {:induction false} StoreLoaded(bytes: seq<byte>)
    ensures ToLE(FromLE(bytes), |bytes|) == bytes
  {
    if bytes != [] {
      StoreLoaded(bytes[1..]);
      LowByte(bytes[0], FromLE(bytes[1..]));
      assert bytes == [bytes[0]] + bytes[1..];
    }
  }

  lemma LowByte(b: byte, rest: nat)
    ensures (b + 256 * rest) % 256 == b && (b + 256 * rest) / 256 == rest
  {
  }

  /** What slot `i` holds, whatever the bytes are. */
  function ReadSlot(c: RingConfig, m: seq<byte>, i: nat): Slot
    requires c.Sized() && |m| == c.Extent() && i < c.numSlots
  {
    BaseBounds(c, i);
    var b := Base(c, i);
    Slot(Load(m, b, 8), Load(m, b + LEN_OFFSET, 4), m[b + SLOT_HDR..b + c.slotSize])
  }

  /** The ring whose first `done` slots carry their index as sequence number and whose other contents are
      whatever the bytes `m` say; `n` producers, none of them active. */
  ghost function Prepared(c: RingConfig, m: seq<byte>, done: nat, n: nat): (r: Ring)
    requires c.Sized() && |m| == c.Extent()
    ensures |r.slots| == c.numSlots
  {
    var slots := seq(c.numSlots, i requires 0 <= i < c.numSlots =>
      var slot := ReadSlot(c, m, i); if i < done then slot.(seqNo := i) else slot);
    Ring(0, 0, slots, seq(n, j => NotPushing), NotPopping, [], [])
  }

  /** Any bytes are the image of something. */
  lemma AnyBytes(c: RingConfig, m: seq<byte>)
    requires c.Sized() && |m| == c.Extent()
    ensures |m| >= HDR
    ensures Image(c, m, Prepared(c, m, 0, 0).(tail := Load(m, TAIL_OFFSET, 8), head := Load(m, HEAD_OFFSET, 8)),
                  LoadBounded(m, STATE_OFFSET))
  {
    Stride(0, c.numSlots, c.slotSize);
    AnyHeader(m);
    hide SlotImage, HeaderImage, ReadSlot, ToLE, Load, LoadBounded, Base;
    var s := Prepared(c, m, 0, 0);
    forall i: nat | i < c.numSlots ensures SlotImage(c, m, i, s.slots[i]) {
      AnySlot(c, m, i);
    }
  }

  lemma AnyHeader(m: seq<byte>)
    requires |m| >= HDR
    ensures Wrap64(Load(m, TAIL_OFFSET, 8)) == Load(m, TAIL_OFFSET, 8)
    ensures Wrap64(Load(m, HEAD_OFFSET, 8)) == Load(m, HEAD_OFFSET, 8)
    ensures HeaderImage(m, Load(m, TAIL_OFFSET, 8), Load(m, HEAD_OFFSET, 8), LoadBounded(m, STATE_OFFSET))
  {
    hide ToLE, Load;
    WordImage(m, TAIL_OFFSET);
    WordImage(m, HEAD_OFFSET);
    WordImage(m, STATE_OFFSET);
  }

  lemma AnySlot(c: RingConfig, m: seq<byte>, i: nat)
    requires c.Sized() && |m| == c.Extent() && i < c.numSlots
    ensures SlotImage(c, m, i, ReadSlot(c, m, i))
  {
    BaseBounds(c, i);
    WordImage(m, Base(c, i));
    hide ToLE, FromLE, Base;
    var slot := ReadSlot(c, m, i);
    assert Wrap64(slot.seqNo) == slot.seqNo;
  }

  function LoadBounded(m: seq<byte>, offset: nat): u64
    requires offset + 8 <= |m|
  {
    WordImage(m, offset);
    Load(m, offset, 8)
  }

  lemma WordImage(m: seq<byte>, offset: nat)
    requires offset + 8 <= |m|
    ensures Load(m, offset, 8) < TWO64
    ensures m[offset..offset + 8] == ToLE(Load(m, offset, 8), 8)
  {
    var bytes := m[offset..offset + 8];
    LoadBound(bytes);
    StoreLoaded(bytes);
    assert Pow256(4) == TWO32;
    assert Pow256(8) == TWO64;
  }

  datatype InitResult = Refused | Ready | Fault

  /** Does `init` store outside the segment? */
  ghost predicate StoresOutside(c: RingConfig)
    requires c.Sized()
  {
    c.Total() < STATE_OFFSET + 8 || exists i: nat :: i < c.numSlots && SeqOutside(c, i)
  }

  /** Does it store to a word that does not lie at a multiple of its size? */
  ghost predicate StoresMisaligned(c: RingConfig)
    requires c.Sized()
  {
    exists i: nat :: i < c.numSlots && !AlignedSlot(c, i)
  }

  predicate SeqOutside(c: RingConfig, i: nat)
    requires c.Sized()
  {
    c.SlotOffset(i) + 8 > c.Total()
  }

  lemma NothingOutside(c: RingConfig)
    requires c.Check() && c.InMemory()
    ensures c.Sized() && !StoresOutside(c) && c.Total() == c.Extent() >= HDR
  {
    TrueAddress(c, 0);
    SlotInSegment(c);
    forall i: nat | i < c.numSlots ensures !SeqOutside(c, i) {
      assert HoldsSlot(c, i);
    }
    Stride(0, c.numSlots, c.slotSize);
  }

  lemma AlignmentDecides(c: RingConfig)
    requires c.Check() && c.InMemory()
    ensures c.Sized()
    ensures c.Aligned() ==> !StoresMisaligned(c)
    ensures c.numSlots >= 2 && !c.Aligned() ==> StoresMisaligned(c)
  {
    MaskIsRemainder(c, 0);
    if c.numSlots >= 2 {
      SlotsAligned(c);
    } else {
      Remainder(0, c.numSlots, 0, 0);
      TrueAddress(c, 0);
    }
  }

  /** A geometry accepted and initialised without a fault although its slots need almost 2^65 bytes: `total()`
      falls just short of 2^64, every sequence number has its place inside and aligned, and the one of slot 8
      lies on the word `head`. */
  lemma SpoiltUnnoticed(c: RingConfig)
    requires c == RingConfig(16, 0x2000_0000_0000_0000 - 16)
    ensures c.Check() && !c.InMemory()
    ensures !StoresOutside(c) && !StoresMisaligned(c) && c.SlotOffset(8) == HEAD_OFFSET
  {
    SixteenAccepted(c);
    forall i: nat | i < 16 ensures !SeqOutside(c, i) && AlignedSlot(c, i) {
      OverlappingSlot(c, i);
    }
    OverlappingSlot(c, 8);
  }

  lemma SixteenAccepted(c: RingConfig)
    requires c.numSlots == 16 && c.slotSize > SLOT_HDR + 4
    ensures c.Check()
  {
    Pow2HasOneBit(4);
    assert Pow2(4) == 16;
  }

  lemma OverlappingSlot(c: RingConfig, i: nat)
    requires c == RingConfig(16, 0x2000_0000_0000_0000 - 16) && i < 16
    ensures c.SlotOffset(i) == HDR + i * c.slotSize - (if i < 8 then 0 else TWO64)
    ensures !SeqOutside(c, i) && AlignedSlot(c, i)
  {
    SixteenAccepted(c);
    MaskIsRemainder(c, i);
    Remainder(i, 16, 0, i);
    assert c.SlotOffset(i) == (HDR + i * c.slotSize) % TWO64;
    OverlappingTotal(c);
    hide RingConfig.Check, RingConfig.SlotOffset, RingConfig.Total, BitAnd;
    if i < 8 {
      Remainder(HDR + i * c.slotSize, TWO64, 0, HDR + i * c.slotSize);
    } else {
      Remainder(HDR + i * c.slotSize, TWO64, 1, HDR + i * c.slotSize - TWO64);
    }
  }

  lemma OverlappingTotal(c: RingConfig)
    requires c == RingConfig(16, 0x2000_0000_0000_0000 - 16)
    ensures c.Total() == TWO64 - 64
  {
  }

  /** `init(base, cfg)` over a segment of `total()` bytes. It refuses the geometries `check` refuses, which are
      those whose mask does not take the remainder or whose slots have no room for a byte, touching nothing.
      It faults, its behaviour being undefined, exactly if one of its stores lies outside the segment or is
      misaligned; what a machine that tolerates misaligned stores then leaves is not promised. Whenever the
      extent of the slots stays below 2^64 and their size is a multiple of eight, it leaves the initial state
      of the ring, and the length fields and payload areas as they were. */
  method Init(c: RingConfig, mem: array<byte>) returns (r: InitResult)
    requires mem.Length == c.Total()
    modifies mem
    ensures !r.Refused? <==>
              && c.numSlots > 0
              && (forall idx: nat :: BitAnd(idx, c.numSlots - 1) == idx % c.numSlots)
              && c.slotSize - SLOT_HDR - 4 >= 1
    ensures r.Refused? <==> !c.Check()
    ensures r.Refused? ==> mem[..] == old(mem[..])
    ensures c.Check() ==> c.Sized() && (r.Fault? <==> StoresOutside(c) || StoresMisaligned(c))
    ensures c.Check() && c.InMemory() && c.numSlots >= 2 ==> (r.Ready? <==> c.Aligned())
    ensures c.Check() && c.InMemory() && c.Aligned() ==>
              r.Ready? && |old(mem[..])| == c.Extent() &&
              Image(c, mem[..], Prepared(c, old(mem[..]), c.numSlots, 0), RUNNING)
  {
    CheckExactly(c);
    if !c.Check() {
      return Refused;
    }
    r := StoreAll(c, mem);
  }

  /** The stores of `init`, after the check. */
  method StoreAll(c: RingConfig, mem: array<byte>) returns (r: InitResult)
    requires mem.Length == c.Total() && c.Check()
    modifies mem
    ensures !r.Refused?
    ensures c.Sized() && (r.Fault? <==> StoresOutside(c) || StoresMisaligned(c))
    ensures c.InMemory() && c.numSlots >= 2 ==> (r.Ready? <==> c.Aligned())
    ensures c.InMemory() && c.Aligned() ==>
              r.Ready? && |old(mem[..])| == c.Extent() &&
              Image(c, mem[..], Prepared(c, old(mem[..]), c.numSlots, 0), RUNNING)
  {
    hide Image, Prepared, ToLE, Store, RingConfig.Check, RingConfig.InMemory, RingConfig.Aligned,
         RingConfig.SlotOffset, RingConfig.Total, RingConfig.Extent;
    MaskIsRemainder(c, 0);
    if c.InMemory() {
      NothingOutside(c);
      AlignmentDecides(c);
    }
    SlotCountBound(c);
    if mem.Length < STATE_OFFSET + 8 {
      return Fault;
    }
    ghost var m := mem[..];
    ClearHeader(c, mem);
    for i := 0 to c.numSlots
      invariant c.InMemory() ==> Image(c, mem[..], Prepared(c, m, i, 0), RUNNING)
      invariant forall k: nat :: k < i ==> !SeqOutside(c, k) && AlignedSlot(c, k)
    {
      var offset := c.SlotOffset(i);
      if offset + 8 > mem.Length {
        assert SeqOutside(c, i);
        return Fault;
      }
      if offset % 8 != 0 {
        assert !AlignedSlot(c, i);
        return Fault;
      }
      if c.InMemory() {
        OneSlotReady(c, m, mem[..], i);
      }
      StoreBytes(mem, offset, ToLE(i, 8));
    }
    r := InitResult.Ready;
  }

  lemma OneSlotReady(c: RingConfig, m: seq<byte>, now: seq<byte>, i: nat)
    requires c.Check() && c.InMemory() && i < c.numSlots && c.Sized() && |m| == c.Extent()
    requires Image(c, now, Prepared(c, m, i, 0), RUNNING) && c.SlotOffset(i) + 8 <= |now|
    ensures Image(c, Store(now, c.SlotOffset(i), ToLE(i, 8)), Prepared(c, m, i + 1, 0), RUNNING)
  {
    OwnAddress(c, i);
    StoreSlotSeq(c, now, Prepared(c, m, i, 0), RUNNING, i, i);
    OneMore(c, m, i);
    hide Image, Prepared, Store, ToLE, BitAnd, PopCount, RingConfig.SlotOffset;
  }

  lemma OwnAddress(c: RingConfig, i: nat)
    requires c.Check() && c.InMemory() && i < c.numSlots
    ensures c.Sized() && Wrap64(i) == i && c.SlotOffset(i) == Base(c, i)
  {
    SlotCountBound(c);
    hide RingConfig.Check, RingConfig.SlotOffset, BitAnd, Base;
    AddressOf(c, i);
    Remainder(i, c.numSlots, 0, i);
  }

  lemma OneMore(c: RingConfig, m: seq<byte>, i: nat)
    requires c.Sized() && |m| == c.Extent() && i < c.numSlots
    ensures var s := Prepared(c, m, i, 0);
            Prepared(c, m, i + 1, 0) == s.(slots := s.slots[i := s.slots[i].(seqNo := i)])
  {
    var s := Prepared(c, m, i, 0);
    assert Prepared(c, m, i + 1, 0).slots == s.slots[i := s.slots[i].(seqNo := i)];
  }

  /** The first three stores. */
  method ClearHeader(c: RingConfig, mem: array<byte>)
    requires c.Sized() && mem.Length >= STATE_OFFSET + 8
    modifies mem
    ensures mem.Length == c.Extent() ==> Image(c, mem[..], Prepared(c, old(mem[..]), 0, 0), RUNNING)
  {
    ghost var m := mem[..];
    StoreBytes(mem, TAIL_OFFSET, ToLE(0, 8));
    StoreBytes(mem, HEAD_OFFSET, ToLE(0, 8));
    StoreBytes(mem, STATE_OFFSET, ToLE(RUNNING, 8));
    if mem.Length == c.Extent() {
      HeaderCleared(c, m);
    }
  }

  lemma HeaderCleared(c: RingConfig, m: seq<byte>)
    requires c.Sized() && |m| == c.Extent()
    ensures |m| >= HDR
    ensures var m1 := Store(m, TAIL_OFFSET, ToLE(0, 8));
            var m2 := Store(m1, HEAD_OFFSET, ToLE(0, 8));
            Image(c, Store(m2, STATE_OFFSET, ToLE(RUNNING, 8)), Prepared(c, m, 0, 0), RUNNING)
  {
    AnyBytes(c, m);
    var s0 := Prepared(c, m, 0, 0).(tail := Load(m, TAIL_OFFSET, 8), head := Load(m, HEAD_OFFSET, 8));
    var word := LoadBounded(m, STATE_OFFSET);
    var s1 := s0.(tail := 0);
    var s2 := s1.(head := 0);
    assert s2 == Prepared(c, m, 0, 0);
    hide Image, Prepared;
    var m1 := Store(m, TAIL_OFFSET, ToLE(0, 8));
    var m2 := Store(m1, HEAD_OFFSET, ToLE(0, 8));
    StoreHeader(c, m, s0, word, TAIL_OFFSET, 0, s1, word);
    StoreHeader(c, m1, s1, word, HEAD_OFFSET, 0, s2, word);
    StoreHeader(c, m2, s2, word, STATE_OFFSET, RUNNING, s2, RUNNING);
  }

  /** What `init` prepares is an initial state, for any number of producers, so the global invariant
      holds from the first step on whatever the memory held before. */
  lemma PreparedIsInitial(c: RingConfig, m: seq<byte>, n: nat)
    requires c.Check() && |m| == c.Extent()
    ensures c.Sized() && Initial(c, Prepared(c, m, c.numSlots, n))
    ensures Sound(c) ==> Inv(c, Prepared(c, m, c.numSlots, n))
  {
    MaskIsRemainder(c, 0);
    var s := Prepared(c, m, c.numSlots, n);
    forall i | 0 <= i < |s.slots| ensures |s.slots[i].data| == c.PayloadCapacity() && s.slots[i].seqNo == i {
      BaseBounds(c, i);
    }
    if Sound(c) {
      InitialInv(c, s);
    }
  }

  /** The server's start: a fresh segment over any bytes, in the hands of one party. */
  method Open(setup: Setup, mem: array<byte>, flukes: nat, ghost budget: nat, ghost me: Party) returns (seg: Segment)
    requires Sound(setup.ring) && setup.ring.Check() && setup.ring.InMemory() && setup.ring.Aligned()
    requires mem.Length == setup.ring.Total()
    modifies mem
    ensures fresh(seg) && seg.Valid() && seg.setup == setup && seg.mem == mem && seg.me == me && seg.run == []
    ensures seg.budget == budget && seg.flukes == flukes
  {
    ghost var m := mem[..];
    var r := Init(setup.ring, mem);
    ghost var ring := Prepared(setup.ring, m, setup.ring.numSlots, |setup.work|);
    PreparedIsInitial(setup.ring, m, |setup.work|);
    SameImage(setup.ring, mem[..], Prepared(setup.ring, m, setup.ring.numSlots, 0), RUNNING, ring);
    seg := new Segment(setup, mem, ring, budget, flukes, me);
  }
}
