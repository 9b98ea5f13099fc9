/** Ring geometry: `RingConfig`, the power-of-two check, slot addressing by mask, and the
    fact every index argument in the ring rests on: masking is taking the remainder. */
module Geometry {
  import opened Words

  /** Segment header: tail at 0, head at 64, consumer_state at 128. */
  const HDR: nat := 192
  const TAIL_OFFSET: nat := 0
  const HEAD_OFFSET: nat := 64
  const STATE_OFFSET: nat := 128

  /** Slot header: seq at 0, len at 8, then four bytes of padding. */
  const SLOT_HDR: nat := 16
  const LEN_OFFSET: nat := 8

  const RUNNING: u64 := 0
  const PARKED: u64 := 1

  datatype RingConfig = RingConfig(numSlots: u64, slotSize: u64) {

    /** The bytes that the header and all slots take. */
    function Extent(): nat {
      HDR + slotSize * numSlots
    }

    /** `total()`: the usize product and sum wrap. */
    function Total(): u64 {
      Extent() % TWO64
    }

    /** Is the segment as large as it has to be? */
    predicate InMemory() {
      Extent() < TWO64
    }

    /** Do the words of all slots lie at multiples of their size, as they do in slot 0? Only then is an
        access to one of them a single step. */
    predicate Aligned() {
      slotSize % 8 == 0
    }

    /** The two assertions of `check`. */
    predicate Check() {
      && PopCount(numSlots) == 1
      && slotSize > SLOT_HDR + 4
    }

    /** What the arithmetic below needs of a geometry; `check` guarantees it. */
    predicate Sized() {
      && numSlots > 0
      && slotSize > SLOT_HDR + 4
    }

    function PayloadCapacity(): nat
      requires Sized()
    {
      slotSize - SLOT_HDR
    }

    /** The longest payload `push` accepts. */
    function MaxPayload(): nat
      requires Sized()
    {
      PayloadCapacity() - 4
    }

    function Mask(): nat
      requires Sized()
    {
      numSlots - 1
    }

    /** Byte offset of the slot that serves position `idx`; usize arithmetic wraps. */
    function SlotOffset(idx: nat): u64
      requires Sized()
    {
      (HDR + BitAnd(idx, Mask()) * slotSize) % TWO64
    }
  }

  // ----- Bits -----

  function PopCount(x: nat): nat {
    if x == 0 then 0 else x % 2 + PopCount(x / 2)
  }

  function BitAnd(a: nat, b: nat): nat {
    if a == 0 || b == 0 then 0 else (a % 2) * (b % 2) + 2 * BitAnd(a / 2, b / 2)
  }

  function Pow2(k: nat): (p: nat)
    ensures p > 0
  {
    if k == 0 then 1 else 2 * Pow2(k - 1)
  }

  lemma {:induction false} OneBit(x: nat) returns (k: nat)
    requires PopCount(x) == 1
    ensures x == Pow2(k)
  {
    if x % 2 == 1 {
      assert x == 1 by { if x / 2 > 0 { NoBits(x / 2); } }
      k := 0;
    } else {
      var j := OneBit(x / 2);
      k := j + 1;
    }
  }

  lemma {:induction false} NoBits(x: nat)
    requires x > 0
    ensures PopCount(x) > 0
  {
    if x % 2 == 0 {
      NoBits(x / 2);
    }
  }

  lemma {:induction false} Pow2HasOneBit(k: nat)
    ensures PopCount(Pow2(k)) == 1
  {
    if k > 0 {
      Pow2HasOneBit(k - 1);
    }
  }

  /** `is_power_of_two` is what its name says. */
  lemma PowerOfTwo(x: nat)
    ensures PopCount(x) == 1 <==> exists k: nat :: x == Pow2(k)
  {
    if PopCount(x) == 1 {
      var k := OneBit(x);
    }
    forall k: nat | x == Pow2(k) ensures PopCount(x) == 1 {
      Pow2HasOneBit(k);
    }
  }

  /** Bit `k` of a word. */
  function Bit(x: nat, k: nat): nat {
    if k == 0 then x % 2 else Bit(x / 2, k - 1)
  }

  /** `&` works bit by bit. */
  lemma {:induction false} AndBitwise(a: nat, b: nat, k: nat)
    ensures Bit(BitAnd(a, b), k) == Bit(a, k) * Bit(b, k)
  {
    if a == 0 || b == 0 {
      ZeroBits(k);
    } else if k > 0 {
      AndBitwise(a / 2, b / 2, k - 1);
      assert BitAnd(a, b) / 2 == BitAnd(a / 2, b / 2);
    }
  }

  lemma {:induction false} ZeroBits(k: nat)
    ensures Bit(0, k) == 0
  {
    if k > 0 {
      ZeroBits(k - 1);
    }
  }

  lemma {:induction false} AndItself(x: nat)
    ensures BitAnd(x, x) == x
  {
    if x > 0 {
      AndItself(x / 2);
    }
  }

  /** A number that shares no bit with its predecessor has one bit. */
  lemma {:induction false} NoSharedBit(x: nat)
    requires x > 0 && BitAnd(x, x - 1) == 0
    ensures PopCount(x) == 1
  {
    if x % 2 == 0 {
      assert (x - 1) / 2 == x / 2 - 1;
      if x > 2 {
        NoSharedBit(x / 2);
      }
    } else {
      assert (x - 1) / 2 == x / 2;
      AndItself(x / 2);
    }
  }

  // ----- Remainders -----

  lemma Distribute(a: int, b: int, n: int)
    ensures (a + b) * n == a * n + b * n
    ensures (a - b) * n == a * n - b * n
  {
  }

  lemma AtLeastOnce(d: int, n: int)
    requires d >= 1 && n >= 0
    ensures d * n >= n
  {
    Distribute(d - 1, 1, n);
  }

  lemma Remainder(x: int, n: int, q: int, r: int)
    requires n > 0 && 0 <= r < n && x == q * n + r
    ensures x % n == r && x / n == q
  {
    var q', r' := x / n, x % n;
    assert x == q' * n + r' by { EuclideanDivision(x, n); }
    Distribute(q', q, n);
    Distribute(q, q', n);
    if q' > q {
      AtLeastOnce(q' - q, n);
    } else if q' < q {
      AtLeastOnce(q - q', n);
    }
  }

  lemma EuclideanDivision(x: int, n: int)
    requires n > 0
    ensures x == (x / n) * n + x % n && 0 <= x % n < n
  {
  }

  /** Two different positions less than n apart have different remainders. */
  lemma DistinctRemainders(p: nat, q: nat, n: nat)
    requires p < q < p + n
    ensures p % n != q % n
  {
    if p % n == q % n {
      assert q == (q / n) * n + q % n && p == (p / n) * n + p % n;
      Remainder(q, n, q / n, p % n);
      assert (q / n - p / n) * n == q - p;
      Remainder(q - p, n, q / n - p / n, 0);
      Remainder(q - p, n, 0, q - p);
    }
  }

  lemma SameRemainder(p: nat, n: nat)
    requires n > 0
    ensures (p + n) % n == p % n
  {
    Remainder(p + n, n, p / n + 1, p % n);
  }

  lemma HalveRemainder(x: nat, p: nat)
    requires p > 0
    ensures x % (2 * p) == x % 2 + 2 * (x / 2 % p)
  {
    var q, r := x / 2 / p, x / 2 % p;
    EuclideanDivision(x / 2, p);
    assert q * (2 * p) == 2 * (q * p);
    Remainder(x, 2 * p, q, 2 * r + x % 2);
  }

  lemma {:induction false} Masking(idx: nat, k: nat)
    ensures BitAnd(idx, Pow2(k) - 1) == idx % Pow2(k)
  {
    if k == 0 {
    } else if idx == 0 {
      Remainder(0, Pow2(k), 0, 0);
    } else {
      var p := Pow2(k - 1);
      Masking(idx / 2, k - 1);
      HalveRemainder(idx, p);
      assert (2 * p - 1) / 2 == p - 1 && (2 * p - 1) % 2 == 1;
      assert BitAnd(idx, 2 * p - 1) == idx % 2 + 2 * BitAnd(idx / 2, p - 1);
    }
  }

  lemma {:induction false} PowerSplit(k: nat, m: nat)
    ensures Pow2(k + m) == Pow2(k) * Pow2(m)
  {
    if m > 0 {
      PowerSplit(k, m - 1);
      assert Pow2(k) * (2 * Pow2(m - 1)) == 2 * (Pow2(k) * Pow2(m - 1));
    }
  }

  /** For every accepted slot count, `idx & mask` is `idx mod num_slots`. */
  lemma MaskIsRemainder(c: RingConfig, idx: nat)
    requires c.Check()
    ensures c.Sized()
    ensures BitAnd(idx, c.Mask()) == idx % c.numSlots
  {
    var k := OneBit(c.numSlots);
    Masking(idx, k);
  }

  /** `check` accepts exactly the geometries whose mask takes the remainder, for every index, and whose slots
      have room for a payload of one byte. */
  lemma CheckExactly(c: RingConfig)
    ensures c.Check() <==>
              && c.numSlots > 0
              && (forall idx: nat :: BitAnd(idx, c.numSlots - 1) == idx % c.numSlots)
              && c.slotSize - SLOT_HDR - 4 >= 1
  {
    if c.Check() {
      forall idx: nat ensures BitAnd(idx, c.numSlots - 1) == idx % c.numSlots {
        MaskIsRemainder(c, idx);
      }
    } else if c.numSlots > 0 && forall idx: nat :: BitAnd(idx, c.numSlots - 1) == idx % c.numSlots {
      var n := c.numSlots;
      Remainder(n, n, 1, 0);
      assert BitAnd(n, n - 1) == n % n == 0;
      NoSharedBit(n);
    }
  }

  lemma PowerOf32()
    ensures 2 * Pow2(31) == Pow2(32) == TWO32
  {
    assert Pow2(8) == 0x100;
    PowerSplit(8, 8);
    PowerSplit(16, 16);
  }

  lemma PowerOf64()
    ensures Pow2(64) == TWO64
  {
    PowerOf32();
    PowerSplit(32, 32);
  }

  lemma {:induction false} PowerGrows(j: nat, k: nat)
    requires j <= k
    ensures Pow2(j) <= Pow2(k)
  {
    if j < k {
      PowerGrows(j, k - 1);
    }
  }

  /** Because num_slots divides 2^64, the slot index survives counter wrap-around. */
  lemma WrappedIndex(c: RingConfig, idx: nat)
    requires c.Check()
    ensures c.Sized()
    ensures Wrap64(idx) % c.numSlots == idx % c.numSlots
  {
    var k := OneBit(c.numSlots);
    PowerOf64();
    if k > 63 {
      PowerGrows(64, k);
    }
    PowerSplit(k, 64 - k);
    RemainderOfRemainder(idx, c.numSlots, Pow2(64 - k));
  }

  lemma RemainderOfRemainder(x: nat, n: nat, m: nat)
    requires n > 0 && m > 0
    ensures n * m > 0
    ensures x % (n * m) % n == x % n
  {
    AtLeastOnce(m, n);
    var q, w := x / (n * m), x % (n * m);
    EuclideanDivision(x, n * m);
    EuclideanDivision(w, n);
    assert q * (n * m) == (q * m) * n;
    Distribute(q * m, w / n, n);
    Remainder(x, n, q * m + w / n, w % n);
  }

  /** An accepted slot count leaves room for at most 2^63 slots. */
  lemma SlotCountBound(c: RingConfig)
    requires c.Check()
    ensures 1 <= c.numSlots <= TWO63
  {
    var k := OneBit(c.numSlots);
    PowerOf64();
    if k > 63 {
      PowerGrows(64, k);
    } else {
      PowerGrows(k, 63);
    }
  }

  lemma Stride(i: nat, j: nat, size: nat)
    requires i < j
    ensures 0 <= i * size && i * size + size <= j * size == size * j
  {
    Distribute(j, i, size);
    AtLeastOnce(j - i, size);
  }

  /** First byte of slot `i`, without wrap-around. */
  function Base(c: RingConfig, i: nat): nat {
    HDR + i * c.slotSize
  }

  lemma BaseBounds(c: RingConfig, i: nat)
    requires i < c.numSlots
    ensures HDR <= Base(c, i) && Base(c, i) + c.slotSize <= c.Extent()
  {
    Stride(i, c.numSlots, c.slotSize);
  }

  lemma BasesDisjoint(c: RingConfig, i: nat, j: nat)
    requires i != j
    ensures Base(c, i) + c.slotSize <= Base(c, j) || Base(c, j) + c.slotSize <= Base(c, i)
  {
    if i < j {
      Stride(i, j, c.slotSize);
    } else {
      Stride(j, i, c.slotSize);
    }
  }

  /** Where the slots have room, the computed address is the true one. */
  lemma TrueAddress(c: RingConfig, idx: nat)
    requires c.Check() && c.InMemory()
    ensures c.Sized() && c.Total() == c.Extent()
    ensures idx % c.numSlots < c.numSlots && c.SlotOffset(idx) == Base(c, idx % c.numSlots)
  {
    MaskIsRemainder(c, idx);
    BaseBounds(c, idx % c.numSlots);
  }

  /** If the slots do not end below 2^64, one of the first `n` begins below and does not end there. */
  lemma {:induction false} Straddling(c: RingConfig, n: nat) returns (i: nat)
    requires Base(c, n) >= TWO64
    ensures i < n && Base(c, i) < TWO64 <= Base(c, i) + c.slotSize
  {
    assert n > 0;
    Distribute(n - 1, 1, c.slotSize);
    if Base(c, n - 1) < TWO64 {
      i := n - 1;
    } else {
      i := Straddling(c, n - 1);
    }
  }

  ghost predicate HoldsSlot(c: RingConfig, i: nat)
    requires c.Sized()
  {
    HDR <= c.SlotOffset(i) && c.SlotOffset(i) + c.slotSize <= c.Total()
  }

  /** Every slot lies, as addressed, inside the segment, as allocated, behind the header: exactly if the
      wrapped `total()` is the true one. */
  lemma SlotInSegment(c: RingConfig)
    requires c.Check()
    ensures c.Sized()
    ensures (forall i: nat :: i < c.numSlots ==> HoldsSlot(c, i)) <==> c.InMemory()
  {
    MaskIsRemainder(c, 0);
    if c.InMemory() {
      forall i: nat | i < c.numSlots ensures HoldsSlot(c, i) {
        Remainder(i, c.numSlots, 0, i);
        TrueAddress(c, i);
        BaseBounds(c, i);
      }
    } else {
      assert Base(c, c.numSlots) == c.Extent();
      var i := Straddling(c, c.numSlots);
      Remainder(i, c.numSlots, 0, i);
      MaskIsRemainder(c, i);
      assert !HoldsSlot(c, i);
    }
  }

  /** Two slots, as addressed, either coincide or occupy disjoint byte ranges. */
  lemma SlotsDisjoint(c: RingConfig, a: nat, b: nat)
    requires c.Check() && c.InMemory()
    ensures c.Sized()
    ensures a % c.numSlots == b % c.numSlots ==> c.SlotOffset(a) == c.SlotOffset(b)
    ensures a % c.numSlots != b % c.numSlots ==>
              || c.SlotOffset(a) + c.slotSize <= c.SlotOffset(b)
              || c.SlotOffset(b) + c.slotSize <= c.SlotOffset(a)
  {
    TrueAddress(c, a);
    TrueAddress(c, b);
    if a % c.numSlots != b % c.numSlots {
      BasesDisjoint(c, a % c.numSlots, b % c.numSlots);
    }
  }

  /** Slots of such a size begin at multiples of eight. */
  lemma BaseAligned(c: RingConfig, i: nat)
    requires c.Aligned()
    ensures Base(c, i) % 8 == 0
  {
    var q := c.slotSize / 8;
    assert i * (8 * q) == 8 * (i * q);
  }

  predicate AlignedSlot(c: RingConfig, i: nat)
    requires c.Sized()
  {
    c.SlotOffset(i) % 8 == 0
  }

  /** With two slots or more, every slot, as addressed, begins at a multiple of eight exactly if the slot size
      is one; `check` does not ask for that. */
  lemma SlotsAligned(c: RingConfig)
    requires c.Check() && c.InMemory() && c.numSlots >= 2
    ensures c.Sized()
    ensures (forall i: nat :: i < c.numSlots ==> AlignedSlot(c, i)) <==> c.Aligned()
  {
    MaskIsRemainder(c, 0);
    if c.Aligned() {
      forall i: nat | i < c.numSlots ensures AlignedSlot(c, i) {
        Remainder(i, c.numSlots, 0, i);
        TrueAddress(c, i);
        BaseAligned(c, i);
      }
    } else {
      Remainder(1, c.numSlots, 0, 1);
      TrueAddress(c, 1);
      assert !AlignedSlot(c, 1);
    }
  }
}
