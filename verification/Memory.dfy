/** The byte image of the ring in the shared segment: which words and bytes stand for which part of
    the abstract state, and what a store to one place does to the image. */
module Memory {
  import opened Words
  import opened Geometry
  import opened RingModel

  function Load(m: seq<byte>, offset: nat, width: nat): nat
    requires offset + width <= |m|
  {
    FromLE(m[offset..offset + width])
  }

  function Store(m: seq<byte>, offset: nat, bytes: seq<byte>): (r: seq<byte>)
    requires offset + |bytes| <= |m|
    ensures |r| == |m|
  {
    m[..offset] + bytes + m[offset + |bytes|..]
  }

  /** A store is seen where it was made and nowhere else. */
  lemma StoreHere(m: seq<byte>, offset: nat, bytes: seq<byte>)
    requires offset + |bytes| <= |m|
    ensures Store(m, offset, bytes)[offset..offset + |bytes|] == bytes
  {
  }

  lemma StoreElsewhere(m: seq<byte>, offset: nat, bytes: seq<byte>, a: nat, b: nat)
    requires offset + |bytes| <= |m| && a <= b <= |m|
    requires b <= offset || offset + |bytes| <= a
    ensures Store(m, offset, bytes)[a..b] == m[a..b]
  {
  }

  method StoreBytes(mem: array<byte>, offset: nat, bytes: seq<byte>)
    requires offset + |bytes| <= mem.Length
    modifies mem
    ensures mem[..] == Store(old(mem[..]), offset, bytes)
  {
    forall k | 0 <= k < |bytes| {
      mem[offset + k] := bytes[k];
    }
    assert forall k :: 0 <= k < mem.Length ==> mem[k] == Store(old(mem[..]), offset, bytes)[k];
  }

  /** The slot the code addresses through a wrapped position is the slot of the position. */
  lemma AddressOf(c: RingConfig, pos: nat)
    requires c.Check() && c.InMemory()
    ensures c.Sized() && c.SlotOffset(Wrap64(pos)) == Base(c, Index(c, pos))
    ensures HDR <= c.SlotOffset(Wrap64(pos)) && c.SlotOffset(Wrap64(pos)) + c.slotSize <= c.Total()
  {
    WrappedIndex(c, pos);
    TrueAddress(c, Wrap64(pos));
    BaseBounds(c, Index(c, pos));
  }

  // ----- The image -----

  ghost predicate SlotImage(c: RingConfig, m: seq<byte>, i: nat, slot: Slot)
    requires c.Sized() && |m| == c.Extent() && i < c.numSlots
  {
    BaseBounds(c, i);
    var b := Base(c, i);
    && m[b..b + 8] == ToLE(Wrap64(slot.seqNo), 8)
    && Load(m, b + LEN_OFFSET, 4) == slot.len
    && m[b + SLOT_HDR..b + c.slotSize] == slot.data
  }

  ghost predicate HeaderImage(m: seq<byte>, tail: nat, head: nat, word: u64)
    requires |m| >= HDR
  {
    && m[TAIL_OFFSET..TAIL_OFFSET + 8] == ToLE(Wrap64(tail), 8)
    && m[HEAD_OFFSET..HEAD_OFFSET + 8] == ToLE(Wrap64(head), 8)
    && m[STATE_OFFSET..STATE_OFFSET + 8] == ToLE(word, 8)
  }

  ghost predicate Image(c: RingConfig, m: seq<byte>, s: Ring, word: u64) {
    && c.Sized() && |m| == c.Extent() && |m| >= HDR && |s.slots| == c.numSlots
    && HeaderImage(m, s.tail, s.head, word)
    && forall i: nat :: i < c.numSlots ==> SlotImage(c, m, i, s.slots[i])
  }

  lemma ImageSize(c: RingConfig, m: seq<byte>, s: Ring, word: u64)
    requires Image(c, m, s, word)
    ensures c.Sized() && |m| == c.Extent()
  {
  }

  /** The image depends on the slots and the three header words only. */
  lemma SameImage(c: RingConfig, m: seq<byte>, s: Ring, word: u64, t: Ring)
    requires Image(c, m, s, word)
    requires t.slots == s.slots && t.tail == s.tail && t.head == s.head
    ensures Image(c, m, t, word)
  {
  }

  /** A store inside the header leaves every slot alone. */
  lemma StoreHeader(c: RingConfig, m: seq<byte>, s: Ring, word: u64, offset: nat, x: u64, t: Ring, word': u64)
    requires Image(c, m, s, word) && t.slots == s.slots
    requires || (offset == TAIL_OFFSET && t.head == s.head && word' == word && x == Wrap64(t.tail))
             || (offset == HEAD_OFFSET && t.tail == s.tail && word' == word && x == Wrap64(t.head))
             || (offset == STATE_OFFSET && t.tail == s.tail && t.head == s.head && word' == x)
    ensures offset + 8 <= |m| && Image(c, Store(m, offset, ToLE(x, 8)), t, word')
  {
    var bytes := ToLE(x, 8);
    var r := Store(m, offset, bytes);
    StoreHere(m, offset, bytes);
    if offset != TAIL_OFFSET {
      StoreElsewhere(m, offset, bytes, TAIL_OFFSET, TAIL_OFFSET + 8);
    }
    if offset != HEAD_OFFSET {
      StoreElsewhere(m, offset, bytes, HEAD_OFFSET, HEAD_OFFSET + 8);
    }
    if offset != STATE_OFFSET {
      StoreElsewhere(m, offset, bytes, STATE_OFFSET, STATE_OFFSET + 8);
    }
    forall i: nat | i < c.numSlots ensures SlotImage(c, r, i, t.slots[i]) {
      assert SlotImage(c, m, i, s.slots[i]);
      BaseBounds(c, i);
      SlotUntouched(c, m, i, offset, bytes);
    }
  }

  /** A store outside slot `i` leaves its three fields alone. */
  lemma SlotUntouched(c: RingConfig, m: seq<byte>, i: nat, offset: nat, bytes: seq<byte>)
    requires c.Sized() && i < c.numSlots && |m| == c.Extent() && offset + |bytes| <= |m|
    requires offset + |bytes| <= Base(c, i) || Base(c, i) + c.slotSize <= offset
    ensures Base(c, i) + c.slotSize <= |m|
    ensures var b := Base(c, i); var r := Store(m, offset, bytes);
            && r[b..b + 8] == m[b..b + 8]
            && r[b + LEN_OFFSET..b + LEN_OFFSET + 4] == m[b + LEN_OFFSET..b + LEN_OFFSET + 4]
            && r[b + SLOT_HDR..b + c.slotSize] == m[b + SLOT_HDR..b + c.slotSize]
  {
    BaseBounds(c, i);
    var b := Base(c, i);
    StoreElsewhere(m, offset, bytes, b, b + 8);
    StoreElsewhere(m, offset, bytes, b + LEN_OFFSET, b + LEN_OFFSET + 4);
    StoreElsewhere(m, offset, bytes, b + SLOT_HDR, b + c.slotSize);
  }

  /** A store inside slot `i` leaves the header and every other slot alone. */
  lemma StoreSlot(c: RingConfig, m: seq<byte>, s: Ring, word: u64, i: nat, offset: nat, bytes: seq<byte>, slot: Slot)
    requires Image(c, m, s, word) && i < c.numSlots
    requires Base(c, i) <= offset && offset + |bytes| <= Base(c, i) + c.slotSize
    requires Base(c, i) + c.slotSize <= |m|
    requires SlotImage(c, Store(m, offset, bytes), i, slot)
    ensures Image(c, Store(m, offset, bytes), s.(slots := s.slots[i := slot]), word)
  {
    var r := Store(m, offset, bytes);
    BaseBounds(c, i);
    StoreElsewhere(m, offset, bytes, TAIL_OFFSET, TAIL_OFFSET + 8);
    StoreElsewhere(m, offset, bytes, HEAD_OFFSET, HEAD_OFFSET + 8);
    StoreElsewhere(m, offset, bytes, STATE_OFFSET, STATE_OFFSET + 8);
    var t := s.(slots := s.slots[i := slot]);
    forall k: nat | k < c.numSlots ensures SlotImage(c, r, k, t.slots[k]) {
      if k != i {
        assert SlotImage(c, m, k, s.slots[k]);
        BasesDisjoint(c, i, k);
        SlotUntouched(c, m, k, offset, bytes);
      }
    }
  }

  lemma StoreSlotSeq(c: RingConfig, m: seq<byte>, s: Ring, word: u64, i: nat, seqNo: nat)
    requires Image(c, m, s, word) && i < c.numSlots
    ensures Base(c, i) + c.slotSize <= |m|
    ensures Image(c, Store(m, Base(c, i), ToLE(Wrap64(seqNo), 8)),
                  s.(slots := s.slots[i := s.slots[i].(seqNo := seqNo)]), word)
  {
    BaseBounds(c, i);
    var b, bytes := Base(c, i), ToLE(Wrap64(seqNo), 8);
    assert SlotImage(c, m, i, s.slots[i]);
    StoreHere(m, b, bytes);
    StoreElsewhere(m, b, bytes, b + LEN_OFFSET, b + LEN_OFFSET + 4);
    StoreElsewhere(m, b, bytes, b + SLOT_HDR, b + c.slotSize);
    StoreSlot(c, m, s, word, i, b, bytes, s.slots[i].(seqNo := seqNo));
  }

  lemma StoreSlotLength(c: RingConfig, m: seq<byte>, s: Ring, word: u64, i: nat, len: u32)
    requires Image(c, m, s, word) && i < c.numSlots
    ensures Base(c, i) + c.slotSize <= |m|
    ensures Image(c, Store(m, Base(c, i) + LEN_OFFSET, ToLE(len, 4)),
                  s.(slots := s.slots[i := s.slots[i].(len := len)]), word)
  {
    BaseBounds(c, i);
    LoadStored32(len);
    var b, bytes := Base(c, i), ToLE(len, 4);
    assert SlotImage(c, m, i, s.slots[i]);
    StoreHere(m, b + LEN_OFFSET, bytes);
    StoreElsewhere(m, b + LEN_OFFSET, bytes, b, b + 8);
    StoreElsewhere(m, b + LEN_OFFSET, bytes, b + SLOT_HDR, b + c.slotSize);
    StoreSlot(c, m, s, word, i, b + LEN_OFFSET, bytes, s.slots[i].(len := len));
  }

  lemma StoreSlotByte(c: RingConfig, m: seq<byte>, s: Ring, word: u64, i: nat, k: nat, x: byte)
    requires Image(c, m, s, word) && i < c.numSlots && k < c.PayloadCapacity()
    ensures Base(c, i) + c.slotSize <= |m| && |s.slots[i].data| == c.PayloadCapacity()
    ensures Image(c, Store(m, Base(c, i) + SLOT_HDR + k, [x]),
                  s.(slots := s.slots[i := s.slots[i].(data := s.slots[i].data[k := x])]), word)
  {
    BaseBounds(c, i);
    var b := Base(c, i);
    var r := Store(m, b + SLOT_HDR + k, [x]);
    assert SlotImage(c, m, i, s.slots[i]);
    StoreElsewhere(m, b + SLOT_HDR + k, [x], b, b + 8);
    StoreElsewhere(m, b + SLOT_HDR + k, [x], b + LEN_OFFSET, b + LEN_OFFSET + 4);
    assert r[b + SLOT_HDR..b + c.slotSize] == m[b + SLOT_HDR..b + c.slotSize][k := x];
    StoreSlot(c, m, s, word, i, b + SLOT_HDR + k, [x], s.slots[i].(data := s.slots[i].data[k := x]));
  }

  // ----- Loads -----

  lemma LoadHeader(c: RingConfig, m: seq<byte>, s: Ring, word: u64)
    requires Image(c, m, s, word)
    ensures Load(m, TAIL_OFFSET, 8) == Wrap64(s.tail)
    ensures Load(m, HEAD_OFFSET, 8) == Wrap64(s.head)
    ensures Load(m, STATE_OFFSET, 8) == word
  {
    LoadStored64(Wrap64(s.tail));
    LoadStored64(Wrap64(s.head));
    LoadStored64(word);
  }

  lemma LoadSlot(c: RingConfig, m: seq<byte>, s: Ring, word: u64, i: nat)
    requires Image(c, m, s, word) && i < c.numSlots
    ensures HDR <= Base(c, i) && Base(c, i) + c.slotSize <= |m|
    ensures Load(m, Base(c, i), 8) == Wrap64(s.slots[i].seqNo)
    ensures Load(m, Base(c, i) + LEN_OFFSET, 4) == s.slots[i].len
    ensures |s.slots[i].data| == c.PayloadCapacity()
    ensures forall k: nat :: k < c.PayloadCapacity() ==> m[Base(c, i) + SLOT_HDR + k] == s.slots[i].data[k]
  {
    BaseBounds(c, i);
    var b := Base(c, i);
    assert SlotImage(c, m, i, s.slots[i]);
    LoadStored64(Wrap64(s.slots[i].seqNo));
    forall k: nat | k < c.PayloadCapacity() ensures m[b + SLOT_HDR + k] == s.slots[i].data[k] {
      assert m[b + SLOT_HDR..b + c.slotSize][k] == m[b + SLOT_HDR + k];
    }
  }

  /** One slot in its own bytes. */
  predicate SlotLaidOut(bytes: seq<byte>, slot: Slot) {
    && |bytes| >= 16
    && FromLE(bytes[0..8]) == Wrap64(slot.seqNo) && FromLE(bytes[8..12]) == slot.len && bytes[16..] == slot.data
  }

  /** The layout in numbers: tail, head and state word at 0, 64 and 128; slot `i` at 192 + i * slot_size, with
      the sequence number at 0, the length at 8 in four bytes, and the payload area from 16 to its end. */
  lemma Layout(c: RingConfig, m: seq<byte>, s: Ring, word: u64, i: nat)
    requires Image(c, m, s, word) && i < c.numSlots
    ensures 192 + (i + 1) * c.slotSize <= |m|
    ensures FromLE(m[0..8]) == Wrap64(s.tail) && FromLE(m[64..72]) == Wrap64(s.head) && FromLE(m[128..136]) == word
    ensures SlotLaidOut(m[192 + i * c.slotSize..192 + (i + 1) * c.slotSize], s.slots[i])
  {
    hide FromLE, ToLE;
    LoadHeader(c, m, s, word);
    LoadSlot(c, m, s, word, i);
    assert SlotImage(c, m, i, s.slots[i]);
    var b := 192 + i * c.slotSize;
    assert b == Base(c, i) && b + c.slotSize == 192 + (i + 1) * c.slotSize;
    var bytes := m[b..b + c.slotSize];
    assert bytes[0..8] == m[b..b + 8] && bytes[8..12] == m[b + 8..b + 12] && bytes[16..] == m[b + 16..b + c.slotSize];
  }
}
