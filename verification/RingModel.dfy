/** The ring as a small-step transition system: one step per atomic access, one step per
    payload byte copied, any number of producers and the single consumer, interleaved freely
    (sequentially consistent memory). Counters are unbounded here; `Words` and `Segment`
    connect them to the wrapping 64-bit words in memory. */
module RingModel {
  import opened Words
  import opened Geometry

  /** One reservation: who won position |log| and what it is going to write there. */
  datatype Entry = Entry(owner: nat, data: seq<byte>)

  /** `data` is the whole payload area of the slot, `len` its length field. */
  datatype Slot = Slot(seqNo: nat, len: nat, data: seq<byte>)

  /** Where one producer stands inside `push`; each constructor names the next access. */
  datatype PushPc =
    | NotPushing
    | AtTail(data: seq<byte>)
    | AtSeq(data: seq<byte>, pos: nat)
    | AtCas(data: seq<byte>, pos: nat)
    | AtLength(data: seq<byte>, pos: nat)
    | AtBytes(data: seq<byte>, pos: nat, copied: nat)  // all copied: the publishing store is next
  {
    /** The position is won and not yet published: this producer may write to the slot. */
    predicate Writing() {
      AtLength? || AtBytes?
    }
  }

  /** Where the consumer stands inside `try_pop`. */
  datatype PopPc =
    | NotPopping
    | AtHead
    | AtHeadSeq(head: nat)
    | AtHeadLength(head: nat)
    | AtHeadBytes(head: nat, len: nat, out: seq<byte>)  // all copied: the freeing store is next
    | AtAdvance(head: nat, out: seq<byte>)

  /** `log` is the history of reservations in `tail` order; `popped` the payloads taken out. */
  datatype Ring = Ring(
    tail: nat, head: nat, slots: seq<Slot>,
    producers: seq<PushPc>, consumer: PopPc,
    log: seq<Entry>, popped: seq<seq<byte>>)

  datatype Step =
    | CallPush(j: nat, data: seq<byte>)
    | LoadTail(j: nat)
    | LoadSeq(j: nat)
    | CasTail(j: nat, spurious: bool)
    | StoreLength(j: nat)
    | CopyIn(j: nat)
    | Publish(j: nat)
    | CallPop
    | LoadHead
    | LoadHeadSeq
    | LoadLength
    | CopyOut
    | FreeSlot
    | AdvanceHead

  predicate IsPushStep(step: Step) {
    step.CallPush? || step.LoadTail? || step.LoadSeq? || step.CasTail? ||
    step.StoreLength? || step.CopyIn? || step.Publish?
  }

  /** Is this a step of producer `i`? */
  predicate ByProducer(step: Step, i: nat) {
    IsPushStep(step) && step.j == i
  }

  // ----- State access -----

  function Index(c: RingConfig, pos: nat): (i: nat)
    requires c.Sized()
    ensures i < c.numSlots
  {
    pos % c.numSlots
  }

  predicate Shape(c: RingConfig, s: Ring) {
    && c.Sized()
    && |s.slots| == c.numSlots
    && forall i :: 0 <= i < |s.slots| ==> |s.slots[i].data| == c.PayloadCapacity()
  }

  function SlotAt(c: RingConfig, s: Ring, pos: nat): Slot
    requires c.Sized() && |s.slots| == c.numSlots
  {
    s.slots[Index(c, pos)]
  }

  function SetSlot(c: RingConfig, s: Ring, pos: nat, slot: Slot): Ring
    requires c.Sized() && |s.slots| == c.numSlots
  {
    s.(slots := s.slots[Index(c, pos) := slot])
  }

  function SetPc(s: Ring, j: nat, pc: PushPc): Ring
    requires j < |s.producers|
  {
    s.(producers := s.producers[j := pc])
  }

  /** The logical head: the stored one, plus the slot already freed but not yet counted. */
  function Freed(s: Ring): nat {
    if s.consumer.AtAdvance? then s.head + 1 else s.head
  }

  /** The payloads of a stretch of history. */
  function Data(log: seq<Entry>): (r: seq<seq<byte>>)
    ensures |r| == |log|
    ensures forall i :: 0 <= i < |r| ==> r[i] == log[i].data
  {
    seq(|log|, i requires 0 <= i < |log| => log[i].data)
  }

  // ----- Initial state -----

  /** The state `init` leaves behind, whatever the lengths and payload areas hold. */
  ghost predicate Initial(c: RingConfig, s: Ring) {
    && Shape(c, s)
    && s.tail == 0 && s.head == 0
    && (forall i :: 0 <= i < |s.slots| ==> s.slots[i].seqNo == i)
    && (forall j :: 0 <= j < |s.producers| ==> s.producers[j] == NotPushing)
    && s.consumer == NotPopping
    && s.log == [] && s.popped == []
  }

  // ----- Steps -----

  predicate Enabled(c: RingConfig, s: Ring, step: Step)
    requires Shape(c, s)
  {
    if IsPushStep(step) then
      && step.j < |s.producers|
      && var pc := s.producers[step.j];
      match step
      case CallPush(_, data) => pc.NotPushing? && |data| <= c.MaxPayload()
      case LoadTail(_) => pc.AtTail?
      case LoadSeq(_) => pc.AtSeq?
      case CasTail(_, _) => pc.AtCas?
      case StoreLength(_) => pc.AtLength?
      case CopyIn(_) => pc.AtBytes? && pc.copied < |pc.data| && pc.copied < c.PayloadCapacity()
      case Publish(_) => pc.AtBytes? && pc.copied == |pc.data|
      case _ => false
    else
      match step
      case CallPop => s.consumer.NotPopping?
      case LoadHead => s.consumer.AtHead?
      case LoadHeadSeq => s.consumer.AtHeadSeq?
      case LoadLength => s.consumer.AtHeadLength?
      case CopyOut => s.consumer.AtHeadBytes? && |s.consumer.out| < s.consumer.len &&
                      |s.consumer.out| < c.PayloadCapacity()
      case FreeSlot => s.consumer.AtHeadBytes? && |s.consumer.out| == s.consumer.len
      case AdvanceHead => s.consumer.AtAdvance?
      case _ => false
  }

  /** What a producer reads in its slot, compared with its position (line 104 and below). */
  predicate SeesFull(c: RingConfig, s: Ring, step: Step)
    requires Shape(c, s) && Enabled(c, s, step)
  {
    && step.LoadSeq?
    && var pc := s.producers[step.j];
    SlotAt(c, s, pc.pos).seqNo < pc.pos
  }

  predicate WinsCas(s: Ring, step: Step) {
    && step.CasTail?
    && step.j < |s.producers|
    && s.producers[step.j].AtCas?
    && !step.spurious
    && s.tail == s.producers[step.j].pos
  }

  predicate SeesNone(c: RingConfig, s: Ring, step: Step)
    requires Shape(c, s) && Enabled(c, s, step)
  {
    && step.LoadHeadSeq?
    && SlotAt(c, s, s.consumer.head).seqNo != s.consumer.head + 1
  }

  function DoPush(c: RingConfig, s: Ring, step: Step): Ring
    requires Shape(c, s) && Enabled(c, s, step) && IsPushStep(step)
  {
    var j := step.j;
    var pc := s.producers[j];
    match step
    case CallPush(_, data) => SetPc(s, j, AtTail(data))
    case LoadTail(_) => SetPc(s, j, AtSeq(pc.data, s.tail))
    case LoadSeq(_) =>
      var q := SlotAt(c, s, pc.pos).seqNo;
      if q == pc.pos then SetPc(s, j, AtCas(pc.data, pc.pos))
      else if q < pc.pos then SetPc(s, j, NotPushing)
      else SetPc(s, j, AtTail(pc.data))
    case CasTail(_, spurious) =>
      if !spurious && s.tail == pc.pos then
        SetPc(s, j, AtLength(pc.data, pc.pos)).(tail := s.tail + 1, log := s.log + [Entry(j, pc.data)])
      else SetPc(s, j, AtTail(pc.data))
    case StoreLength(_) =>
      var slot := SlotAt(c, s, pc.pos);
      SetPc(SetSlot(c, s, pc.pos, slot.(len := Truncate32(|pc.data|))), j, AtBytes(pc.data, pc.pos, 0))
    case CopyIn(_) =>
      var slot := SlotAt(c, s, pc.pos);
      var k := pc.copied;
      SetPc(SetSlot(c, s, pc.pos, slot.(data := slot.data[k := pc.data[k]])), j, AtBytes(pc.data, pc.pos, k + 1))
    case Publish(_) =>
      var slot := SlotAt(c, s, pc.pos);
      SetPc(SetSlot(c, s, pc.pos, slot.(seqNo := pc.pos + 1)), j, NotPushing)
  }

  function DoPop(c: RingConfig, s: Ring, step: Step): Ring
    requires Shape(c, s) && Enabled(c, s, step) && !IsPushStep(step)
  {
    var pc := s.consumer;
    match step
    case CallPop => s.(consumer := AtHead)
    case LoadHead => s.(consumer := AtHeadSeq(s.head))
    case LoadHeadSeq =>
      if SlotAt(c, s, pc.head).seqNo != pc.head + 1 then s.(consumer := NotPopping)
      else s.(consumer := AtHeadLength(pc.head))
    case LoadLength => s.(consumer := AtHeadBytes(pc.head, SlotAt(c, s, pc.head).len, []))
    case CopyOut =>
      var k := |pc.out|;
      s.(consumer := AtHeadBytes(pc.head, pc.len, pc.out + [SlotAt(c, s, pc.head).data[k]]))
    case FreeSlot =>
      var slot := SlotAt(c, s, pc.head);
      SetSlot(c, s, pc.head, slot.(seqNo := pc.head + c.numSlots))
        .(consumer := AtAdvance(pc.head, pc.out), popped := s.popped + [pc.out])
    case AdvanceHead => s.(consumer := NotPopping, head := pc.head + 1)
  }

  function Do(c: RingConfig, s: Ring, step: Step): (t: Ring)
    requires Shape(c, s) && Enabled(c, s, step)
    ensures Shape(c, t) && |t.producers| == |s.producers|
  {
    if IsPushStep(step) then DoPush(c, s, step) else DoPop(c, s, step)
  }

  /** What a producer's step leaves alone, and how it changes the history. */
  lemma PushFrame(c: RingConfig, s: Ring, step: Step)
    requires Shape(c, s) && Enabled(c, s, step) && IsPushStep(step)
    ensures var t := Do(c, s, step);
            && t.consumer == s.consumer && t.head == s.head && t.popped == s.popped
            && (forall i :: 0 <= i < |s.producers| && i != step.j ==> t.producers[i] == s.producers[i])
            && t.log == (if WinsCas(s, step) then s.log + [Entry(step.j, s.producers[step.j].data)] else s.log)
            && t.tail == (if WinsCas(s, step) then s.tail + 1 else s.tail)
  {
  }

  /** What the consumer's step leaves alone. */
  lemma PopFrame(c: RingConfig, s: Ring, step: Step)
    requires Shape(c, s) && Enabled(c, s, step) && !IsPushStep(step)
    ensures var t := Do(c, s, step);
            && t.producers == s.producers && t.log == s.log && t.tail == s.tail
            && (!step.FreeSlot? ==> t.slots == s.slots && t.popped == s.popped)
  {
  }

  // ----- Runs -----

  /** `steps` is a schedule that takes `s` to `t`. */
  ghost predicate Runs(c: RingConfig, s: Ring, steps: seq<Step>, t: Ring)
    requires Shape(c, s)
    decreases |steps|
  {
    if steps == [] then s == t
    else Enabled(c, s, steps[0]) && Runs(c, Do(c, s, steps[0]), steps[1..], t)
  }

  ghost predicate Reachable(c: RingConfig, t: Ring) {
    exists s, steps :: Initial(c, s) && Runs(c, s, steps, t)
  }
}
