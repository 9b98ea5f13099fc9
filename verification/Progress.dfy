/** Progress of ring and wake-up protocol together: from every reachable state there is a finite
    schedule that delivers everything, with the park timeout disabled, no spurious CAS failure, and
    the writer tasks running only while their producer awaits, as on a single-threaded runtime. */
module Progress {
  import opened Words
  import opened Geometry
  import opened RingModel
  import opened RingInvariant
  import opened Sums
  import opened System
  import opened SystemInvariant
  import opened Wakeup
  import opened Statistics
  import opened Rely

  /** Actions the schedule may use. */
  predicate Quiet(s: System, a: Action) {
    && !a.ParkTimeout?
    && !(a.Access? && a.step.CasTail? && a.step.spurious)
    && (a.WriterRecv? || a.WriterSend? || a.WriterExit? ==>
          a.j < |s.producers| && s.producers[a.j].stage.AtAwait())
  }

  ghost predicate QuietRun(c: Setup, s: System, actions: seq<Action>, t: System)
    requires Wired(c, s)
    decreases |actions|
  {
    if actions == [] then s == t
    else && CanAct(c, s, actions[0]) && Quiet(s, actions[0])
         && QuietRun(c, Act(c, s, actions[0]), actions[1..], t)
  }

  lemma {:induction false} QuietRunExecutes(c: Setup, s: System, actions: seq<Action>, t: System)
    requires Wired(c, s) && QuietRun(c, s, actions, t)
    ensures Executes(c, s, actions, t)
    decreases |actions|
  {
    if actions != [] {
      QuietRunExecutes(c, Act(c, s, actions[0]), actions[1..], t);
    }
  }

  lemma {:induction false} QuietConcat(c: Setup, s: System, xs: seq<Action>, t: System, ys: seq<Action>, u: System)
    requires Wired(c, s) && QuietRun(c, s, xs, t) && Wired(c, t) && QuietRun(c, t, ys, u)
    ensures QuietRun(c, s, xs + ys, u)
    decreases |xs|
  {
    hide Act, CanAct;
    if xs == [] {
      assert xs + ys == ys;
    } else {
      QuietConcat(c, Act(c, s, xs[0]), xs[1..], t, ys, u);
      QuietPrepend(c, s, xs[0], xs[1..] + ys, u);
      assert xs + ys == [xs[0]] + (xs[1..] + ys);
    }
  }

  lemma QuietPrepend(c: Setup, s: System, a: Action, xs: seq<Action>, t: System)
    requires Wired(c, s) && CanAct(c, s, a) && Quiet(s, a) && QuietRun(c, Act(c, s, a), xs, t)
    ensures QuietRun(c, s, [a] + xs, t)
  {
    assert ([a] + xs)[1..] == xs;
  }

  // ----- What can be delivered at all -----

  /** How many events at the front of `events` a slot can take: a producer stops at the first one that is
      too long. */
  function FitCount(c: RingConfig, events: seq<seq<byte>>): (n: nat)
    requires c.Sized()
    ensures n <= |events|
    ensures forall i :: 0 <= i < n ==> |events[i]| <= c.MaxPayload()
    ensures n < |events| ==> |events[n]| > c.MaxPayload()
  {
    if events == [] || |events[0]| > c.MaxPayload() then 0 else 1 + FitCount(c, events[1..])
  }

  /** The events each producer can deliver. */
  function Accepted(c: Setup): (xss: seq<seq<seq<byte>>>)
    requires c.ring.Sized()
    ensures |xss| == |c.work|
    ensures forall j :: 0 <= j < |xss| ==> xss[j] == c.work[j][..FitCount(c.ring, c.work[j])]
  {
    seq(|c.work|, j requires 0 <= j < |c.work| => c.work[j][..FitCount(c.ring, c.work[j])])
  }

  ghost predicate LogFits(c: RingConfig, log: seq<Entry>) {
    c.Sized() && forall i :: 0 <= i < |log| ==> |log[i].data| <= c.MaxPayload()
  }

  lemma {:induction false} OwnDataFits(c: RingConfig, log: seq<Entry>, j: nat)
    requires LogFits(c, log)
    ensures forall i :: 0 <= i < |OwnData(log, j)| ==> |OwnData(log, j)[i]| <= c.MaxPayload()
  {
    if log != [] {
      OwnDataFits(c, log[..|log| - 1], j);
    }
  }

  /** What is known of a reachable state apart from the wake-up protocol. */
  ghost predicate Sane(c: Setup, s: System) {
    Sound(c.ring) && SystemInv(c, s) && StatInv(c, s) && LogFits(c.ring, s.ring.log)
  }

  /** Everything known of a reachable state. */
  ghost predicate Good(c: Setup, s: System) {
    Sane(c, s) && WakeInv(c, s)
  }

  lemma SaneStep(c: Setup, s: System, a: Action)
    requires Sane(c, s) && CanAct(c, s, a)
    ensures Sane(c, Act(c, s, a))
  {
    ActInv(c, s, a);
    StatStep(c, s, a);
    hide SystemInv, StatInv;
    LogFitsStep(c, s, a);
  }

  lemma LogFitsStep(c: Setup, s: System, a: Action)
    requires SystemInv(c, s) && LogFits(c.ring, s.ring.log) && CanAct(c, s, a)
    ensures LogFits(c.ring, Act(c, s, a).ring.log)
  {
    assert Wired(c, s);
    if a.Access? {
      if IsPushStep(a.step) {
        assert ProducerInv(c.ring, s.ring, a.step.j);
        PushFrame(c.ring, s.ring, a.step);
      } else {
        PopFrame(c.ring, s.ring, a.step);
      }
      hide SystemInv, Inv, Do;
    } else {
      hide SystemInv, Inv;
      LogOfOthers(c, s, a);
    }
  }

  lemma GoodStep(c: Setup, s: System, a: Action)
    requires Good(c, s) && CanAct(c, s, a)
    ensures Good(c, Act(c, s, a))
  {
    SaneStep(c, s, a);
    WakeStep(c, s, a);
  }

  lemma {:induction false} GoodRun(c: Setup, s: System, actions: seq<Action>, t: System)
    requires Good(c, s) && QuietRun(c, s, actions, t)
    ensures Good(c, t)
    decreases |actions|
  {
    if actions != [] {
      GoodStep(c, s, actions[0]);
      hide Act, CanAct, Sane, WakeInv;
      GoodRun(c, Act(c, s, actions[0]), actions[1..], t);
    }
  }

  /** Actions that are not the consumer's freeing store leave the published head where it is. */
  lemma HeadStays(c: Setup, s: System, a: Action)
    requires Sane(c, s) && CanAct(c, s, a) && HeadPublished(c, s) && a != Access(FreeSlot)
    ensures HeadPublished(c, Act(c, s, a)) && Freed(Act(c, s, a).ring) == Freed(s.ring)
  {
    var t := Act(c, s, a);
    if a.Access? {
      PublishedPersists(c.ring, s.ring, a.step, Freed(s.ring));
    } else {
      assert t.ring.slots == s.ring.slots && t.ring.log == s.ring.log;
      assert t.ring.head == s.ring.head && t.ring.consumer.AtAdvance? == s.ring.consumer.AtAdvance?;
    }
  }

  // ----- Finishing the head -----

  /** Writes still missing before the owner of the head publishes it. */
  function HeadWork(s: System): nat
    requires Freed(s.ring) < |s.ring.log|
  {
    var o := s.ring.log[Freed(s.ring)].owner;
    if o >= |s.ring.producers| then 0
    else match s.ring.producers[o]
         case AtLength(data, _) => |data| + 2
         case AtBytes(data, _, k) => if k <= |data| then |data| - k + 1 else 0
         case _ => 0
  }

  function HeadMove(s: System): Action
    requires Freed(s.ring) < |s.ring.log|
  {
    var o := s.ring.log[Freed(s.ring)].owner;
    Access(if o < |s.ring.producers| && s.ring.producers[o].AtLength? then StoreLength(o)
           else if HeadWork(s) > 1 then CopyIn(o) else Publish(o))
  }

  lemma HeadMoves(c: Setup, s: System)
    requires Sane(c, s) && Freed(s.ring) < |s.ring.log| && !HeadPublished(c, s)
    ensures var a := HeadMove(s);
            CanAct(c, s, a) && Quiet(s, a) &&
            (var t := Act(c, s, a);
             && Freed(t.ring) == Freed(s.ring) && t.ring.log == s.ring.log
             && (HeadPublished(c, t) || HeadWork(t) < HeadWork(s)))
  {
    var h := Freed(s.ring);
    assert SlotInv(c.ring, s.ring, h);
    var o := s.ring.log[h].owner;
    assert ProducerInv(c.ring, s.ring, o) && ProducerOk(c, s, o);
    hide Inv, SystemInv, StatInv, OwnData;
  }

  /** The owner of an unpublished head brings it to publication. */
  lemma {:induction false} PublishTheHead(c: Setup, s: System) returns (xs: seq<Action>, t: System)
    requires Sane(c, s) && Freed(s.ring) < |s.ring.log| && !HeadPublished(c, s)
    ensures Sane(c, t) && QuietRun(c, s, xs, t)
    ensures HeadPublished(c, t) && Freed(t.ring) == Freed(s.ring) && |t.ring.log| == |s.ring.log|
    decreases HeadWork(s)
  {
    HeadMoves(c, s);
    var a := HeadMove(s);
    var u := Act(c, s, a);
    SaneStep(c, s, a);
    hide Act, HeadWork, HeadMove;
    if HeadPublished(c, u) {
      xs, t := [], u;
    } else {
      xs, t := PublishTheHead(c, u);
    }
    QuietPrepend(c, s, a, xs, t);
    xs := [a] + xs;
  }

  // ----- Taking the head -----

  function ConsumerRank(s: System): nat
    requires Freed(s.ring) < |s.ring.log|
  {
    var d := |s.ring.log[Freed(s.ring)].data|;
    if s.consumer.loop.Drain? || s.consumer.loop.Recheck? then
      match s.ring.consumer
      case AtHeadBytes(_, len, out) => if |out| <= len then len - |out| else 0
      case AtHeadLength(_) => d + 1
      case AtHeadSeq(_) => d + 2
      case AtHead => d + 3
      case AtAdvance(_, _) => d + 8
      case NotPopping => 0
    else
      match s.consumer.loop
      case Top => d + 4
      case Parking => d + 4
      case Waking => d + 5
      case CountBytes(_, _) => d + 5
      case CountEvent(_, _) => d + 6
      case Rescued(_) => d + 7
      case _ => 0
  }

  function ConsumerMove(s: System): Action {
    if s.consumer.loop.Drain? || s.consumer.loop.Recheck? then
      Access(match s.ring.consumer
             case AtHeadBytes(_, len, out) => if |out| < len then CopyOut else FreeSlot
             case AtHeadLength(_) => LoadLength
             case AtHeadSeq(_) => LoadHeadSeq
             case AtHead => LoadHead
             case AtAdvance(_, _) => AdvanceHead
             case NotPopping => LoadHead)
    else
      match s.consumer.loop
      case Top => StartDrain
      case Parking => StoreParked
      case CountBytes(_, _) => CountLength
      case CountEvent(_, _) => CountOne
      case _ => StoreRunning
  }

  lemma ConsumerMoves(c: Setup, s: System)
    requires Sane(c, s) && HeadPublished(c, s) && !s.consumer.loop.Parked?
    ensures Wired(c, s)
    ensures var a := ConsumerMove(s);
            CanAct(c, s, a) && Quiet(s, a) && By(a, ConsumerThread) &&
            (a != Access(FreeSlot) ==>
               var t := Act(c, s, a);
               && !t.consumer.loop.Parked? && t.ring.tail == s.ring.tail
               && Freed(t.ring) < |t.ring.log| && ConsumerRank(t) < ConsumerRank(s))
  {
    if s.consumer.loop.Drain? || s.consumer.loop.Recheck? {
      PopMoves(c, s);
    } else {
      LoopMoves(c, s);
    }
  }

  lemma PopMoves(c: Setup, s: System)
    requires Sane(c, s) && HeadPublished(c, s) && (s.consumer.loop.Drain? || s.consumer.loop.Recheck?)
    ensures var a := ConsumerMove(s);
            CanAct(c, s, a) && Quiet(s, a) && By(a, ConsumerThread) &&
            (a != Access(FreeSlot) ==>
               var t := Act(c, s, a);
               && !t.consumer.loop.Parked? && t.ring.tail == s.ring.tail
               && Freed(t.ring) < |t.ring.log| && ConsumerRank(t) < ConsumerRank(s))
  {
    hide DoPush, StatInv, Produce, Convey, Consume, ProducerInv;
    assert SlotInv(c.ring, s.ring, Freed(s.ring));
    assert ConsumerInv(c.ring, s.ring);
    hide SystemInv, Inv;
  }

  lemma LoopMoves(c: Setup, s: System)
    requires Sane(c, s) && HeadPublished(c, s)
    requires !s.consumer.loop.Drain? && !s.consumer.loop.Recheck? && !s.consumer.loop.Parked?
    ensures var a := ConsumerMove(s);
            CanAct(c, s, a) && Quiet(s, a) && !a.Access? && By(a, ConsumerThread) &&
            (var t := Act(c, s, a);
             && !t.consumer.loop.Parked? && t.ring.tail == s.ring.tail
             && Freed(t.ring) < |t.ring.log| && ConsumerRank(t) < ConsumerRank(s))
  {
  }

  lemma FreeTakes(c: Setup, s: System)
    requires Sane(c, s) && CanAct(c, s, Access(FreeSlot))
    ensures var t := Act(c, s, Access(FreeSlot));
            && Freed(t.ring) == Freed(s.ring) + 1 && t.ring.tail == s.ring.tail
            && t.ring.consumer.AtAdvance? && !t.consumer.loop.Parked?
  {
    hide StatInv, DoPush;
  }

  /** All the actions are the consumer's. */
  ghost predicate ConsumerOnly(xs: seq<Action>) {
    forall i :: 0 <= i < |xs| ==> By(xs[i], ConsumerThread)
  }

  lemma OnlyNone()
    ensures ConsumerOnly([])
  {
  }

  lemma OnlyPrepend(a: Action, xs: seq<Action>)
    requires By(a, ConsumerThread) && ConsumerOnly(xs)
    ensures ConsumerOnly([a] + xs)
  {
  }

  /** A consumer that is not parked takes out the published head. */
  lemma {:induction false} TakeTheHead(c: Setup, s: System) returns (xs: seq<Action>, t: System)
    requires Sane(c, s) && HeadPublished(c, s) && !s.consumer.loop.Parked?
    ensures Sane(c, t) && QuietRun(c, s, xs, t)
    ensures Freed(t.ring) == Freed(s.ring) + 1 && t.ring.tail == s.ring.tail
    ensures ConsumerOnly(xs) && t.ring.consumer.AtAdvance? && !t.consumer.loop.Parked?
    decreases ConsumerRank(s)
  {
    hide Act, CanAct, Sane, By, ConsumerOnly, ConsumerRank, ConsumerMove;
    ConsumerMoves(c, s);
    var a := ConsumerMove(s);
    var u := Act(c, s, a);
    SaneStep(c, s, a);
    if a == Access(FreeSlot) {
      FreeTakes(c, s);
      OnlyNone();
      xs, t := [], u;
    } else {
      HeadStays(c, s, a);
      xs, t := TakeTheHead(c, u);
    }
    QuietPrepend(c, s, a, xs, t);
    OnlyPrepend(a, xs);
    xs := [a] + xs;
  }

  // ----- Running one producer -----

  /** The producer has no move of its own, or awaits. */
  predicate Idle(stage: Stage) {
    stage.AtAwait() || stage.Failed? || stage.Gone?
  }

  /** Moves of producer `j` until it wins a position or reaches an await point. */
  function ProducerRank(c: Setup, s: System, j: nat): nat
    requires j < |s.producers| && j < |s.ring.producers|
  {
    match s.producers[j].stage
    case Rejected => 1
    case Ready => 6
    case NextEvent => 7
    case Signalling(_) => 8
    case Posting(_) => 9
    case Pushing => (
      match s.ring.producers[j]
      case AtTail(_) => 3
      case AtSeq(_, pos) => if pos == s.ring.tail then 2 else 5
      case AtCas(_, pos) => if pos == s.ring.tail then 1 else 4
      case AtLength(data, _) => |data| + 11
      case AtBytes(data, _, k) => if k <= |data| then |data| - k + 10 else 0
      case NotPushing => 0)
    case _ => 0
  }

  function ProducerMove(c: Setup, s: System, j: nat): Action
    requires j < |s.producers| && j < |s.ring.producers| && j < |c.work|
  {
    match s.producers[j].stage
    case NextEvent => if s.producers[j].event < |c.work[j]| then Encode(j) else Close(j)
    case Ready => EnterPush(j)
    case Rejected => Drop(j)
    case Signalling(_) => Signal(j)
    case Posting(_) => PostCas(j)
    case _ => Access(
      match s.ring.producers[j]
      case AtTail(_) => LoadTail(j)
      case AtSeq(_, _) => LoadSeq(j)
      case AtCas(_, _) => CasTail(j, false)
      case AtLength(_, _) => StoreLength(j)
      case AtBytes(data, _, k) => if k < |data| then CopyIn(j) else Publish(j)
      case NotPushing => LoadTail(j))
  }

  /** What an action of producer `j` leaves alone. */
  ghost predicate ProducerFrame(s: System, t: System, j: nat)
    requires |s.producers| == |s.links| == |t.producers| == |t.links|
  {
    && t.consumer == s.consumer && t.token == s.token
    && t.ring.consumer == s.ring.consumer && t.ring.head == s.ring.head
    && s.ring.tail <= t.ring.tail
    && (forall i: nat :: i < |s.links| && i != j ==> t.links[i] == s.links[i] && t.producers[i] == s.producers[i])
  }

  lemma StageMoves(c: Setup, s: System, j: nat)
    requires Sane(c, s) && j < |s.producers|
    requires !Idle(s.producers[j].stage) && !s.producers[j].stage.Pushing?
    ensures var a := ProducerMove(c, s, j);
            CanAct(c, s, a) && Quiet(s, a) &&
            (var t := Act(c, s, a);
             && ProducerFrame(s, t, j) && t.ring.tail == s.ring.tail
             && ProducerRank(c, t, j) < ProducerRank(c, s, j))
  {
    assert ProducerOk(c, s, j);
    hide DoAccess, Convey, Consume, Inv, SystemInv, StatInv, LogFits, OwnData;
  }

  lemma WriteMoves(c: Setup, s: System, j: nat)
    requires Sane(c, s) && j < |s.producers| && s.ring.producers[j].Writing()
    ensures var a := ProducerMove(c, s, j);
            CanAct(c, s, a) && Quiet(s, a) &&
            (var t := Act(c, s, a);
             && ProducerFrame(s, t, j) && t.ring.tail == s.ring.tail
             && ProducerRank(c, t, j) < ProducerRank(c, s, j))
  {
    assert ProducerOk(c, s, j) && ProducerInv(c.ring, s.ring, j);
  }

  lemma SearchMoves(c: Setup, s: System, j: nat)
    requires Sane(c, s) && j < |s.producers| && s.producers[j].stage.Pushing? && !s.ring.producers[j].Writing()
    ensures var a := ProducerMove(c, s, j);
            CanAct(c, s, a) && Quiet(s, a) &&
            (var t := Act(c, s, a);
             && ProducerFrame(s, t, j)
             && (t.ring.tail == s.ring.tail ==> ProducerRank(c, t, j) < ProducerRank(c, s, j)))
  {
    hide DoPop, Produce, Consume, Convey, StatInv, OwnData;
    assert ProducerOk(c, s, j) && ProducerInv(c.ring, s.ring, j);
    if s.ring.producers[j].AtSeq? {
      SeqVerdict(c.ring, s.ring, j);
    }
    hide Inv, SystemInv;
  }

  lemma ProducerMoves(c: Setup, s: System, j: nat)
    requires Sane(c, s) && j < |s.producers| && !Idle(s.producers[j].stage)
    ensures var a := ProducerMove(c, s, j);
            CanAct(c, s, a) && Quiet(s, a) &&
            (var t := Act(c, s, a);
             && ProducerFrame(s, t, j)
             && (t.ring.tail == s.ring.tail ==> ProducerRank(c, t, j) < ProducerRank(c, s, j)))
  {
    assert ProducerOk(c, s, j);
    if s.ring.producers[j].Writing() {
      WriteMoves(c, s, j);
    } else if s.producers[j].stage.Pushing? {
      SearchMoves(c, s, j);
    } else {
      StageMoves(c, s, j);
    }
  }

  // ----- Waking the consumer -----

  /** No producer fails after it has pushed something: each one's events fit all, or already the first does
      not. */
  predicate AllOrNothing(c: Setup)
    requires c.ring.Sized()
  {
    forall j :: 0 <= j < |c.work| ==> FitCount(c.ring, c.work[j]) == 0 || FitCount(c.ring, c.work[j]) == |c.work[j]|
  }

  /** Then a producer that fails has never signalled. */
  lemma FailedHasNotSignalled(c: Setup, s: System, j: nat)
    requires Sane(c, s) && AllOrNothing(c) && j < |s.producers|
    requires var stage := s.producers[j].stage; stage.Rejected? || stage.Failed? || stage.Gone?
    ensures s.links[j].signalled == []
  {
    assert ProducerOk(c, s, j) && LinkOk(c, s, j);
    ReservedFits(c, s, j);
    assert FitCount(c.ring, c.work[j]) == 0;
  }

  /** Then no signal is ever lost. */
  lemma NeverLost(c: Setup, s: System)
    requires Sane(c, s) && AllOrNothing(c)
    ensures !Lost(s)
  {
    forall j: nat | j < |s.links| ensures s.links[j].lost == [] {
      assert LinkOk(c, s, j);
      if s.producers[j].stage.Gone? {
        FailedHasNotSignalled(c, s, j);
      }
    }
  }

  /** Distance of the signal of producer `j` from the unpark call. */
  function SignalRank(c: Setup, s: System, j: nat): nat
    requires j < |s.producers| && j < |s.links| && j < |s.ring.producers|
  {
    var l := s.links[j];
    if l.reader.Unparking? then 1
    else if l.reader.Counting? then 2
    else if l.socket != [] then 3
    else if l.writer.Holding? then 4 + ProducerRank(c, s, j)
    else 5 + ProducerRank(c, s, j)
  }

  function SignalMove(c: Setup, s: System, j: nat): Action
    requires j < |s.producers| && j < |s.links| && j < |s.ring.producers| && j < |c.work|
  {
    var l := s.links[j];
    if l.reader.Unparking? then Unpark(j)
    else if l.reader.Counting? then CountPosted(j)
    else if l.socket != [] then ReadLine(j)
    else if !Idle(s.producers[j].stage) then ProducerMove(c, s, j)
    else if l.writer.Holding? then WriterSend(j)
    else WriterRecv(j)
  }

  lemma SignalMoves(c: Setup, s: System, j: nat)
    requires Good(c, s) && AllOrNothing(c) && j < |s.producers| && Busy(s, j)
    ensures Wired(c, s)
    ensures var a := SignalMove(c, s, j);
            CanAct(c, s, a) && Quiet(s, a) && a != Access(FreeSlot) &&
            (var t := Act(c, s, a);
             && t.consumer == s.consumer && s.ring.tail <= t.ring.tail
             && (t.token || t.ring.tail > s.ring.tail || SignalRank(c, t, j) < SignalRank(c, s, j)))
  {
    assert LinkOk(c, s, j) && ProducerOk(c, s, j);
    var l := s.links[j];
    if l.reader.Unparking? || l.reader.Counting? || l.socket != [] || Idle(s.producers[j].stage) {
      LineMoves(c, s, j);
    } else {
      ProducerMoves(c, s, j);
      LineUnderProducer(c, s, j);
    }
  }

  lemma LineMoves(c: Setup, s: System, j: nat)
    requires Good(c, s) && AllOrNothing(c) && j < |s.producers| && Busy(s, j)
    requires var l := s.links[j];
             l.reader.Unparking? || l.reader.Counting? || l.socket != [] || Idle(s.producers[j].stage)
    ensures var a := SignalMove(c, s, j);
            CanAct(c, s, a) && Quiet(s, a) && IsLinkAction(a) &&
            (var t := Act(c, s, a);
             && t.consumer == s.consumer && s.ring == t.ring
             && (t.token || SignalRank(c, t, j) < SignalRank(c, s, j)))
  {
    assert LinkOk(c, s, j) && ProducerOk(c, s, j);
    if !s.producers[j].stage.AtAwait() && Idle(s.producers[j].stage) {
      FailedHasNotSignalled(c, s, j);
    }
    hide Inv, SystemInv, WakeInv, StatInv, LogFits, FitCount, OwnData;
  }

  /** A producer's own actions only ever add to its channel or close it. */
  lemma LineUnderProducer(c: Setup, s: System, j: nat)
    requires Sane(c, s) && j < |s.producers| && CanAct(c, s, ProducerMove(c, s, j))
    requires !Idle(s.producers[j].stage)
    ensures var l, m := s.links[j], Act(c, s, ProducerMove(c, s, j)).links[j];
            m.writer == l.writer && m.socket == l.socket && m.reader == l.reader
  {
    assert Wired(c, s);
    hide Do, Sane;
  }

  /** While the consumer is parked over a published head, a signal on its way arrives as the token
      (unless another message is reserved first). */
  lemma {:induction false} DeliverSignal(c: Setup, s: System, j: nat) returns (xs: seq<Action>, t: System)
    requires Good(c, s) && AllOrNothing(c) && HeadPublished(c, s) && j < |s.producers| && Busy(s, j)
    ensures Good(c, t) && QuietRun(c, s, xs, t)
    ensures t.ring.tail >= s.ring.tail && Freed(t.ring) == Freed(s.ring)
    ensures t.ring.tail == s.ring.tail ==> t.token && HeadPublished(c, t) && t.consumer == s.consumer
    decreases SignalRank(c, s, j)
  {
    hide Act, CanAct, SignalRank, SignalMove, SystemInv, StatInv, LogFits, WakeInv, Busy, AllOrNothing;
    SignalMoves(c, s, j);
    var a := SignalMove(c, s, j);
    var u := Act(c, s, a);
    GoodStep(c, s, a);
    HeadStays(c, s, a);
    BusyPersists(c, s, a, j);
    NeverLost(c, u);
    if u.token || u.ring.tail > s.ring.tail {
      xs, t := [], u;
    } else {
      xs, t := DeliverSignal(c, u, j);
    }
    QuietPrepend(c, s, a, xs, t);
    xs := [a] + xs;
  }

  /** A parked consumer over a published head wakes up, without the timeout. */
  lemma WakeConsumer(c: Setup, s: System) returns (xs: seq<Action>, t: System)
    requires Good(c, s) && AllOrNothing(c) && HeadPublished(c, s) && s.consumer.loop.Parked?
    ensures Good(c, t) && QuietRun(c, s, xs, t)
    ensures t.ring.tail >= s.ring.tail && Freed(t.ring) == Freed(s.ring)
    ensures t.ring.tail == s.ring.tail ==> HeadPublished(c, t) && t.consumer.loop.Waking?
  {
    if s.token {
      var u := Act(c, s, ParkReturn);
      GoodStep(c, s, ParkReturn);
      HeadStays(c, s, ParkReturn);
      xs, t := [], u;
      QuietPrepend(c, s, ParkReturn, xs, t);
      xs := [ParkReturn] + xs;
    } else {
      var ys, u := TokenArrives(c, s);
      if u.ring.tail > s.ring.tail {
        xs, t := ys, u;
      } else {
        t := Act(c, u, ParkReturn);
        GoodStep(c, u, ParkReturn);
        HeadStays(c, u, ParkReturn);
        QuietPrepend(c, u, ParkReturn, [], t);
        QuietConcat(c, s, ys, u, [ParkReturn], t);
        xs := ys + [ParkReturn];
      }
    }
  }

  lemma TokenArrives(c: Setup, s: System) returns (xs: seq<Action>, t: System)
    requires Good(c, s) && AllOrNothing(c) && HeadPublished(c, s) && s.consumer.loop.Parked? && !s.token
    ensures Good(c, t) && QuietRun(c, s, xs, t)
    ensures t.ring.tail >= s.ring.tail && Freed(t.ring) == Freed(s.ring)
    ensures t.ring.tail == s.ring.tail ==> t.token && HeadPublished(c, t) && t.consumer == s.consumer
  {
    NeverLost(c, s);
    if j: nat :| j < |s.producers| && Busy(s, j) {
      xs, t := DeliverSignal(c, s, j);
    } else {
      assert s.word == PARKED && OwnerPosting(s);
      var o := s.ring.log[Freed(s.ring)].owner;
      var a := PostCas(o);
      var u := Act(c, s, a);
      GoodStep(c, s, a);
      HeadStays(c, s, a);
      xs, t := DeliverSignal(c, u, o);
      QuietPrepend(c, s, a, xs, t);
      xs := [a] + xs;
    }
  }

  // ----- Producing -----

  /** With the ring empty, a producer that has events left wins the next position. */
  lemma {:induction false} ReserveNext(c: Setup, s: System, j: nat) returns (xs: seq<Action>, t: System)
    requires Sane(c, s) && Freed(s.ring) == s.ring.tail && j < |s.producers|
    requires ReservedBy(s, j) < FitCount(c.ring, c.work[j])
    ensures Sane(c, t) && QuietRun(c, s, xs, t)
    ensures t.ring.tail > s.ring.tail && Freed(t.ring) == Freed(s.ring)
    decreases if s.producers[j].stage.Sleeping? then 4 else ProducerRank(c, s, j)
  {
    HasWorkMoves(c, s, j);
    var a := if s.producers[j].stage.Sleeping? then EnterPush(j) else ProducerMove(c, s, j);
    var u := Act(c, s, a);
    SaneStep(c, s, a);
    if u.ring.tail > s.ring.tail {
      xs, t := [], u;
    } else {
      xs, t := ReserveNext(c, u, j);
    }
    QuietPrepend(c, s, a, xs, t);
    xs := [a] + xs;
  }

  lemma HasWorkMoves(c: Setup, s: System, j: nat)
    requires Sane(c, s) && Freed(s.ring) == s.ring.tail && j < |s.producers|
    requires ReservedBy(s, j) < FitCount(c.ring, c.work[j])
    ensures var a := if s.producers[j].stage.Sleeping? then EnterPush(j) else ProducerMove(c, s, j);
            CanAct(c, s, a) && Quiet(s, a) &&
            (var t := Act(c, s, a);
             && Freed(t.ring) == Freed(s.ring)
             && (t.ring.tail > s.ring.tail ||
                 (t.ring.tail == s.ring.tail && !t.producers[j].stage.Sleeping? &&
                  ReservedBy(t, j) < FitCount(c.ring, c.work[j]) &&
                  ProducerRank(c, t, j) < (if s.producers[j].stage.Sleeping? then 4 else ProducerRank(c, s, j)))))
  {
    assert ProducerOk(c, s, j);
    hide DoAccess, Convey, Consume, StatInv, Inv, LogFits, OwnData;
    if !s.producers[j].stage.Sleeping? {
      hide Produce, ProducerRank, ProducerMove, SystemInv;
      ProducerMoves(c, s, j);
      StillHasWork(c, s, j);
    }
  }

  /** On an empty ring `push` does not answer Full, and the producer's work does not shrink unless it
      wins a position. */
  lemma StillHasWork(c: Setup, s: System, j: nat)
    requires Sane(c, s) && Freed(s.ring) == s.ring.tail && j < |s.producers|
    requires !Idle(s.producers[j].stage) && ReservedBy(s, j) < FitCount(c.ring, c.work[j])
    requires CanAct(c, s, ProducerMove(c, s, j))
    ensures var t := Act(c, s, ProducerMove(c, s, j));
            t.ring.tail == s.ring.tail ==>
              !t.producers[j].stage.Sleeping? && ReservedBy(t, j) < FitCount(c.ring, c.work[j])
  {
    assert ProducerOk(c, s, j);
    if s.producers[j].stage.Pushing? {
      SearchingHasWork(c, s, j);
    } else {
      StagesHaveWork(c, s, j);
    }
  }

  lemma SearchingHasWork(c: Setup, s: System, j: nat)
    requires Sane(c, s) && Freed(s.ring) == s.ring.tail && j < |s.producers|
    requires s.producers[j].stage.Pushing? && ReservedBy(s, j) < FitCount(c.ring, c.work[j])
    requires CanAct(c, s, ProducerMove(c, s, j))
    ensures var t := Act(c, s, ProducerMove(c, s, j));
            t.ring.tail == s.ring.tail ==>
              !t.producers[j].stage.Sleeping? && ReservedBy(t, j) < FitCount(c.ring, c.work[j])
  {
    hide DoPop, Produce, Consume, Convey, StatInv, OwnData;
    assert ProducerOk(c, s, j) && ProducerInv(c.ring, s.ring, j);
    if s.ring.producers[j].AtSeq? {
      SeqVerdict(c.ring, s.ring, j);
    }
    hide Inv, SystemInv;
  }

  lemma StagesHaveWork(c: Setup, s: System, j: nat)
    requires Sane(c, s) && j < |s.producers|
    requires !Idle(s.producers[j].stage) && !s.producers[j].stage.Pushing?
    requires ReservedBy(s, j) < FitCount(c.ring, c.work[j]) && CanAct(c, s, ProducerMove(c, s, j))
    ensures var t := Act(c, s, ProducerMove(c, s, j));
            !t.producers[j].stage.Sleeping? && ReservedBy(t, j) < FitCount(c.ring, c.work[j])
  {
    hide DoAccess, Consume, Convey, StatInv, Inv, OwnData;
    assert ProducerOk(c, s, j);
  }

  // ----- Everything -----

  lemma ReservedFits(c: Setup, s: System, j: nat)
    requires Sane(c, s) && j < |c.work|
    ensures ReservedBy(s, j) <= FitCount(c.ring, c.work[j])
    ensures OwnData(s.ring.log, j) == c.work[j][..ReservedBy(s, j)]
  {
    assert ProducerOk(c, s, j);
    OwnDataFits(c.ring, s.ring.log, j);
    forall i | 0 <= i < ReservedBy(s, j) ensures |c.work[j][i]| <= c.ring.MaxPayload() {
      assert c.work[j][i] == OwnData(s.ring.log, j)[i];
    }
  }

  lemma SaneOwners(c: Setup, s: System)
    requires Sane(c, s)
    ensures forall i :: 0 <= i < |s.ring.log| ==> s.ring.log[i].owner < |c.work|
  {
  }

  lemma AcceptedBound(c: Setup, s: System)
    requires Sane(c, s)
    ensures |s.ring.log| <= Sum(Lengths(Accepted(c)))
    ensures |s.ring.log| == Sum(Lengths(Accepted(c))) ==> Shares(s.ring.log, |c.work|) == Accepted(c)
  {
    hide SystemInv, StatInv, LogFits, FitCount;
    SaneOwners(c, s);
    var shares, accepted := Shares(s.ring.log, |c.work|), Accepted(c);
    HistoryIsShared(s.ring.log, |c.work|);
    forall j | 0 <= j < |c.work| ensures shares[j] <= accepted[j] {
      ReservedFits(c, s, j);
    }
    SumAtMost(Lengths(shares), Lengths(accepted));
    if |s.ring.log| == Sum(Lengths(accepted)) {
      forall j | 0 <= j < |c.work| ensures shares[j] == accepted[j] {
        assert Lengths(shares)[j] == Lengths(accepted)[j];
      }
    }
  }

  lemma AllReserved(c: Setup, s: System)
    requires Sane(c, s)
    requires forall i: nat :: i < |s.producers| ==> ReservedBy(s, i) >= FitCount(c.ring, c.work[i])
    ensures |s.ring.log| == Sum(Lengths(Accepted(c)))
  {
    var shares, accepted := Shares(s.ring.log, |c.work|), Accepted(c);
    HistoryIsShared(s.ring.log, |c.work|);
    forall i: nat | i < |c.work| ensures Lengths(shares)[i] == Lengths(accepted)[i] {
      ReservedFits(c, s, i);
    }
    assert Lengths(shares) == Lengths(accepted);
  }

  lemma SomeoneHasWork(c: Setup, s: System) returns (j: nat)
    requires Sane(c, s) && |s.ring.log| < Sum(Lengths(Accepted(c)))
    ensures j < |s.producers| && ReservedBy(s, j) < FitCount(c.ring, c.work[j])
  {
    if forall i: nat :: i < |s.producers| ==> ReservedBy(s, i) >= FitCount(c.ring, c.work[i]) {
      AllReserved(c, s);
    }
    j :| j < |s.producers| && ReservedBy(s, j) < FitCount(c.ring, c.work[j]);
  }

  /** The consumer has freed a slot and not yet moved `head`. */
  predicate JustFreed(s: System) {
    s.ring.consumer.AtAdvance? && !s.consumer.loop.Parked?
  }

  lemma {:induction false} FinishAll(c: Setup, s: System) returns (xs: seq<Action>, t: System)
    requires Good(c, s) && AllOrNothing(c)
    ensures Good(c, t) && QuietRun(c, s, xs, t)
    ensures |t.ring.popped| == Sum(Lengths(Accepted(c)))
    ensures if Freed(s.ring) == Sum(Lengths(Accepted(c))) then t == s else JustFreed(t)
    decreases Sum(Lengths(Accepted(c))) - s.ring.tail, s.ring.tail - Freed(s.ring),
              if Freed(s.ring) == s.ring.tail || HeadPublished(c, s) then 0 else 1,
              if s.consumer.loop.Parked? then 1 else 0
  {
    hide WakeInv, StatInv, LogFits, Lengths, Accepted;
    AcceptedBound(c, s);
    if Freed(s.ring) == s.ring.tail == Sum(Lengths(Accepted(c))) {
      xs, t := [], s;
    } else {
      var ys, u;
      if Freed(s.ring) == s.ring.tail {
        var j := SomeoneHasWork(c, s);
        ys, u := ReserveNext(c, s, j);
      } else if !HeadPublished(c, s) {
        ys, u := PublishTheHead(c, s);
      } else if s.consumer.loop.Parked? {
        ys, u := WakeConsumer(c, s);
      } else {
        ys, u := TakeTheHead(c, s);
      }
      GoodRun(c, s, ys, u);
      AcceptedBound(c, u);
      var zs;
      zs, t := FinishAll(c, u);
      QuietConcat(c, s, ys, u, zs, t);
      xs := ys + zs;
    }
  }

  lemma {:induction false} ExecutionFits(c: Setup, s: System, actions: seq<Action>, t: System)
    requires Sound(c.ring) && SystemInv(c, s) && LogFits(c.ring, s.ring.log) && Executes(c, s, actions, t)
    ensures LogFits(c.ring, t.ring.log)
    decreases |actions|
  {
    if actions != [] {
      LogFitsStep(c, s, actions[0]);
      ActInv(c, s, actions[0]);
      hide Act, CanAct, SystemInv;
      ExecutionFits(c, Act(c, s, actions[0]), actions[1..], t);
    }
  }

  /** Deadlock freedom, in its strong form: whatever has happened so far, the system can still
      deliver every event of every producer (up to the first that no slot can take), using no timeout, no
      luck with the weak CAS, and no writer step outside its producer's await points. */
  lemma NoDeadlock(c: Setup, s: System) returns (xs: seq<Action>, t: System)
    requires Sound(c.ring) && AllOrNothing(c) && Occurs(c, s) && Wired(c, s)
    ensures QuietRun(c, s, xs, t) && Occurs(c, t)
    ensures |t.ring.popped| == Sum(Lengths(Accepted(c)))
    ensures if |s.ring.popped| == Sum(Lengths(Accepted(c))) then t == s else JustFreed(t)
    ensures Shares(t.ring.log, |c.work|) == Accepted(c)
    ensures t.ring.popped == Data(t.ring.log)
  {
    hide Act, CanAct, Lengths, Accepted, AllOrNothing, JustFreed;
    OccursStats(c, s);
    var s0, before :| Starts(c, s0) && Executes(c, s0, before, s);
    StartsInv(c, s0);
    ExecutionWake(c, s0, before, s);
    ExecutionFits(c, s0, before, s);
    xs, t := FinishAll(c, s);
    AcceptedBound(c, t);
    assert t.ring.popped == Data(t.ring.log);
    QuietRunExecutes(c, s, xs, t);
    ExecutionsJoin(c, s0, before, s, xs, t);
  }

  // ----- The counters at the end -----

  /** Every event fits, and none is empty. */
  predicate AllFit(c: Setup)
    requires c.ring.Sized()
  {
    forall j :: 0 <= j < |c.work| ==> FitCount(c.ring, c.work[j]) == |c.work[j]|
  }

  predicate NoneEmpty(c: Setup) {
    forall j, i :: 0 <= j < |c.work| && 0 <= i < |c.work[j]| ==> c.work[j][i] != []
  }

  /** The failing side of `EndOfRun` is reached: from every reachable state with messages left, if all events
      fit and none is empty, the run can come to a point where `events` has its final value and `wire_bytes`
      has not. */
  lemma BytesLagAtTheEnd(c: Setup, s: System) returns (t: System)
    requires Sound(c.ring) && AllFit(c) && NoneEmpty(c) && Occurs(c, s)
    requires |s.ring.popped| < Sum(Lengths(c.work))
    ensures Occurs(c, t) && t.consumer.events == Sum(Lengths(c.work))
    ensures t.consumer.wireBytes != Sum(ProducedBytes(t))
  {
    AllAccepted(c);
    OccursInv(c, s);
    var xs, u := NoDeadlock(c, s);
    t := CountLast(c, u);
    LastIsNotEmpty(c, t);
    EndOfRun(c, t);
  }

  lemma AllAccepted(c: Setup)
    requires c.ring.Sized() && AllFit(c)
    ensures Accepted(c) == c.work && AllOrNothing(c)
  {
    forall j | 0 <= j < |c.work| ensures Accepted(c)[j] == c.work[j] {
    }
  }

  lemma OneMore(c: Setup, s: System, a: Action)
    requires Occurs(c, s) && Wired(c, s) && CanAct(c, s, a)
    ensures Occurs(c, Act(c, s, a))
  {
    var s0, xs :| Starts(c, s0) && Executes(c, s0, xs, s);
    ExecutionExtends(c, s0, xs, s, a);
  }

  /** The consumer goes on until it has counted the message but not its bytes. */
  lemma CountLast(c: Setup, s: System) returns (t: System)
    requires Sound(c.ring) && Occurs(c, s) && JustFreed(s)
    ensures Occurs(c, t) && t.consumer.loop.CountBytes? && t.ring.popped == s.ring.popped
  {
    OccursInv(c, s);
    hide Act, CanAct, SystemInv, Occurs, JustFreed;
    HeadCatchesUp(c, s);
    OneMore(c, s, Access(AdvanceHead));
    var u := Act(c, s, Access(AdvanceHead));
    if u.consumer.loop.Rescued? {
      WithdrawFirst(c, u);
      OneMore(c, u, StoreRunning);
      u := Act(c, u, StoreRunning);
    }
    CountFirst(c, u);
    OneMore(c, u, CountOne);
    t := Act(c, u, CountOne);
  }

  lemma HeadCatchesUp(c: Setup, s: System)
    requires SystemInv(c, s) && JustFreed(s)
    ensures Wired(c, s) && CanAct(c, s, Access(AdvanceHead))
    ensures var t := Act(c, s, Access(AdvanceHead));
            Wired(c, t) && t.ring.popped == s.ring.popped && (t.consumer.loop.Rescued? || t.consumer.loop.CountEvent?)
  {
    assert Wired(c, s) && ConsumerOk(s);
    hide SystemInv, DoPush, Produce, Convey, Consume;
  }

  lemma WithdrawFirst(c: Setup, s: System)
    requires Wired(c, s) && s.consumer.loop.Rescued?
    ensures CanAct(c, s, StoreRunning)
    ensures var t := Act(c, s, StoreRunning); Wired(c, t) && t.ring == s.ring && t.consumer.loop.CountEvent?
  {
    hide Do;
  }

  lemma CountFirst(c: Setup, s: System)
    requires Wired(c, s) && s.consumer.loop.CountEvent?
    ensures CanAct(c, s, CountOne)
    ensures var t := Act(c, s, CountOne); Wired(c, t) && t.ring == s.ring && t.consumer.loop.CountBytes?
  {
    hide Do;
  }

  lemma LastIsNotEmpty(c: Setup, s: System)
    requires Sound(c.ring) && Occurs(c, s) && s.consumer.loop.CountBytes? && NoneEmpty(c)
    ensures s.consumer.loop.buf != [] && s.consumer.events == |s.ring.popped|
  {
    OccursStats(c, s);
    var n := |s.ring.popped|;
    assert s.ring.popped[n - 1] == s.ring.log[n - 1].data == s.consumer.loop.buf;
    var o := s.ring.log[n - 1].owner;
    assert ProducerOk(c, s, o);
    InOwnData(s.ring.log, n - 1);
  }

  lemma {:induction false} InOwnData(log: seq<Entry>, p: nat)
    requires p < |log|
    ensures log[p].data in OwnData(log, log[p].owner)
  {
    var last := |log| - 1;
    if p == last {
      var xs := OwnData(log[..last], log[p].owner);
      assert (xs + [log[p].data])[|xs|] == log[p].data;
    } else {
      InOwnData(log[..last], p);
    }
  }
}
