/** The park/wake handshake when the consumer's store of PARKED may wait in a store buffer, as a Release
    store (src/server.rs:95) may: a wake-up can then be missed, and the park timeout always makes up for it. */
module StoreBuffer {
  import opened Words
  import opened Geometry
  import opened RingModel
  import opened RingInvariant
  import opened System
  import opened SystemInvariant
  import opened Wakeup
  import opened Statistics
  import opened Progress
  import opened Rely
  import opened Idling
  import opened LateWakeups
  import opened Failures
  import opened Schedules

  /** `held`: the consumer has executed its store of PARKED, and no one else can see it yet. */
  datatype Buffered = Buffered(sys: System, held: bool)

  datatype Move = Plain(a: Action) | HoldParked | Show

  /** Stores of the consumer to shared memory: they leave the buffer in order, so none passes a held one. */
  predicate ConsumerStores(a: Action) {
    a.StoreParked? || a.StoreRunning? || (a.Access? && (a.step.FreeSlot? || a.step.AdvanceHead?))
  }

  predicate CanMove(c: Setup, b: Buffered, m: Move)
    requires Wired(c, b.sys)
  {
    match m
    case Plain(a) => CanAct(c, b.sys, a) && (b.held ==> !ConsumerStores(a))
    case HoldParked => !b.held && CanAct(c, b.sys, StoreParked)
    case Show => b.held
  }

  function Moved(c: Setup, b: Buffered, m: Move): (d: Buffered)
    requires Wired(c, b.sys) && CanMove(c, b, m)
    ensures Wired(c, d.sys)
  {
    match m
    case Plain(a) => b.(sys := Act(c, b.sys, a))
    case HoldParked => Buffered(Act(c, b.sys, StoreParked).(word := b.sys.word), true)
    case Show => Buffered(b.sys.(word := PARKED), false)
  }

  ghost predicate Moves(c: Setup, b: Buffered, ms: seq<Move>, d: Buffered)
    requires Wired(c, b.sys)
    decreases |ms|
  {
    if ms == [] then b == d
    else CanMove(c, b, ms[0]) && Moves(c, Moved(c, b, ms[0]), ms[1..], d)
  }

  lemma {:induction false} MovesJoin(c: Setup, b: Buffered, xs: seq<Move>, d: Buffered, ys: seq<Move>, e: Buffered)
    requires Wired(c, b.sys) && Moves(c, b, xs, d) && Wired(c, d.sys) && Moves(c, d, ys, e)
    ensures Moves(c, b, xs + ys, e)
    decreases |xs|
  {
    hide CanMove, Moved;
    if xs == [] {
      assert xs + ys == ys;
    } else {
      MovesJoin(c, Moved(c, b, xs[0]), xs[1..], d, ys, e);
      assert (xs + ys)[1..] == xs[1..] + ys;
    }
  }

  function Plains(actions: seq<Action>): (ms: seq<Move>)
    ensures |ms| == |actions|
  {
    seq(|actions|, i requires 0 <= i < |actions| => Plain(actions[i]))
  }

  /** A run of the sequentially consistent system is a run with the buffer as it is, if it contains no store
      that would have to wait. */
  lemma {:induction false} Lift(c: Setup, b: Buffered, actions: seq<Action>, t: System)
    requires Wired(c, b.sys) && Executes(c, b.sys, actions, t)
    requires b.held ==> forall i :: 0 <= i < |actions| ==> !ConsumerStores(actions[i])
    ensures Moves(c, b, Plains(actions), Buffered(t, b.held))
    decreases |actions|
  {
    hide Act, CanAct, ConsumerStores;
    if actions != [] {
      var a := actions[0];
      assert CanMove(c, b, Plain(a));
      Lift(c, b.(sys := Act(c, b.sys, a)), actions[1..], t);
      assert Plains(actions)[1..] == Plains(actions[1..]);
    }
  }

  lemma OneMove(c: Setup, b: Buffered, m: Move)
    requires Wired(c, b.sys) && CanMove(c, b, m)
    ensures Moves(c, b, [m], Moved(c, b, m))
  {
  }

  // ----- What still holds -----

  /** The ring is as safe as before; only the state word may lag. */
  ghost predicate BufferedInv(c: Setup, b: Buffered) {
    && Sane(c, b.sys)
    && (b.held ==> var loop := b.sys.consumer.loop; loop.Recheck? || loop.Parked? || loop.Waking?)
  }

  lemma SameButWord(c: Setup, s: System, w: u64)
    requires Sane(c, s) && (w == RUNNING || w == PARKED)
    requires w == PARKED ==> var loop := s.consumer.loop; loop.Recheck? || loop.Parked? || loop.Waking?
    ensures Sane(c, s.(word := w))
  {
    var t := s.(word := w);
    forall j: nat | j < |t.producers| ensures ProducerOk(c, t, j) && EncodedOk(c, t, j) {
      assert ProducerOk(c, s, j) && EncodedOk(c, s, j);
    }
    forall j: nat | j < |t.links| ensures LinkOk(c, t, j) {
      assert LinkOk(c, s, j);
    }
    hide ProducerOk, EncodedOk, LinkOk, Inv, LogFits;
  }

  lemma MoveInv(c: Setup, b: Buffered, m: Move)
    requires BufferedInv(c, b) && Wired(c, b.sys) && CanMove(c, b, m)
    ensures BufferedInv(c, Moved(c, b, m))
  {
    match m
    case Plain(a) =>
      SaneStep(c, b.sys, a);
      if b.held {
        HeldStays(c, b.sys, a);
      }
    case HoldParked =>
      SaneStep(c, b.sys, StoreParked);
      WordBeforeParking(c, b.sys);
      SameButWord(c, Act(c, b.sys, StoreParked), b.sys.word);
    case Show =>
      SameButWord(c, b.sys, PARKED);
  }

  lemma WordBeforeParking(c: Setup, s: System)
    requires Sane(c, s) && CanAct(c, s, StoreParked)
    ensures s.word == RUNNING && Act(c, s, StoreParked).consumer.loop.Recheck?
  {
    hide Do, Inv, StatInv, LogFits;
  }

  lemma HeldStays(c: Setup, s: System, a: Action)
    requires Wired(c, s) && CanAct(c, s, a) && !ConsumerStores(a)
    requires s.consumer.loop.Recheck? || s.consumer.loop.Parked? || s.consumer.loop.Waking?
    ensures var loop := Act(c, s, a).consumer.loop; loop.Recheck? || loop.Parked? || loop.Waking?
  {
    hide Do;
  }

  ghost predicate BufferedOccurs(c: Setup, d: Buffered) {
    exists s: System, ms ::
      Wired(c, s) && Starts(c, s) && Moves(c, Buffered(s, false), ms, d)
  }

  lemma {:induction false} MovesInv(c: Setup, b: Buffered, ms: seq<Move>, d: Buffered)
    requires BufferedInv(c, b) && Wired(c, b.sys) && Moves(c, b, ms, d)
    ensures BufferedInv(c, d) && Wired(c, d.sys)
    decreases |ms|
  {
    if ms != [] {
      MoveInv(c, b, ms[0]);
      hide CanMove, Moved, BufferedInv;
      MovesInv(c, Moved(c, b, ms[0]), ms[1..], d);
    }
  }

  lemma OccursBuffered(c: Setup, d: Buffered)
    requires Sound(c.ring) && BufferedOccurs(c, d)
    ensures BufferedInv(c, d) && Wired(c, d.sys)
  {
    var s, ms :| Wired(c, s) && Starts(c, s) && Moves(c, Buffered(s, false), ms, d);
    StartsInv(c, s);
    assert BufferedInv(c, Buffered(s, false));
    MovesInv(c, Buffered(s, false), ms, d);
  }

  // ----- With a fence, nothing is missed -----

  /** The consumer, looking again, answers None while its store of PARKED is still unseen. A fence between
      src/server.rs:95 and :96 rules this out. */
  predicate LooksUnseen(c: Setup, b: Buffered, m: Move)
    requires Wired(c, b.sys) && CanMove(c, b, m)
  {
    b.held && m == Plain(Access(LoadHeadSeq)) && SeesNone(c.ring, b.sys.ring, LoadHeadSeq)
  }

  ghost predicate Fenced(c: Setup, b: Buffered, ms: seq<Move>, d: Buffered)
    requires Wired(c, b.sys) && Moves(c, b, ms, d)
    decreases |ms|
  {
    ms != [] ==> !LooksUnseen(c, b, ms[0]) && Fenced(c, Moved(c, b, ms[0]), ms[1..], d)
  }

  /** While the store is held the consumer is still looking; once it is seen, the wake-up invariant holds. */
  ghost predicate BufferedWake(c: Setup, b: Buffered)
    requires Wired(c, b.sys)
  {
    if b.held then b.sys.consumer.loop.Recheck? else WakeInv(c, b.sys)
  }

  lemma StaysLooking(c: Setup, s: System, a: Action)
    requires SystemInv(c, s) && CanAct(c, s, a) && s.consumer.loop.Recheck? && !ConsumerStores(a)
    requires a == Access(LoadHeadSeq) ==> !SeesNone(c.ring, s.ring, LoadHeadSeq)
    ensures Wired(c, s) && Act(c, s, a).consumer.loop.Recheck?
  {
    assert Wired(c, s);
    hide Do, SystemInv;
  }

  lemma FencedStep(c: Setup, b: Buffered, m: Move)
    requires BufferedInv(c, b) && Wired(c, b.sys) && BufferedWake(c, b) && CanMove(c, b, m) && !LooksUnseen(c, b, m)
    ensures BufferedWake(c, Moved(c, b, m))
  {
    match m
    case Plain(a) =>
      if b.held {
        StaysLooking(c, b.sys, a);
      } else {
        WakeStep(c, b.sys, a);
      }
    case HoldParked => WordBeforeParking(c, b.sys);
    case Show =>
  }

  lemma {:induction false} FencedRun(c: Setup, b: Buffered, ms: seq<Move>, d: Buffered)
    requires BufferedInv(c, b) && Wired(c, b.sys) && BufferedWake(c, b) && Moves(c, b, ms, d) && Fenced(c, b, ms, d)
    ensures BufferedInv(c, d) && Wired(c, d.sys) && BufferedWake(c, d)
    decreases |ms|
  {
    if ms != [] {
      FencedStep(c, b, ms[0]);
      MoveInv(c, b, ms[0]);
      hide CanMove, Moved, BufferedInv, BufferedWake, LooksUnseen;
      FencedRun(c, Moved(c, b, ms[0]), ms[1..], d);
    }
  }

  /** In every run in which the look taken after the store of PARKED never answers None while that store is
      unseen, no wake-up is missed: a consumer parked over a published head has a wake-up pending, or its
      publisher will find PARKED (or a process has taken a signal with it). */
  lemma FencedIsSafe(c: Setup, s: System, ms: seq<Move>, d: Buffered)
    requires Sound(c.ring) && Wired(c, s) && Starts(c, s)
    requires Moves(c, Buffered(s, false), ms, d) && Fenced(c, Buffered(s, false), ms, d)
    ensures Wired(c, d.sys)
    ensures d.sys.consumer.loop.Parked? ==> !d.held
    ensures Watched(c, d.sys) || Lost(d.sys)
    ensures AllOrNothing(c) ==> Watched(c, d.sys)
  {
    StartsInv(c, s);
    FencedRun(c, Buffered(s, false), ms, d);
    if AllOrNothing(c) {
      NeverLost(c, d.sys);
    }
  }

  // ----- Without it, one can be missed -----

  /** There is something to miss: a reservation not delivered, or a producer with an event to push. */
  ghost predicate SomethingLeft(c: Setup, s: System)
    requires Wired(c, s)
  {
    Freed(s.ring) < s.ring.tail || exists j: nat :: j < |s.producers| && HasMore(c, s, j)
  }

  predicate HasMore(c: Setup, s: System, j: nat)
    requires Wired(c, s) && j < |s.producers|
  {
    ReservedBy(s, j) < FitCount(c.ring, c.work[j])
  }

  /** The consumer sleeps over a published head and nobody will wake it, though everybody sees PARKED. */
  ghost predicate Missed(c: Setup, d: Buffered)
    requires Wired(c, d.sys)
  {
    !d.held && d.sys.consumer.loop.Parked? && HeadPublished(c, d.sys) && !Watched(c, d.sys)
  }

  lemma {:induction false} NoConsumerStores(actions: seq<Action>)
    requires forall i :: 0 <= i < |actions| ==> !By(actions[i], ConsumerThread)
    ensures forall i :: 0 <= i < |actions| ==> !ConsumerStores(actions[i])
  {
    forall i | 0 <= i < |actions| ensures !ConsumerStores(actions[i]) {
      assert !By(actions[i], ConsumerThread);
    }
  }

  /** A quiet run leaves a stranded consumer alone. */
  lemma {:induction false} QuietAround(c: Setup, s: System, actions: seq<Action>, t: System)
    requires Sane(c, s) && Wired(c, s) && Stranded(s) && QuietRun(c, s, actions, t)
    ensures Sane(c, t) && Wired(c, t) && Stranded(t)
    ensures forall i :: 0 <= i < |actions| ==> !By(actions[i], ConsumerThread)
    decreases |actions|
  {
    if actions != [] {
      var a := actions[0];
      StrandedStep(c, s, a);
      SaneStep(c, s, a);
      hide Act, CanAct, Sane, Stranded, By;
      QuietAround(c, Act(c, s, a), actions[1..], t);
      assert forall i :: 0 < i < |actions| ==> actions[i] == actions[1..][i - 1];
    }
  }

  /** With the consumer asleep and PARKED unseen, the next publication is missed. */
  lemma MissWhileStranded(c: Setup, b: Buffered) returns (ms: seq<Move>, d: Buffered)
    requires BufferedInv(c, b) && b.held && Wired(c, b.sys) && Stranded(b.sys) && SomethingLeft(c, b.sys)
    ensures Moves(c, b, ms, d) && Wired(c, d.sys) && Missed(c, d)
  {
    var xs, s := PublishAround(c, b.sys);
    var ys, t := PostAround(c, s);
    hide Act, CanAct, Sane, Stranded, Moved;
    ExecutionsJoin(c, b.sys, xs, s, ys, t);
    NoConsumerStores(xs);
    NoConsumerStores(ys);
    Lift(c, b, xs + ys, t);
    d := Buffered(t.(word := PARKED), false);
    ShowMisses(c, t);
    MovesJoin(c, b, Plains(xs + ys), Buffered(t, true), [Show], d);
    ms := Plains(xs + ys) + [Show];
  }

  lemma ShowMisses(c: Setup, t: System)
    requires Wired(c, t) && Stranded(t) && HeadPublished(c, t) && !OwnerPosting(t)
    ensures var d := Buffered(t.(word := PARKED), false);
            Wired(c, d.sys) && Moves(c, Buffered(t, true), [Show], d) && Missed(c, d)
  {
    var d := Buffered(t.(word := PARKED), false);
    OneMove(c, Buffered(t, true), Show);
    forall j: nat | j < |d.sys.producers| ensures !Busy(d.sys, j) {
      assert !Busy(t, j);
    }
  }

  /** The head comes to be published, the consumer staying stranded. */
  lemma PublishAround(c: Setup, s: System) returns (xs: seq<Action>, t: System)
    requires Sane(c, s) && Wired(c, s) && Stranded(s) && SomethingLeft(c, s)
    ensures Executes(c, s, xs, t) && Sane(c, t) && Wired(c, t) && Stranded(t) && HeadPublished(c, t)
    ensures forall i :: 0 <= i < |xs| ==> !By(xs[i], ConsumerThread)
  {
    TailIsLog(c, s);
    var ys, u := [], s;
    if Freed(s.ring) == s.ring.tail {
      var j: nat :| j < |s.producers| && HasMore(c, s, j);
      ys, u := ReserveNext(c, s, j);
    }
    QuietAround(c, s, ys, u);
    TailIsLog(c, u);
    var zs;
    if HeadPublished(c, u) {
      zs, t := [], u;
    } else {
      zs, t := PublishTheHead(c, u);
    }
    hide Sane, Stranded, HeadPublished, By;
    QuietAround(c, u, zs, t);
    QuietRunExecutes(c, s, ys, u);
    QuietRunExecutes(c, u, zs, t);
    ExecutionsJoin(c, s, ys, u, zs, t);
    xs := ys + zs;
  }

  lemma TailIsLog(c: Setup, s: System)
    requires Sane(c, s)
    ensures Freed(s.ring) <= s.ring.tail == |s.ring.log|
  {
  }

  /** Its publisher, if it has not yet, makes its CAS and finds RUNNING. */
  lemma PostAround(c: Setup, s: System) returns (xs: seq<Action>, t: System)
    requires Sane(c, s) && Wired(c, s) && Stranded(s) && HeadPublished(c, s)
    ensures Executes(c, s, xs, t) && Wired(c, t) && Stranded(t) && HeadPublished(c, t) && !OwnerPosting(t)
    ensures forall i :: 0 <= i < |xs| ==> !By(xs[i], ConsumerThread)
  {
    if OwnerPosting(s) {
      var o := s.ring.log[Freed(s.ring)].owner;
      var a := PostCas(o);
      t := Act(c, s, a);
      StrandedStep(c, s, a);
      HeadStays(c, s, a);
      PostMisses(c, s, o);
      xs := [a];
      ExecutionExtends(c, s, [], s, a);
      assert [] + [a] == [a];
    } else {
      xs, t := [], s;
    }
  }

  lemma PostMisses(c: Setup, s: System, o: nat)
    requires Wired(c, s) && s.word == RUNNING && o < |s.producers| && s.producers[o].stage.Posting?
    requires Freed(s.ring) < |s.ring.log| && s.ring.log[Freed(s.ring)].owner == o
    ensures CanAct(c, s, PostCas(o)) && !OwnerPosting(Act(c, s, PostCas(o)))
  {
    hide Do;
  }

  /** The look that answers None parks the consumer. */
  lemma LookParks(c: Setup, s: System)
    requires SystemInv(c, s) && CanAct(c, s, Access(LoadHeadSeq)) && s.consumer.loop.Recheck?
    requires Wired(c, s) && SeesNone(c.ring, s.ring, LoadHeadSeq)
    ensures var t := Act(c, s, Access(LoadHeadSeq));
            && t.consumer.loop.Parked? && t.word == s.word && ConsumerFrame(s, t) && t.token == s.token
            && Wired(c, t) && !HeadPublished(c, t) && Freed(t.ring) == Freed(s.ring)
  {
    assert ConsumerInv(c.ring, s.ring);
    hide DoPush, Produce, Convey, Consume, ProducerInv, SlotInv;
  }

  /** While the store is held the word is as it was: RUNNING. */
  ghost predicate WordHeld(b: Buffered) {
    b.held ==> b.sys.word == RUNNING
  }

  lemma WordHeldStep(c: Setup, b: Buffered, m: Move)
    requires BufferedInv(c, b) && Wired(c, b.sys) && WordHeld(b) && CanMove(c, b, m)
    ensures WordHeld(Moved(c, b, m))
  {
    match m
    case Plain(a) =>
      if b.held && a != StoreRunning {
        WordStep(c, b.sys, a);
      }
    case HoldParked => WordBeforeParking(c, b.sys);
    case Show =>
  }

  lemma {:induction false} WordHeldRun(c: Setup, b: Buffered, ms: seq<Move>, d: Buffered)
    requires BufferedInv(c, b) && Wired(c, b.sys) && WordHeld(b) && Moves(c, b, ms, d)
    ensures WordHeld(d)
    decreases |ms|
  {
    if ms != [] {
      WordHeldStep(c, b, ms[0]);
      MoveInv(c, b, ms[0]);
      hide CanMove, Moved, BufferedInv, WordHeld;
      WordHeldRun(c, Moved(c, b, ms[0]), ms[1..], d);
    }
  }

  /** The condition is exact: from every reachable state in which the look answers None with the store of
      PARKED unseen, and something is left to push or deliver, a wake-up can be missed. */
  lemma UnseenLookCanMiss(c: Setup, b: Buffered) returns (ms: seq<Move>, d: Buffered)
    requires Sound(c.ring) && BufferedOccurs(c, b) && Wired(c, b.sys)
    requires CanMove(c, b, Plain(Access(LoadHeadSeq))) && LooksUnseen(c, b, Plain(Access(LoadHeadSeq)))
    requires SomethingLeft(c, b.sys)
    ensures Moves(c, b, ms, d) && Wired(c, d.sys) && Missed(c, d)
  {
    OccursBuffered(c, b);
    HeldWord(c, b);
    var look := Plain(Access(LoadHeadSeq));
    var b1 := Moved(c, b, look);
    MoveInv(c, b, look);
    LookParks(c, b.sys);
    KeepsMore(c, b.sys, b1.sys);
    hide Moved, BufferedInv, Act, CanAct, SomethingLeft, LooksUnseen;
    OneMove(c, b, look);
    var xs, b2 := Settle(c, b1);
    var ys;
    ys, d := MissWhileStranded(c, b2);
    hide CanMove, Stranded, Missed;
    MovesJoin(c, b1, xs, b2, ys, d);
    MovesJoin(c, b, [look], b1, xs + ys, d);
    ms := [look] + (xs + ys);
  }

  lemma HeldWord(c: Setup, b: Buffered)
    requires Sound(c.ring) && BufferedOccurs(c, b)
    ensures WordHeld(b)
  {
    var s, ms :| Wired(c, s) && Starts(c, s) && Moves(c, Buffered(s, false), ms, b);
    StartsInv(c, s);
    WordHeldRun(c, Buffered(s, false), ms, b);
  }

  lemma KeepsMore(c: Setup, s: System, t: System)
    requires Wired(c, s) && Wired(c, t) && SomethingLeft(c, s)
    requires ConsumerFrame(s, t) && Freed(t.ring) == Freed(s.ring)
    ensures SomethingLeft(c, t)
  {
    if Freed(s.ring) >= s.ring.tail {
      var j: nat :| j < |s.producers| && HasMore(c, s, j);
      assert HasMore(c, t, j);
    }
  }

  /** From the park with the store held: if signals are still about, let them arrive and go round once more,
      to park again with the store held and nothing on its way. */
  lemma Settle(c: Setup, b: Buffered) returns (ms: seq<Move>, d: Buffered)
    requires BufferedInv(c, b) && b.held && Wired(c, b.sys) && b.sys.consumer.loop.Parked? && b.sys.word == RUNNING
    requires !HeadPublished(c, b.sys) && SomethingLeft(c, b.sys)
    ensures Moves(c, b, ms, d) && BufferedInv(c, d) && Wired(c, d.sys) && d.held
    ensures Stranded(d.sys) && SomethingLeft(c, d.sys)
  {
    if !Pending(b.sys) {
      ms, d := [], b;
    } else {
      var xs, s := Arrive(c, b);
      var ys;
      ys, d := GoRound(c, Buffered(s, true));
      hide CanMove, Moved, BufferedInv, Stranded, SomethingLeft;
      MovesJoin(c, b, Plains(xs), Buffered(s, true), ys, d);
      ms := Plains(xs) + ys;
    }
  }

  /** Every signal on its way becomes the token. */
  lemma Arrive(c: Setup, b: Buffered) returns (xs: seq<Action>, s: System)
    requires BufferedInv(c, b) && b.held && Wired(c, b.sys) && b.sys.consumer.loop.Parked? && Pending(b.sys)
    requires !HeadPublished(c, b.sys) && SomethingLeft(c, b.sys)
    ensures Moves(c, b, Plains(xs), Buffered(s, true)) && BufferedInv(c, Buffered(s, true)) && Wired(c, s)
    ensures s.token && !AnyBusy(s) && s.consumer.loop.Parked? && !HeadPublished(c, s) && SomethingLeft(c, s)
  {
    xs, s := Flush(c, b.sys, |b.sys.producers|);
    NoConsumerStores(xs);
    Lift(c, b, xs, s);
    MovesInv(c, b, Plains(xs), Buffered(s, true));
    if Freed(s.ring) >= s.ring.tail {
      var j: nat :| j < |b.sys.producers| && HasMore(c, b.sys, j);
      assert HasMore(c, s, j);
    }
  }

  /** The token is taken; the store is seen; the consumer finds nothing to drain, and parks with the next
      store held. */
  lemma GoRound(c: Setup, b: Buffered) returns (ms: seq<Move>, d: Buffered)
    requires BufferedInv(c, b) && b.held && Wired(c, b.sys) && b.sys.consumer.loop.Parked? && b.sys.token
    requires !AnyBusy(b.sys) && !HeadPublished(c, b.sys) && SomethingLeft(c, b.sys)
    ensures Moves(c, b, ms, d) && BufferedInv(c, d) && Wired(c, d.sys) && d.held
    ensures Stranded(d.sys) && SomethingLeft(c, d.sys)
  {
    hide CanMove, Moved, Stranded, SomethingLeft, AnyBusy, HeadPublished, SystemInv, StatInv, LogFits;
    var xs, u := Return(c, b);
    var ys, s := ReachParking(c, u.sys);
    QuietRunExecutes(c, u.sys, ys, s);
    ConsumerFrameRun(c, u.sys, ys, s);
    StillBusy(u.sys, s);
    Lift(c, u, ys, s);
    SaneWired(c, s);
    KeepsMore(c, u.sys, s);
    var zs;
    zs, d := ParkHeld(c, Buffered(s, false));
    hide CanMove, Moved, BufferedInv, Stranded, SomethingLeft;
    MovesJoin(c, u, Plains(ys), Buffered(s, false), zs, d);
    MovesJoin(c, b, xs, u, Plains(ys) + zs, d);
    ms := xs + (Plains(ys) + zs);
  }

  lemma StillBusy(s: System, t: System)
    requires |s.producers| == |s.links| && ConsumerFrame(s, t)
    ensures AnyBusy(t) <==> AnyBusy(s)
  {
    assert forall j: nat :: j < |s.producers| ==> (Busy(t, j) <==> Busy(s, j));
  }

  lemma SaneWired(c: Setup, s: System)
    requires Sane(c, s)
    ensures Wired(c, s)
  {
  }

  lemma Return(c: Setup, b: Buffered) returns (ms: seq<Move>, d: Buffered)
    requires BufferedInv(c, b) && b.held && Wired(c, b.sys) && b.sys.consumer.loop.Parked? && b.sys.token
    requires !AnyBusy(b.sys) && !HeadPublished(c, b.sys) && SomethingLeft(c, b.sys)
    ensures Moves(c, b, ms, d) && BufferedInv(c, d) && Wired(c, d.sys) && !d.held
    ensures d.sys.consumer.loop.Waking? && !d.sys.token && !AnyBusy(d.sys)
    ensures !HeadPublished(c, d.sys) && SomethingLeft(c, d.sys)
  {
    var u := Moved(c, b, Plain(ParkReturn));
    MoveInv(c, b, Plain(ParkReturn));
    ReturnEffect(c, b.sys);
    KeepsMore(c, b.sys, u.sys);
    d := Moved(c, u, Show);
    MoveInv(c, u, Show);
    KeepsMore(c, u.sys, d.sys);
    forall j: nat | j < |d.sys.producers| ensures !Busy(d.sys, j) {
      assert !Busy(b.sys, j);
    }
    OneMove(c, b, Plain(ParkReturn));
    OneMove(c, u, Show);
    hide Moved, CanMove;
    MovesJoin(c, b, [Plain(ParkReturn)], u, [Show], d);
    ms := [Plain(ParkReturn)] + [Show];
  }

  lemma ReturnEffect(c: Setup, s: System)
    requires Wired(c, s) && s.consumer.loop.Parked? && s.token
    ensures CanAct(c, s, ParkReturn)
    ensures Act(c, s, ParkReturn) == s.(consumer := s.consumer.(loop := Waking), token := false)
  {
    hide Do;
  }

  /** Nothing drained: the store is held, and the look that follows finds nothing. */
  lemma ParkHeld(c: Setup, b: Buffered) returns (ms: seq<Move>, d: Buffered)
    requires Sane(c, b.sys) && !b.held && Wired(c, b.sys) && b.sys.consumer.loop.Parking? && !b.sys.token
    requires !AnyBusy(b.sys) && !HeadPublished(c, b.sys) && SomethingLeft(c, b.sys)
    ensures Moves(c, b, ms, d) && BufferedInv(c, d) && Wired(c, d.sys) && d.held
    ensures Stranded(d.sys) && SomethingLeft(c, d.sys)
  {
    var u := HoldEffect(c, b);
    var load, look := Plain(Access(LoadHead)), Plain(Access(LoadHeadSeq));
    LoadEffect(c, u.sys);
    var v := Moved(c, u, load);
    MoveInv(c, u, load);
    LookFindsNothing(c, v.sys);
    d := Moved(c, v, look);
    MoveInv(c, v, look);
    LookParks(c, v.sys);
    KeepsMore(c, b.sys, d.sys);
    forall j: nat | j < |d.sys.producers| ensures !Busy(d.sys, j) {
      assert !Busy(b.sys, j);
    }
    OneMove(c, u, load);
    OneMove(c, v, look);
    hide Moved, CanMove;
    MovesJoin(c, u, [load], v, [look], d);
    MovesJoin(c, b, [HoldParked], u, [load] + [look], d);
    ms := [HoldParked] + ([load] + [look]);
  }

  lemma HoldEffect(c: Setup, b: Buffered) returns (u: Buffered)
    requires Sane(c, b.sys) && !b.held && Wired(c, b.sys) && b.sys.consumer.loop.Parking? && !HeadPublished(c, b.sys)
    ensures Moves(c, b, [HoldParked], u) && BufferedInv(c, u) && Wired(c, u.sys) && u.held
    ensures u.sys.consumer.loop.Recheck? && u.sys.ring == b.sys.ring.(consumer := AtHead) && u.sys.word == RUNNING
    ensures ConsumerFrame(b.sys, u.sys) && u.sys.token == b.sys.token && Freed(u.sys.ring) == Freed(b.sys.ring)
  {
    hide DoPush, Produce, Convey, Inv, StatInv, LogFits;
    u := Moved(c, b, HoldParked);
    MoveInv(c, b, HoldParked);
    WordBeforeParking(c, b.sys);
    OneMove(c, b, HoldParked);
  }

  lemma LoadEffect(c: Setup, s: System)
    requires Wired(c, s) && s.consumer.loop.Recheck? && s.ring.consumer == AtHead
    ensures CanAct(c, s, Access(LoadHead))
    ensures Act(c, s, Access(LoadHead)) == s.(ring := s.ring.(consumer := AtHeadSeq(s.ring.head)))
  {
    hide DoPush, Produce, Convey, Consume;
  }

  lemma LookFindsNothing(c: Setup, s: System)
    requires SystemInv(c, s) && Wired(c, s) && s.consumer.loop.Recheck?
    requires s.ring.consumer.AtHeadSeq? && !HeadPublished(c, s)
    ensures CanAct(c, s, Access(LoadHeadSeq)) && SeesNone(c.ring, s.ring, LoadHeadSeq)
  {
    assert ConsumerInv(c.ring, s.ring);
    assert SlotInv(c.ring, s.ring, s.ring.head);
  }

  // ----- The timeout recovers -----

  /** Whatever happened before: if the consumer sleeps over a published head, then its timeout, followed by
      nothing but its own steps, delivers that message. */
  lemma TimeoutRecovers(c: Setup, b: Buffered) returns (ms: seq<Move>, d: Buffered)
    requires Sound(c.ring) && BufferedOccurs(c, b) && Wired(c, b.sys)
    requires b.sys.consumer.loop.Parked? && HeadPublished(c, b.sys)
    ensures Moves(c, b, (if b.held then [Show] else []) + [Plain(ParkTimeout)] + ms, d)
    ensures exists xs :: ms == Plains(xs) && ConsumerOnly(xs)
    ensures Freed(d.sys.ring) == Freed(b.sys.ring) + 1
  {
    hide Sane, Published, BufferedOccurs, Do;
    OccursBuffered(c, b);
    var visible := if b.held then Moved(c, b, Show) else b;
    if b.held {
      MoveInv(c, b, Show);
    }
    var up := Moved(c, visible, Plain(ParkTimeout));
    MoveInv(c, visible, Plain(ParkTimeout));
    HeadStays(c, visible.sys, ParkTimeout);
    var xs, t := TakeTheHead(c, up.sys);
    QuietRunExecutes(c, up.sys, xs, t);
    Lift(c, up, xs, t);
    ms, d := Plains(xs), Buffered(t, false);
    hide Moved, CanMove, BufferedInv;
    OneMove(c, visible, Plain(ParkTimeout));
    MovesJoin(c, visible, [Plain(ParkTimeout)], up, ms, d);
    if b.held {
      OneMove(c, b, Show);
      MovesJoin(c, b, [Show], visible, [Plain(ParkTimeout)] + ms, d);
      assert [Show] + ([Plain(ParkTimeout)] + ms) == [Show] + [Plain(ParkTimeout)] + ms;
    } else {
      assert [] + [Plain(ParkTimeout)] + ms == [Plain(ParkTimeout)] + ms;
    }
  }

  // ----- Without it, a message can be stuck -----

  /** The consumer sleeps over a published head, no signal is on its way, and no producer will send one. */
  ghost predicate Stuck(c: Setup, b: Buffered)
    requires Wired(c, b.sys)
  {
    var s := b.sys;
    && s.consumer.loop.Parked? && HeadPublished(c, s) && !b.held && !Pending(s)
    && forall j: nat :: j < |s.producers| ==> Spent(c, s, j)
  }

  /** Producer `j` has pushed all its events and is leaving. */
  predicate Spent(c: Setup, s: System, j: nat)
    requires j < |s.producers| && j < |c.work|
  {
    var stage := s.producers[j].stage;
    (stage.NextEvent? && s.producers[j].event == |c.work[j]|) || stage.Closing? || stage.Finished?
  }

  lemma StuckStep(c: Setup, b: Buffered, m: Move)
    requires BufferedInv(c, b) && Wired(c, b.sys) && Stuck(c, b) && CanMove(c, b, m) && m != Plain(ParkTimeout)
    ensures Stuck(c, Moved(c, b, m)) && Moved(c, b, m).sys.ring == b.sys.ring
  {
    var s := b.sys;
    assert forall j: nat :: j < |s.producers| && Spent(c, s, j) ==> !s.producers[j].stage.Pushing?;
    if m.Plain? {
      var a := m.a;
      if IsProducerAction(a) {
        assert Spent(c, s, a.j) && !Busy(s, a.j);
        StuckLeaves(c, s, a);
      } else if IsLinkAction(a) {
        assert !Busy(s, a.j);
        StuckCloses(c, s, a);
      }
    }
  }

  lemma StuckLeaves(c: Setup, s: System, a: Action)
    requires Wired(c, s) && IsProducerAction(a) && CanProduce(c, s, a) && Spent(c, s, a.j) && !Pending(s)
    requires forall j: nat :: j < |s.producers| ==> Spent(c, s, j)
    ensures var t := Produce(c, s, a);
            && t.ring == s.ring && t.consumer == s.consumer && !Pending(t)
            && forall j: nat :: j < |t.producers| ==> Spent(c, t, j)
  {
    var t := Produce(c, s, a);
    forall j: nat | j < |t.producers| ensures Spent(c, t, j) && !Busy(t, j) {
      assert Spent(c, s, j) && !Busy(s, j);
    }
  }

  lemma StuckCloses(c: Setup, s: System, a: Action)
    requires Wired(c, s) && IsLinkAction(a) && CanLink(c, s, a) && !Pending(s)
    requires forall j: nat :: j < |s.producers| ==> Spent(c, s, j)
    ensures var t := Convey(c, s, a);
            && t.ring == s.ring && t.consumer == s.consumer && !Pending(t)
            && forall j: nat :: j < |t.producers| ==> Spent(c, t, j)
  {
    var t := Convey(c, s, a);
    assert !Busy(s, a.j);
    forall j: nat | j < |t.producers| ensures Spent(c, t, j) && !Busy(t, j) {
      assert Spent(c, s, j) && !Busy(s, j);
    }
  }

  /** A stuck message stays stuck, in every run in which the timeout does not fire. */
  lemma {:induction false} OnlyTheTimeoutHelps(c: Setup, b: Buffered, ms: seq<Move>, d: Buffered)
    requires BufferedInv(c, b) && Wired(c, b.sys) && Stuck(c, b) && Moves(c, b, ms, d)
    requires forall i :: 0 <= i < |ms| ==> ms[i] != Plain(ParkTimeout)
    ensures Wired(c, d.sys) && Stuck(c, d) && d.sys.ring == b.sys.ring
    decreases |ms|
  {
    if ms != [] {
      StuckStep(c, b, ms[0]);
      MoveInv(c, b, ms[0]);
      hide Moved, CanMove, BufferedInv, Stuck;
      assert forall i :: 0 <= i < |ms[1..]| ==> ms[1..][i] == ms[i + 1];
      OnlyTheTimeoutHelps(c, Moved(c, b, ms[0]), ms[1..], d);
    }
  }

  /** On every sound geometry the handshake can miss a wake-up, if PARKED is seen late: one producer pushes
      its only event, finds RUNNING, and leaves; the consumer, which looked before, sleeps. */
  lemma SignalCanBeMissed(c: RingConfig) returns (b: Buffered)
    requires Sound(c)
    ensures var setup := OneEmptyEvent(c);
            BufferedOccurs(setup, b) && Wired(setup, b.sys) && Stuck(setup, b)
  {
    var setup := OneEmptyEvent(c);
    var s, xs, parked := ParkUnseen(c);
    var asleep := parked.sys;
    PushEmpty(setup, asleep);
    var pushed := asleep.(ring := PublishedRing(asleep.ring), producers := [Producer(Posting(0), 0, 0)]);
    var left := MissedPost(setup, pushed);
    b := Buffered(left.(word := PARKED), false);
    assert Stuck(setup, b);
    hide Act, CanAct, Starts, Sound, Stuck, Unused, Used, PublishedRing;
    ExecutionExtends(setup, asleep, SEARCH + WRITE, pushed, PostCas(0));
    Lift(setup, parked, SEARCH + WRITE + [PostCas(0)], left);
    OneMove(setup, Buffered(left, true), Show);
    MovesJoin(setup, parked, Plains(SEARCH + WRITE + [PostCas(0)]), Buffered(left, true), [Show], b);
    MovesJoin(setup, Buffered(s, false), xs, parked, Plains(SEARCH + WRITE + [PostCas(0)]) + [Show], b);
  }

  lemma MissedPost(c: Setup, s: System) returns (t: System)
    requires Used(c, s) && s.producers == [Producer(Posting(0), 0, 0)] && s.word == RUNNING && s.links == [FreshLink]
    ensures CanAct(c, s, PostCas(0)) && t == Act(c, s, PostCas(0)) == s.(producers := [Producer(NextEvent, 1, 0)])
  {
    hide Do;
    t := Act(c, s, PostCas(0));
  }

  /** The consumer parks with its store of PARKED unseen. */
  lemma ParkUnseen(c: RingConfig) returns (s: System, xs: seq<Move>, d: Buffered)
    requires Sound(c)
    ensures var setup := OneEmptyEvent(c);
            && Wired(setup, s) && Starts(setup, s) && Moves(setup, Buffered(s, false), xs, d)
            && Unused(setup, d.sys) && d.held
            && d.sys.consumer.loop.Parked? && d.sys.ring.consumer == NotPopping && d.sys.word == RUNNING
            && !d.sys.token && d.sys.links == [FreshLink]
  {
    var setup := OneEmptyEvent(c);
    s := StartUnused(c);
    DrainNothing(setup, s);
    var drained := [StartDrain, Access(LoadHead), Access(LoadHeadSeq)];
    var s1 := s.(consumer := Consumer(Parking, 0, 0, 0));
    var held := Moved(setup, Buffered(s1, false), HoldParked);
    assert held.sys == s1.(consumer := Consumer(Recheck, 0, 0, 0), parks := 1, ring := s1.ring.(consumer := AtHead));
    RecheckNothing(setup, held.sys);
    var t := held.sys.(consumer := Consumer(Parked, 0, 0, 0), ring := held.sys.ring.(consumer := NotPopping));
    d := Buffered(t, true);
    hide Act, CanAct, Starts, Sound, Unused;
    Lift(setup, Buffered(s, false), drained, s1);
    OneMove(setup, Buffered(s1, false), HoldParked);
    Lift(setup, held, [Access(LoadHead), Access(LoadHeadSeq)], t);
    hide Moved, CanMove;
    MovesJoin(setup, Buffered(s1, false), [HoldParked], held, Plains([Access(LoadHead), Access(LoadHeadSeq)]), d);
    xs := Plains(drained) + ([HoldParked] + Plains([Access(LoadHead), Access(LoadHeadSeq)]));
    MovesJoin(setup, Buffered(s, false), Plains(drained), Buffered(s1, false),
              [HoldParked] + Plains([Access(LoadHead), Access(LoadHeadSeq)]), d);
  }
}
