/** The whole data path as one transition system: the producers' hot loops, the consumer thread,
    the shared state word, and for each producer the signal line from its channel through the writer
    task, the socket and the server loop to the consumer's unpark token. Memory is sequentially
    consistent; every interleaving of the parties is a run. */
module System {
  import opened Words
  import opened Geometry
  import opened RingModel

  /** `work[j][i]` is the encoding of event `i` of producer `j`. */
  datatype Setup = Setup(ring: RingConfig, work: seq<seq<seq<byte>>>)

  // ----- Producer (src/producer.rs) -----

  datatype Stage =
    | NextEvent               // top of the `for`
    | Ready                   // encoded; the call of `push` is next
    | Pushing                 // inside `push`
    | Sleeping                // answered Full, in the 50 microsecond sleep
    | Posting(pos: nat)       // pushed; the CAS on the state word is next
    | Signalling(pos: nat)    // won that CAS; `signal_posted` is next
    | Closing                 // in `shutdown`, awaiting the writer task
    | Finished
    | Rejected                // `push` answered TooBig
    | Failed                  // gave up, its client dropped
    | Gone                    // ... and its process has exited, the writer task with it
  {
    /** The points where a producer task awaits, so that its runtime can poll the writer task. A failed
        `run` is not one of them: in the producer binary it is the main future, and the process ends. */
    predicate AtAwait() {
      Sleeping? || Closing? || Finished?
    }
  }

  datatype Producer = Producer(stage: Stage, event: nat, wireBytes: nat)

  // ----- Signal line (src/proto/control/jsonrpc.rs) -----

  datatype Writer = Waiting | Holding(signal: u64) | Exited
  datatype Reader = Reading | Counting(signal: u64) | Unparking | Ended

  /** `signalled`, `written` and `served` are histories: what was handed to `signal_posted`,
      what the writer put on the socket, the `posted` lines the server loop has counted; `lost` what died
      with the process before it reached the socket. */
  datatype Link = Link(
    channel: seq<u64>, closed: bool, writer: Writer, socket: seq<u64>, reader: Reader,
    signalled: seq<u64>, written: seq<u64>, served: seq<u64>, lost: seq<u64>)

  function InHand(w: Writer): seq<u64> {
    if w.Holding? then [w.signal] else []
  }

  // ----- Consumer (src/server.rs) -----

  datatype Loop =
    | Top
    | Drain                                      // in the `try_pop` of the inner loop
    | CountEvent(buf: seq<byte>, draining: bool)
    | CountBytes(buf: seq<byte>, draining: bool)
    | Parking                                    // nothing drained; the store of PARKED is next
    | Recheck                                    // in the `try_pop` after that store
    | Rescued(buf: seq<byte>)                    // the recheck found a message
    | Parked                                     // in `park_timeout`
    | Waking                                     // `park_timeout` returned

  datatype Consumer = Consumer(loop: Loop, drained: u32, events: nat, wireBytes: nat)

  /** `word` is the consumer_state word, `token` the consumer thread's unpark token. The last two
      fields count successful CASes on the word and stores of PARKED. */
  datatype System = System(
    ring: Ring, word: u64, token: bool,
    producers: seq<Producer>, links: seq<Link>, consumer: Consumer,
    postedCalls: nat, wins: nat, parks: nat)

  datatype Action =
    | Access(step: Step)        // one access inside `push` or `try_pop`
    | Encode(j: nat)
    | EnterPush(j: nat)
    | PostCas(j: nat)
    | Signal(j: nat)
    | Close(j: nat)
    | Join(j: nat)
    | Drop(j: nat)
    | Exit(j: nat)
    | WriterRecv(j: nat)
    | WriterSend(j: nat)
    | WriterExit(j: nat)
    | ReadLine(j: nat)
    | CountPosted(j: nat)
    | Unpark(j: nat)
    | ReadEof(j: nat)
    | StartDrain
    | CountOne
    | CountLength
    | StoreParked
    | StoreRunning
    | ParkReturn
    | ParkTimeout

  predicate Wired(c: Setup, s: System) {
    && Shape(c.ring, s.ring)
    && |s.producers| == |s.links| == |s.ring.producers| == |c.work|
  }

  predicate IsProducerAction(a: Action) {
    a.Encode? || a.EnterPush? || a.PostCas? || a.Signal? || a.Close? || a.Join? || a.Drop? || a.Exit?
  }

  predicate IsLinkAction(a: Action) {
    a.WriterRecv? || a.WriterSend? || a.WriterExit? ||
    a.ReadLine? || a.CountPosted? || a.Unpark? || a.ReadEof?
  }

  // ----- Initial state -----

  const FreshLink := Link([], false, Waiting, [], Reading, [], [], [], [])

  ghost predicate Starts(c: Setup, s: System) {
    && Initial(c.ring, s.ring)
    && Wired(c, s)
    && s.word == RUNNING && !s.token
    && (forall j :: 0 <= j < |s.producers| ==> s.producers[j] == Producer(NextEvent, 0, 0))
    && (forall j :: 0 <= j < |s.links| ==> s.links[j] == FreshLink)
    && s.consumer == Consumer(Top, 0, 0, 0)
    && s.postedCalls == 0 && s.wins == 0 && s.parks == 0
  }

  // ----- Enabledness -----

  predicate CanProduce(c: Setup, s: System, a: Action)
    requires Wired(c, s) && IsProducerAction(a)
  {
    && a.j < |s.producers|
    && var p := s.producers[a.j];
    match a
    case Encode(_) => p.stage.NextEvent? && p.event < |c.work[a.j]|
    case EnterPush(_) => (p.stage.Ready? || p.stage.Sleeping?) && p.event < |c.work[a.j]| &&
                         s.ring.producers[a.j].NotPushing?
    case PostCas(_) => p.stage.Posting?
    case Signal(_) => p.stage.Signalling?
    case Close(_) => p.stage.NextEvent? && p.event == |c.work[a.j]|
    case Join(_) => p.stage.Closing? && s.links[a.j].writer.Exited?
    case Drop(_) => p.stage.Rejected?
    case Exit(_) => p.stage.Failed?
  }

  predicate CanLink(c: Setup, s: System, a: Action)
    requires Wired(c, s) && IsLinkAction(a)
  {
    && a.j < |s.links|
    && var l := s.links[a.j];
    match a
    case WriterRecv(_) => l.writer.Waiting? && l.channel != []
    case WriterSend(_) => l.writer.Holding?
    case WriterExit(_) => l.writer.Waiting? && l.channel == [] && l.closed
    case ReadLine(_) => l.reader.Reading? && l.socket != []
    case CountPosted(_) => l.reader.Counting?
    case Unpark(_) => l.reader.Unparking?
    case ReadEof(_) => l.reader.Reading? && l.socket == [] && l.writer.Exited?
  }

  predicate CanConsume(c: Setup, s: System, a: Action)
    requires Wired(c, s) && !a.Access? && !IsProducerAction(a) && !IsLinkAction(a)
  {
    match a
    case StartDrain => s.consumer.loop.Top? && s.ring.consumer.NotPopping?
    case CountOne => s.consumer.loop.CountEvent?
    case CountLength => s.consumer.loop.CountBytes? && s.ring.consumer.NotPopping?
    case StoreParked => s.consumer.loop.Parking? && s.ring.consumer.NotPopping?
    case StoreRunning => s.consumer.loop.Rescued? || s.consumer.loop.Waking?
    case ParkReturn => s.consumer.loop.Parked? && s.token
    case ParkTimeout => s.consumer.loop.Parked?
  }

  predicate CanAccess(c: Setup, s: System, step: Step)
    requires Wired(c, s)
  {
    && Enabled(c.ring, s.ring, step)
    && !step.CallPush? && !step.CallPop?
    && (if IsPushStep(step) then s.producers[step.j].stage.Pushing?
        else s.consumer.loop.Drain? || s.consumer.loop.Recheck?)
  }

  predicate CanAct(c: Setup, s: System, a: Action)
    requires Wired(c, s)
  {
    if a.Access? then CanAccess(c, s, a.step)
    else if IsProducerAction(a) then CanProduce(c, s, a)
    else if IsLinkAction(a) then CanLink(c, s, a)
    else CanConsume(c, s, a)
  }

  // ----- Effects -----

  function SetStage(s: System, j: nat, stage: Stage): System
    requires j < |s.producers|
  {
    s.(producers := s.producers[j := s.producers[j].(stage := stage)])
  }

  /** The producer is done with its event and moves to the next one. */
  function Advance(s: System, j: nat): System
    requires j < |s.producers|
  {
    var p := s.producers[j];
    s.(producers := s.producers[j := Producer(NextEvent, p.event + 1, p.wireBytes)])
  }

  function SetLink(s: System, j: nat, l: Link): System
    requires j < |s.links|
  {
    s.(links := s.links[j := l])
  }

  function SetLoop(s: System, loop: Loop): System {
    s.(consumer := s.consumer.(loop := loop))
  }

  function Produce(c: Setup, s: System, a: Action): System
    requires Wired(c, s) && IsProducerAction(a) && CanProduce(c, s, a)
  {
    var j := a.j;
    var p := s.producers[j];
    var l := s.links[j];
    match a
    case Encode(_) =>
      s.(producers := s.producers[j := Producer(Ready, p.event, p.wireBytes + |c.work[j][p.event]|)])
    case EnterPush(_) =>
      var data := c.work[j][p.event];
      if |data| > c.ring.MaxPayload() then SetStage(s, j, Rejected)
      else SetStage(s, j, Pushing).(ring := Do(c.ring, s.ring, CallPush(j, data)))
    case PostCas(_) =>
      if s.word == PARKED then SetStage(s, j, Signalling(p.stage.pos)).(word := RUNNING, wins := s.wins + 1)
      else Advance(s, j)
    case Signal(_) =>
      var seqNo := Wrap64(p.stage.pos);
      SetLink(Advance(s, j), j, l.(channel := l.channel + [seqNo], signalled := l.signalled + [seqNo]))
    case Close(_) => SetLink(SetStage(s, j, Closing), j, l.(closed := true))
    case Join(_) => SetStage(s, j, Finished)
    case Drop(_) => SetLink(SetStage(s, j, Failed), j, l.(closed := true))
    case Exit(_) =>
      SetLink(SetStage(s, j, Gone), j, l.(channel := [], writer := Exited, lost := InHand(l.writer) + l.channel))
  }

  function Convey(c: Setup, s: System, a: Action): System
    requires Wired(c, s) && IsLinkAction(a) && CanLink(c, s, a)
  {
    var j := a.j;
    var l := s.links[j];
    match a
    case WriterRecv(_) => SetLink(s, j, l.(channel := l.channel[1..], writer := Holding(l.channel[0])))
    case WriterSend(_) =>
      var x := l.writer.signal;
      SetLink(s, j, l.(writer := Waiting, socket := l.socket + [x], written := l.written + [x]))
    case WriterExit(_) => SetLink(s, j, l.(writer := Exited))
    case ReadLine(_) =>
      SetLink(s, j, l.(socket := l.socket[1..], reader := Counting(l.socket[0])))
    case CountPosted(_) =>
      SetLink(s, j, l.(reader := Unparking, served := l.served + [l.reader.signal])).(postedCalls := s.postedCalls + 1)
    case Unpark(_) => SetLink(s, j, l.(reader := Reading)).(token := true)
    case ReadEof(_) => SetLink(s, j, l.(reader := Ended))
  }

  function Consume(c: Setup, s: System, a: Action): System
    requires Wired(c, s) && !a.Access? && !IsProducerAction(a) && !IsLinkAction(a) && CanConsume(c, s, a)
  {
    var k := s.consumer;
    match a
    case StartDrain =>
      s.(consumer := k.(loop := Drain, drained := 0), ring := Do(c.ring, s.ring, CallPop))
    case CountOne =>
      s.(consumer := k.(loop := CountBytes(k.loop.buf, k.loop.draining), events := k.events + 1))
    case CountLength =>
      var t := s.(consumer := k.(wireBytes := k.wireBytes + |k.loop.buf|));
      if k.loop.draining then SetLoop(t, Drain).(ring := Do(c.ring, s.ring, CallPop))
      else SetLoop(t, Top)
    case StoreParked =>
      SetLoop(s, Recheck).(word := PARKED, parks := s.parks + 1, ring := Do(c.ring, s.ring, CallPop))
    case StoreRunning =>
      SetLoop(s, if k.loop.Rescued? then CountEvent(k.loop.buf, false) else Top).(word := RUNNING)
    case ParkReturn => SetLoop(s, Waking).(token := false)
    case ParkTimeout => SetLoop(s, Waking)
  }

  /** An access inside `push` or `try_pop`, with what the caller does at once on its return. */
  function DoAccess(c: Setup, s: System, step: Step): System
    requires Wired(c, s) && CanAccess(c, s, step)
  {
    var t := s.(ring := Do(c.ring, s.ring, step));
    if step.Publish? then SetStage(t, step.j, Posting(s.ring.producers[step.j].pos))
    else if SeesFull(c.ring, s.ring, step) then SetStage(t, step.j, Sleeping)
    else if SeesNone(c.ring, s.ring, step) then
      SetLoop(t, if s.consumer.loop.Recheck? then Parked
                 else if s.consumer.drained == 0 then Parking else Top)
    else if step.AdvanceHead? then
      var out := s.ring.consumer.out;
      if s.consumer.loop.Recheck? then SetLoop(t, Rescued(out))
      else t.(consumer := s.consumer.(loop := CountEvent(out, true), drained := Truncate32(s.consumer.drained + 1)))
    else t
  }

  function Act(c: Setup, s: System, a: Action): (t: System)
    requires Wired(c, s) && CanAct(c, s, a)
    ensures Wired(c, t)
  {
    if a.Access? then DoAccess(c, s, a.step)
    else if IsProducerAction(a) then Produce(c, s, a)
    else if IsLinkAction(a) then Convey(c, s, a)
    else Consume(c, s, a)
  }

  // ----- Runs -----

  ghost predicate Executes(c: Setup, s: System, actions: seq<Action>, t: System)
    requires Wired(c, s)
    decreases |actions|
  {
    if actions == [] then s == t
    else CanAct(c, s, actions[0]) && Executes(c, Act(c, s, actions[0]), actions[1..], t)
  }

  ghost predicate Occurs(c: Setup, t: System) {
    exists s, actions :: Starts(c, s) && Executes(c, s, actions, t)
  }

  lemma {:induction false} ExecutionsJoin(c: Setup, s: System, xs: seq<Action>, t: System, ys: seq<Action>, u: System)
    requires Wired(c, s) && Executes(c, s, xs, t) && Wired(c, t) && Executes(c, t, ys, u)
    ensures Executes(c, s, xs + ys, u)
    decreases |xs|
  {
    hide Act, CanAct;
    if xs == [] {
      assert xs + ys == ys;
    } else {
      ExecutionsJoin(c, Act(c, s, xs[0]), xs[1..], t, ys, u);
      assert (xs + ys)[1..] == xs[1..] + ys;
    }
  }

  /** A run that continues another one starts again from where that one ended. */
  lemma {:induction false} ExecutionsSplit(c: Setup, s: System, xs: seq<Action>, t: System, all: seq<Action>, u: System)
    requires Wired(c, s) && Executes(c, s, xs, t) && Wired(c, t)
    requires xs <= all && Executes(c, s, all, u)
    ensures Executes(c, t, all[|xs|..], u)
    decreases |xs|
  {
    hide Act, CanAct;
    if xs == [] {
      assert all[|xs|..] == all;
    } else {
      assert all[0] == xs[0];
      ExecutionsSplit(c, Act(c, s, xs[0]), xs[1..], t, all[1..], u);
      assert all[1..][|xs| - 1..] == all[|xs|..];
    }
  }

  lemma ExecutionExtends(c: Setup, s: System, xs: seq<Action>, t: System, a: Action)
    requires Wired(c, s) && Executes(c, s, xs, t) && Wired(c, t) && CanAct(c, t, a)
    ensures Executes(c, s, xs + [a], Act(c, t, a))
  {
    hide Act, CanAct;
    assert [a][1..] == [];
    assert Executes(c, t, [a], Act(c, t, a));
    ExecutionsJoin(c, s, xs, t, [a], Act(c, t, a));
  }
}
