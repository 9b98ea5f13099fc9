/** The hot loop of `run` and the shutdown that follows it, over the bytes of the segment and with every
    other party running in between: encode, push until there is room, CAS on the state word, signal. */
module ProducerLoop {
  import opened Words
  import opened Geometry
  import opened RingModel
  import opened RingInvariant
  import opened System
  import opened SystemInvariant
  import opened Statistics
  import opened Memory
  import opened Rely
  import opened Segment
  import opened Push

  /** How the loop ended. `GaveUp` stands for a run that is cut off while the ring stays full. */
  datatype Outcome = Done | Refused | GaveUp

  /** Producer `j` is outside `push`, its own state being `p`. */
  ghost predicate Stands(s: System, j: nat, p: Producer) {
    && j < |s.producers| == |s.ring.producers| == |s.links|
    && s.producers[j] == p && s.ring.producers[j] == NotPushing
  }

  lemma NotInside(c: Setup, s: System, j: nat)
    requires SystemInv(c, s) && j < |s.producers| && !s.producers[j].stage.Pushing?
    ensures Stands(s, j, s.producers[j])
  {
    assert ProducerOk(c, s, j);
  }

  lemma MayCall(c: Setup, s: System, j: nat, e: nat, bytes: nat)
    requires SystemInv(c, s) && j < |c.work|
    requires Stands(s, j, Producer(Ready, e, bytes)) || Stands(s, j, Producer(Sleeping, e, bytes))
    ensures e < |c.work[j]| && Calling(c, s, j, c.work[j][e])
  {
    assert ProducerOk(c, s, j);
  }

  /** Others have run, or the producer has moved: history only grows. */
  ghost predicate Grown(s: System, t: System) {
    s.ring.log <= t.ring.log
  }

  /** Interference while the producer is outside `push`. */
  method Await(seg: Segment, ghost j: nat, ghost p: Producer)
    requires seg.me == ProducerTask(j)
    requires seg.Valid() && j < |seg.setup.work| && Stands(seg.sys, j, p)
    modifies seg, seg.mem
    ensures seg.Valid() && seg.Since(old(seg.run), 0) && seg.turns == old(seg.turns) + 1
    ensures Stands(seg.sys, j, p) && Grown(old(seg.sys), seg.sys)
    ensures seg.sys.links[j].closed == old(seg.sys.links[j].closed)
    ensures seg.sys.links[j].signalled == old(seg.sys.links[j].signalled)
  {
    hide Act, CanAct, Image, Begun, Executes, SystemInv, Starts, Wired, Sound, PopCount;
    seg.YieldProducer(j);
  }

  // ----- Encode -----

  lemma EncodeEffect(c: Setup, s: System, m: seq<byte>, j: nat, e: nat, bytes: nat)
    requires SystemInv(c, s) && Image(c.ring, m, s.ring, s.word)
    requires Stands(s, j, Producer(NextEvent, e, bytes)) && j < |c.work| && e < |c.work[j]|
    ensures CanAct(c, s, Encode(j))
    ensures var t := Act(c, s, Encode(j));
            && SameShared(s, t) && Image(c.ring, m, t.ring, t.word) && Grown(s, t)
            && Stands(t, j, Producer(Ready, e, bytes + |c.work[j][e]|))
            && Calling(c, t, j, c.work[j][e])
  {
    hide Image, SystemInv;
  }

  /** `codec.encode(…, &mut scratch)` and the update of `wire_bytes`. */
  method EncodeEvent(seg: Segment, j: nat, e: nat, wireBytes: nat) returns (scratch: seq<byte>, total: nat)
    requires seg.me == ProducerTask(j)
    requires seg.Valid() && j < |seg.setup.work| && e < |seg.setup.work[j]|
    requires Stands(seg.sys, j, Producer(NextEvent, e, wireBytes))
    modifies seg`sys, seg`run
    ensures seg.Valid() && seg.Since(old(seg.run), 0) && Grown(old(seg.sys), seg.sys)
    ensures scratch == seg.setup.work[j][e] && total == wireBytes + |scratch|
    ensures Stands(seg.sys, j, Producer(Ready, e, total)) && Calling(seg.setup, seg.sys, j, scratch)
  {
    hide Act, CanAct, Image, Begun, Executes, SystemInv, Starts, Wired, Sound, PopCount, Stands, Grown, Calling;
    EncodeEffect(seg.setup, seg.sys, seg.mem[..], j, e, wireBytes);
    scratch := seg.setup.work[j][e];
    total := wireBytes + |scratch|;
    seg.ReadStep(Encode(j));
  }

  // ----- The CAS on the state word -----

  lemma PostEffect(c: Setup, s: System, m: seq<byte>, j: nat, pos: nat, e: nat, bytes: nat)
    requires SystemInv(c, s) && Image(c.ring, m, s.ring, s.word)
    requires Stands(s, j, Producer(Posting(pos), e, bytes))
    ensures CanAct(c, s, PostCas(j)) && |m| >= HDR && Load(m, STATE_OFFSET, 8) == s.word
    ensures var t := Act(c, s, PostCas(j));
            && SameShared(s, t) && t.ring == s.ring
            && (if s.word == PARKED then
                  && Stands(t, j, Producer(Signalling(pos), e, bytes)) && t.word == RUNNING
                  && Image(c.ring, Store(m, STATE_OFFSET, ToLE(RUNNING, 8)), t.ring, t.word)
                else
                  && Stands(t, j, Producer(NextEvent, e + 1, bytes)) && t.word == s.word
                  && Image(c.ring, m, t.ring, t.word))
  {
    LoadHeader(c.ring, m, s.ring, s.word);
    var t := Act(c, s, PostCas(j));
    if s.word == PARKED {
      StoreHeader(c.ring, m, s.ring, s.word, STATE_OFFSET, RUNNING, t.ring, t.word);
    }
    hide Image, SystemInv;
  }

  /** `state.compare_exchange(STATE_PARKED, STATE_RUNNING)`: won exactly if the word was PARKED. */
  method PostEvent(seg: Segment, ghost j: nat, ghost pos: nat, ghost e: nat, ghost bytes: nat) returns (won: bool)
    requires seg.me == ProducerTask(j)
    requires seg.Valid() && j < |seg.setup.work| && Stands(seg.sys, j, Producer(Posting(pos), e, bytes))
    modifies seg`sys, seg`run, seg.mem
    ensures seg.Valid() && seg.Since(old(seg.run), 0) && seg.sys.ring == old(seg.sys.ring)
    ensures won <==> old(seg.sys).word == PARKED
    ensures seg.mem.Length >= HDR && (won <==> Load(old(seg.mem[..]), 128, 8) == 1)
    ensures won ==> seg.mem[..] == Store(old(seg.mem[..]), 128, ToLE(0, 8))
    ensures won ==> seg.sys.word == RUNNING && Stands(seg.sys, j, Producer(Signalling(pos), e, bytes))
    ensures !won ==> Stands(seg.sys, j, Producer(NextEvent, e + 1, bytes)) && seg.mem[..] == old(seg.mem[..])
  {
    hide Act, CanAct, Image, Begun, Executes, SystemInv, Starts, Wired, Sound, PopCount, Stands, ToLE, Store;
    PostEffect(seg.setup, seg.sys, seg.mem[..], j, pos, e, bytes);
    var current := seg.LoadWord(STATE_OFFSET);
    won := current == PARKED;
    if won {
      seg.StoreStep(PostCas(j), STATE_OFFSET, ToLE(RUNNING, 8));
    } else {
      seg.ReadStep(PostCas(j));
    }
  }

  // ----- signal_posted -----

  lemma SignalEffect(c: Setup, s: System, m: seq<byte>, j: nat, pos: nat, e: nat, bytes: nat)
    requires SystemInv(c, s) && Image(c.ring, m, s.ring, s.word)
    requires Stands(s, j, Producer(Signalling(pos), e, bytes))
    ensures CanAct(c, s, Signal(j))
    ensures var t := Act(c, s, Signal(j));
            var l := s.links[j];
            && t.ring == s.ring && t.word == s.word && t.token == s.token && t.postedCalls == s.postedCalls
            && t.consumer == s.consumer
            && t.links == s.links[j := l.(channel := l.channel + [Wrap64(pos)],
                                          signalled := l.signalled + [Wrap64(pos)])]
            && Stands(t, j, Producer(NextEvent, e + 1, bytes)) && Image(c.ring, m, t.ring, t.word)
  {
    hide Image, SystemInv;
  }

  /** `client.signal_posted(seq)`: the number goes to the end of the channel. */
  method SendSignal(seg: Segment, j: nat, seqNo: u64, ghost pos: nat, ghost e: nat, ghost bytes: nat)
    requires seg.me == ProducerTask(j)
    requires seg.Valid() && j < |seg.setup.work| && Stands(seg.sys, j, Producer(Signalling(pos), e, bytes))
    requires seqNo == Wrap64(pos) && j < |seg.links|
    modifies seg`sys, seg`run, seg`links
    ensures seg.Valid() && seg.Since(old(seg.run), 0) && seg.sys.ring == old(seg.sys.ring)
    ensures Stands(seg.sys, j, Producer(NextEvent, e + 1, bytes))
    ensures var l := old(seg.links[j]);
            seg.links == old(seg.links)[j := l.(channel := l.channel + [seqNo], signalled := l.signalled + [seqNo])]
  {
    hide Act, CanAct, Image, Begun, Executes, SystemInv, Starts, Wired, Sound, PopCount, Stands;
    SignalEffect(seg.setup, seg.sys, seg.mem[..], j, pos, e, bytes);
    var l := seg.links[j];
    seg.links := seg.links[j := l.(channel := l.channel + [seqNo], signalled := l.signalled + [seqNo])];
    seg.Take(Signal(j));
  }

  // ----- Leaving the loop -----

  lemma LeaveEffect(c: Setup, s: System, m: seq<byte>, j: nat, p: Producer)
    requires SystemInv(c, s) && Image(c.ring, m, s.ring, s.word) && Stands(s, j, p) && j < |c.work|
    requires p.stage.Rejected? || (p.stage.NextEvent? && p.event == |c.work[j]|)
    ensures var a := if p.stage.Rejected? then Drop(j) else Close(j);
            && CanAct(c, s, a)
            && var t := Act(c, s, a);
            && t.ring == s.ring && t.word == s.word && t.token == s.token && t.postedCalls == s.postedCalls
            && t.consumer == s.consumer && t.links == s.links[j := s.links[j].(closed := true)]
            && Stands(t, j, p.(stage := if p.stage.Rejected? then Failed else Closing))
            && Image(c.ring, m, t.ring, t.word)
  {
    hide Image, SystemInv;
  }

  /** The sending end of the channel is dropped: by `bail`, or by `shutdown`. */
  method CloseChannel(seg: Segment, j: nat, ghost p: Producer)
    requires seg.me == ProducerTask(j)
    requires seg.Valid() && j < |seg.setup.work| && Stands(seg.sys, j, p) && j < |seg.links|
    requires p.stage.Rejected? || (p.stage.NextEvent? && p.event == |seg.setup.work[j]|)
    modifies seg`sys, seg`run, seg`links
    ensures seg.Valid() && seg.Since(old(seg.run), 0) && seg.sys.ring == old(seg.sys.ring)
    ensures Stands(seg.sys, j, p.(stage := if p.stage.Rejected? then Failed else Closing))
    ensures seg.links == old(seg.links)[j := old(seg.links[j]).(closed := true)]
  {
    hide Act, CanAct, Image, Begun, Executes, SystemInv, Starts, Wired, Sound, PopCount, Stands;
    LeaveEffect(seg.setup, seg.sys, seg.mem[..], j, p);
    seg.links := seg.links[j := seg.links[j].(closed := true)];
    seg.Take(if p.stage.Rejected? then Drop(j) else Close(j));
  }

  lemma ExitEffect(c: Setup, s: System, m: seq<byte>, j: nat, p: Producer)
    requires SystemInv(c, s) && Image(c.ring, m, s.ring, s.word) && Stands(s, j, p) && p.stage.Failed?
    ensures CanAct(c, s, Exit(j))
    ensures var t := Act(c, s, Exit(j));
            var l := s.links[j];
            && t.ring == s.ring && t.word == s.word && t.token == s.token && t.postedCalls == s.postedCalls
            && t.consumer == s.consumer
            && t.links == s.links[j := l.(channel := [], writer := Exited, lost := InHand(l.writer) + l.channel)]
            && Stands(t, j, p.(stage := Gone)) && Image(c.ring, m, t.ring, t.word)
  {
    hide Image, SystemInv;
  }

  /** The process ends after a failed `run`: what waits in the channel or in the writer task's hands is lost. */
  method LeaveProcess(seg: Segment, j: nat, ghost p: Producer)
    requires seg.me == ProducerTask(j)
    requires seg.Valid() && j < |seg.setup.work| && Stands(seg.sys, j, p) && j < |seg.links| && p.stage.Failed?
    modifies seg`sys, seg`run, seg`links
    ensures seg.Valid() && seg.Since(old(seg.run), 0) && seg.sys.ring == old(seg.sys.ring)
    ensures Stands(seg.sys, j, p.(stage := Gone))
    ensures var l := old(seg.links[j]);
            seg.links == old(seg.links)[j := l.(channel := [], writer := Exited, lost := InHand(l.writer) + l.channel)]
  {
    hide Act, CanAct, Image, Begun, Executes, SystemInv, Starts, Wired, Sound, PopCount, Stands;
    ExitEffect(seg.setup, seg.sys, seg.mem[..], j, p);
    var l := seg.links[j];
    seg.links := seg.links[j := l.(channel := [], writer := Exited, lost := InHand(l.writer) + l.channel)];
    seg.Take(Exit(j));
  }

  // ----- One event -----

  /** Push, retrying while the ring is full, then post. It is cut off only after `patience` retries; `left`
      is what remains of them, so that `push` has been called once more often than that number has fallen. */
  method Deliver(seg: Segment, j: nat, scratch: seq<byte>, patience: nat, ghost e: nat, ghost bytes: nat)
    returns (outcome: Outcome, left: nat)
    requires seg.me == ProducerTask(j)
    requires seg.Valid() && j < |seg.setup.work| && Stands(seg.sys, j, Producer(Ready, e, bytes))
    requires Calling(seg.setup, seg.sys, j, scratch)
    modifies seg, seg.mem
    ensures left <= patience && seg.Valid() && seg.Since(old(seg.run), patience - left + 1)
    ensures seg.turns >= old(seg.turns) && Grown(old(seg.sys), seg.sys)
    ensures outcome.Done? ==> Stands(seg.sys, j, Producer(NextEvent, e + 1, bytes)) && |scratch| <= seg.cfg.MaxPayload()
    ensures outcome.Refused? <==> |scratch| > seg.cfg.MaxPayload()
    ensures outcome.Refused? ==> Stands(seg.sys, j, Producer(Failed, e, bytes))
    ensures outcome.GaveUp? ==> Stands(seg.sys, j, Producer(Sleeping, e, bytes)) && left == 0
  {
    hide Act, CanAct, Image, Begun, Executes, SystemInv, Starts, Sound, PopCount;
    left := patience;
    var waiting := true;
    outcome := GaveUp;
    while waiting
      invariant left <= patience && seg.Valid()
      invariant seg.Since(old(seg.run), patience - left + (if waiting then 0 else 1))
      invariant seg.turns >= old(seg.turns) && Grown(old(seg.sys), seg.sys)
      invariant waiting ==> outcome.GaveUp? && Calling(seg.setup, seg.sys, j, scratch) &&
                            Stands(seg.sys, j, Producer(seg.sys.producers[j].stage, e, bytes))
      invariant outcome.Done? ==> |scratch| <= seg.cfg.MaxPayload()
      invariant outcome.Done? ==> Stands(seg.sys, j, Producer(NextEvent, e + 1, bytes))
      invariant outcome.Refused? ==> |scratch| > seg.cfg.MaxPayload() && Stands(seg.sys, j, Producer(Failed, e, bytes))
      invariant !waiting && outcome.GaveUp? ==>
                  Stands(seg.sys, j, Producer(Sleeping, e, bytes)) && |scratch| <= seg.cfg.MaxPayload() && left == 0
      decreases left + if waiting then 1 else 0
    {
      var r := Push.Push(seg, j, scratch);
      match r
      case Pushed(pos) =>
        PostAndSignal(seg, old(seg.sys), j, scratch, pos, e, bytes);
        outcome, waiting := Done, false;
      case Full =>
        NotInside(seg.setup, seg.sys, j);
        if left == 0 {
          waiting := false;
        } else {
          left := left - 1;
          Await(seg, j, Producer(Sleeping, e, bytes));
          MayCall(seg.setup, seg.sys, j, e, bytes);
        }
      case TooBig =>
        NotInside(seg.setup, seg.sys, j);
        CloseChannel(seg, j, Producer(Rejected, e, bytes));
        outcome, waiting := Refused, false;
    }
  }

  /** After a successful push: the CAS, and the signal if it is won. */
  method PostAndSignal(seg: Segment, ghost start: System, j: nat, ghost scratch: seq<byte>, pos: u64,
                  ghost e: nat, ghost bytes: nat)
    requires seg.me == ProducerTask(j)
    requires seg.Valid() && j < |seg.setup.work| && Grown(start, seg.sys)
    requires exists p: nat :: pos == Wrap64(p) && PublishedBy(seg.cfg, seg.sys, j, scratch, p)
    requires seg.sys.producers[j].event == e && seg.sys.producers[j].wireBytes == bytes
    modifies seg, seg.mem
    ensures seg.Valid() && seg.Since(old(seg.run), 0) && seg.turns >= old(seg.turns) && Grown(start, seg.sys)
    ensures Stands(seg.sys, j, Producer(NextEvent, e + 1, bytes))
  {
    hide Act, CanAct, Image, Begun, Executes, SystemInv, Starts, Sound, PopCount;
    ghost var p: nat :| pos == Wrap64(p) && PublishedBy(seg.cfg, seg.sys, j, scratch, p);
    NotInside(seg.setup, seg.sys, j);
    Await(seg, j, Producer(Posting(p), e, bytes));
    var won := PostEvent(seg, j, p, e, bytes);
    if won {
      Await(seg, j, Producer(Signalling(p), e, bytes));
      SendSignal(seg, j, pos, p, e, bytes);
    }
  }

  // ----- The loop -----

  lemma RecordedAt(c: Setup, s: System, j: nat, p: Producer)
    requires SystemInv(c, s) && j < |c.work| && Stands(s, j, p) && !p.stage.Posting? && !p.stage.Signalling?
    ensures p.event <= |c.work[j]| && OwnData(s.ring.log, j) == c.work[j][..p.event]
  {
    assert ProducerOk(c, s, j);
  }

  /** The hot loop of producer `j`. Done: every one of its events stands in history, once and in order.
      Refused: an event is longer than a slot can take; the events before it stand in history, that one and
      the ones after it do not, and the channel is closed. In both cases `wireBytes` counts what was
      encoded. GaveUp: the loop was cut off at an event, having pushed once for each event up to that one and
      `patience` times more. */
  method HotLoop(seg: Segment, j: nat, patience: nat) returns (outcome: Outcome, wireBytes: nat)
    requires seg.me == ProducerTask(j)
    requires seg.Valid() && j < |seg.setup.work| && Stands(seg.sys, j, Producer(NextEvent, 0, 0))
    modifies seg, seg.mem
    ensures seg.Valid() && old(seg.run) <= seg.run && seg.turns >= old(seg.turns) && Grown(old(seg.sys), seg.sys)
    ensures outcome.Done? ==>
              && Stands(seg.sys, j, Producer(NextEvent, |seg.setup.work[j]|, wireBytes))
              && OwnData(seg.sys.ring.log, j) == seg.setup.work[j] && wireBytes == Bytes(seg.setup.work[j])
    ensures !outcome.Done? ==>
              exists e: nat :: e < |seg.setup.work[j]| && Stopped(seg.setup, seg.sys, j, outcome, e, wireBytes)
    ensures TriedEnough(seg.sys, j, Begun(seg.me, old(seg.run)), Begun(seg.me, seg.run), patience)
    ensures outcome.Done? ==> Fitting(seg.setup, j, |seg.setup.work[j]|)
  {
    hide Act, CanAct, Image, Begun, Executes, SystemInv, Starts, Sound, PopCount, OwnData, Calling;
    var left: nat, n := patience, |seg.setup.work[j]|;
    outcome, wireBytes := Done, 0;
    var i := 0;
    while i < n && outcome.Done?
      invariant seg.Valid() && seg.turns >= old(seg.turns) && Grown(old(seg.sys), seg.sys) && left <= patience
      invariant seg.Since(old(seg.run), i + patience - left + (if outcome.Done? then 0 else 1))
      invariant outcome.GaveUp? ==> left == 0
      invariant i <= n && Fitting(seg.setup, j, i)
      invariant outcome.Done? ==> Stands(seg.sys, j, Producer(NextEvent, i, wireBytes)) &&
                                  wireBytes == Bytes(seg.setup.work[j][..i])
      invariant !outcome.Done? ==> i < n && Stopped(seg.setup, seg.sys, j, outcome, i, wireBytes)
      decreases n - i, outcome.Done?
    {
      var scratch;
      BytesExtend(seg.setup.work[j][..i], seg.setup.work[j][i]);
      assert seg.setup.work[j][..i + 1] == seg.setup.work[j][..i] + [seg.setup.work[j][i]];
      scratch, wireBytes := EncodeEvent(seg, j, i, wireBytes);
      Await(seg, j, Producer(Ready, i, wireBytes));
      MayCall(seg.setup, seg.sys, j, i, wireBytes);
      outcome, left := Deliver(seg, j, scratch, left, i, wireBytes);
      if outcome.Done? {
        i := i + 1;
      } else {
        RecordedAt(seg.setup, seg.sys, j, seg.sys.producers[j]);
      }
    }
    if outcome.Done? {
      RecordedAt(seg.setup, seg.sys, j, seg.sys.producers[j]);
      assert seg.setup.work[j][..n] == seg.setup.work[j];
    }
  }

  /** Between two counts of its calls of `push`, producer `j` has called it once for each event up to the one
      it stands at, and at most `patience` times more; exactly `patience` times if it waits for room. */
  ghost predicate TriedEnough(s: System, j: nat, before: nat, after: nat, patience: nat) {
    && j < |s.producers|
    && var p := s.producers[j];
    var first := before + p.event + (if p.stage.Sleeping? || p.stage.Failed? || p.stage.Gone? then 1 else 0);
    && first <= after <= first + patience
    && (p.stage.Sleeping? ==> after == first + patience)
  }

  ghost predicate Fitting(c: Setup, j: nat, e: nat) {
    && j < |c.work| && e <= |c.work[j]| && c.ring.Sized()
    && forall i :: 0 <= i < e ==> |c.work[j][i]| <= c.ring.MaxPayload()
  }

  /** The loop ended at event `e` without delivering it. */
  ghost predicate Stopped(c: Setup, s: System, j: nat, outcome: Outcome, e: nat, wireBytes: nat) {
    && Fitting(c, j, e) && e < |c.work[j]|
    && (outcome.Refused? <==> |c.work[j][e]| > c.ring.MaxPayload())
    && Stands(s, j, Producer(if outcome.Refused? then Failed else Sleeping, e, wireBytes))
    && OwnData(s.ring.log, j) == c.work[j][..e] && wireBytes == Bytes(c.work[j][..e + 1])
  }
}
