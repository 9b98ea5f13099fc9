/** How the parties of the system fit together in every reachable state: which program counters
    go together, which events of which producer are in the ring's history, what travels on the signal
    lines. */
module SystemInvariant {
  import opened Words
  import opened Geometry
  import opened RingModel
  import opened RingInvariant
  import opened System

  // ----- The history of one producer -----

  /** The payloads of producer `j` among the reservations, in reservation order. */
  function OwnData(log: seq<Entry>, j: nat): seq<seq<byte>> {
    if log == [] then []
    else
      var e := log[|log| - 1];
      OwnData(log[..|log| - 1], j) + (if e.owner == j then [e.data] else [])
  }

  lemma OwnDataExtends(log: seq<Entry>, e: Entry, j: nat)
    ensures OwnData(log + [e], j) == OwnData(log, j) + (if e.owner == j then [e.data] else [])
  {
    assert (log + [e])[..|log|] == log;
  }

  /** How many of its events producer `j` has won a position for. */
  function ReservedBy(s: System, j: nat): nat
    requires j < |s.producers| && j < |s.ring.producers|
  {
    var p := s.producers[j];
    if s.ring.producers[j].Writing() || p.stage.Posting? || p.stage.Signalling? then p.event + 1 else p.event
  }

  // ----- The invariant -----

  ghost predicate ProducerOk(c: Setup, s: System, j: nat)
    requires Wired(c, s) && j < |s.producers|
  {
    var p := s.producers[j];
    var pc := s.ring.producers[j];
    var work := c.work[j];
    && p.event <= |work|
    && (p.stage.Pushing? <==> !pc.NotPushing?)
    && (p.stage.Pushing? || p.stage.Sleeping? || p.stage.Posting? || p.stage.Signalling? ==>
          p.event < |work| && |work[p.event]| <= c.ring.MaxPayload())
    && (p.stage.Ready? ==> p.event < |work|)
    && (p.stage.Pushing? ==> pc.data == work[p.event])
    && (p.stage.Posting? || p.stage.Signalling? ==>
          p.stage.pos < |s.ring.log| && s.ring.log[p.stage.pos] == Entry(j, work[p.event]))
    && (p.stage.Closing? || p.stage.Finished? ==> p.event == |work|)
    && (p.stage.Rejected? || p.stage.Failed? || p.stage.Gone? ==>
          p.event < |work| && |work[p.event]| > c.ring.MaxPayload())
    && OwnData(s.ring.log, j) == work[..ReservedBy(s, j)]
  }

  ghost predicate LinkOk(c: Setup, s: System, j: nat)
    requires Wired(c, s) && j < |s.links|
  {
    var l := s.links[j];
    var stage := s.producers[j].stage;
    && (l.closed <==> stage.Closing? || stage.Finished? || stage.Failed? || stage.Gone?)
    && (l.writer.Exited? ==> l.closed && l.channel == [])
    && (stage.Finished? || stage.Gone? ==> l.writer.Exited?)
    && (l.reader.Ended? ==> l.writer.Exited? && l.socket == [])
    && (stage.Gone? ==> l.signalled == l.written + l.lost)
    && (!stage.Gone? ==> l.lost == [] && l.signalled == l.written + InHand(l.writer) + l.channel)
    && l.written == l.served + InService(l.reader) + l.socket
    && |l.signalled| <= s.producers[j].event
  }

  function InService(r: Reader): seq<u64> {
    if r.Counting? then [r.signal] else []
  }

  predicate ConsumerOk(s: System) {
    && (s.consumer.loop.Drain? || s.consumer.loop.Recheck? <==> !s.ring.consumer.NotPopping?)
    && (s.word == RUNNING || s.word == PARKED)
    && (s.word == PARKED ==>
          s.consumer.loop.Recheck? || s.consumer.loop.Rescued? || s.consumer.loop.Parked? || s.consumer.loop.Waking?)
  }

  ghost predicate SystemInv(c: Setup, s: System) {
    && Wired(c, s)
    && Inv(c.ring, s.ring)
    && (forall j: nat :: j < |s.producers| ==> ProducerOk(c, s, j))
    && (forall j: nat :: j < |s.links| ==> LinkOk(c, s, j))
    && ConsumerOk(s)
  }

  // ----- Preservation -----

  /** The ring inside the system only ever takes steps of the ring model. */
  lemma RingPart(c: Setup, s: System, a: Action)
    requires Sound(c.ring) && Wired(c, s) && Inv(c.ring, s.ring) && CanAct(c, s, a)
    ensures Inv(c.ring, Act(c, s, a).ring)
  {
    var r := Act(c, s, a).ring;
    if a.Access? {
      StepInv(c.ring, s.ring, a.step);
    } else if r != s.ring {
      if IsProducerAction(a) {
        StepInv(c.ring, s.ring, CallPush(a.j, c.work[a.j][s.producers[a.j].event]));
      } else {
        StepInv(c.ring, s.ring, CallPop);
      }
    }
  }

  lemma AccessKeepsProducers(c: Setup, s: System, step: Step)
    requires Sound(c.ring) && SystemInv(c, s) && CanAccess(c, s, step)
    ensures var t := DoAccess(c, s, step); forall j: nat :: j < |t.producers| ==> ProducerOk(c, t, j)
  {
    var t := DoAccess(c, s, step);
    forall j: nat | j < |t.producers| ensures ProducerOk(c, t, j) {
      if !IsPushStep(step) {
        PopKeepsProducer(c, s, step, j);
      } else if step.j == j {
        OwnAccess(c, s, step);
      } else {
        ForeignAccess(c, s, step, j);
      }
    }
  }

  lemma PopKeepsProducer(c: Setup, s: System, step: Step, j: nat)
    requires SystemInv(c, s) && CanAccess(c, s, step) && !IsPushStep(step) && j < |s.producers|
    ensures ProducerOk(c, DoAccess(c, s, step), j)
  {
    assert ProducerOk(c, s, j);
    PopFrame(c.ring, s.ring, step);
    hide Do, Inv, SystemInv, OwnData;
  }

  lemma ForeignAccess(c: Setup, s: System, step: Step, j: nat)
    requires Sound(c.ring) && SystemInv(c, s) && CanAccess(c, s, step)
    requires j < |s.producers| && IsPushStep(step) && step.j != j
    ensures ProducerOk(c, DoAccess(c, s, step), j)
  {
    hide Do, Inv, OwnData;
    PushFrame(c.ring, s.ring, step);
    assert ProducerOk(c, s, j);
    if WinsCas(s.ring, step) {
      OwnDataExtends(s.ring.log, Entry(step.j, s.ring.producers[step.j].data), j);
    }
    hide SystemInv;
  }

  lemma WinsOwn(c: Setup, s: System, step: Step)
    requires Sound(c.ring) && SystemInv(c, s) && CanAccess(c, s, step) && WinsCas(s.ring, step)
    ensures ProducerOk(c, DoAccess(c, s, step), step.j)
  {
    var j := step.j;
    assert ProducerOk(c, s, j);
    OwnDataExtends(s.ring.log, Entry(j, s.ring.producers[j].data), j);
    var e := s.producers[j].event;
    assert c.work[j][..e + 1] == c.work[j][..e] + [c.work[j][e]];
    hide Inv, SystemInv;
  }

  lemma OwnAccess(c: Setup, s: System, step: Step)
    requires Sound(c.ring) && SystemInv(c, s) && CanAccess(c, s, step) && IsPushStep(step)
    ensures ProducerOk(c, DoAccess(c, s, step), step.j)
  {
    hide DoPop, SlotInv, ConsumerInv, LinkOk;
    var j := step.j;
    if WinsCas(s.ring, step) {
      WinsOwn(c, s, step);
    } else {
      assert ProducerOk(c, s, j);
      assert ProducerInv(c.ring, s.ring, j);
      PushFrame(c.ring, s.ring, step);
      hide Inv, SystemInv, OwnData;
    }
  }

  lemma ProduceKeepsProducers(c: Setup, s: System, a: Action)
    requires Sound(c.ring) && SystemInv(c, s) && IsProducerAction(a) && CanProduce(c, s, a)
    ensures var t := Produce(c, s, a); forall j: nat :: j < |t.producers| ==> ProducerOk(c, t, j)
  {
    hide Inv, OwnData;
    var t := Produce(c, s, a);
    forall j: nat | j < |t.producers| ensures ProducerOk(c, t, j) {
      assert ProducerOk(c, s, j);
      if a.j == j {
        OwnProduce(c, s, a);
      } else {
        assert t.producers[j] == s.producers[j] && t.ring.producers[j] == s.ring.producers[j];
        assert t.ring.log == s.ring.log;
      }
    }
  }

  lemma OwnProduce(c: Setup, s: System, a: Action)
    requires Sound(c.ring) && SystemInv(c, s) && IsProducerAction(a) && CanProduce(c, s, a)
    ensures ProducerOk(c, Produce(c, s, a), a.j)
  {
    assert ProducerOk(c, s, a.j);
    assert Produce(c, s, a).ring.log == s.ring.log;
    hide Inv, SystemInv, OwnData;
  }

  lemma OthersKeepProducers(c: Setup, s: System, a: Action)
    requires SystemInv(c, s) && !a.Access? && !IsProducerAction(a) && CanAct(c, s, a)
    ensures var t := Act(c, s, a); forall j: nat :: j < |t.producers| ==> ProducerOk(c, t, j)
  {
    hide Inv, OwnData, DoAccess, Produce;
    var t := Act(c, s, a);
    forall j: nat | j < |t.producers| ensures ProducerOk(c, t, j) {
      assert ProducerOk(c, s, j);
    }
  }

  lemma KeepsLinks(c: Setup, s: System, a: Action)
    requires SystemInv(c, s) && CanAct(c, s, a)
    ensures var t := Act(c, s, a); forall j: nat :: j < |t.links| ==> LinkOk(c, t, j)
  {
    var t := Act(c, s, a);
    forall j: nat | j < |t.links| ensures LinkOk(c, t, j) {
      assert LinkOk(c, s, j);
      assert ProducerOk(c, s, j);
      if a.Access? {
        AccessStep(c, s, a.step, j);
      } else if IsProducerAction(a) {
        ProduceStep(c, s, a, j);
      } else if IsLinkAction(a) {
        if a.j == j {
          LinkStep(c, s, a);
        }
      }
    }
  }

  lemma ProduceStep(c: Setup, s: System, a: Action, j: nat)
    requires SystemInv(c, s) && IsProducerAction(a) && CanProduce(c, s, a) && j < |s.links|
    ensures LinkOk(c, Produce(c, s, a), j)
  {
    assert LinkOk(c, s, j) && ProducerOk(c, s, j);
    assert Wired(c, s);
    hide Do, Inv, SystemInv, Produce, LinkOk, ProducerOk;
    if a.j == j {
      OwnLink(c, s, a);
    } else {
      ForeignLink(c, s, a, j);
    }
  }

  lemma OwnLink(c: Setup, s: System, a: Action)
    requires Wired(c, s) && IsProducerAction(a) && CanProduce(c, s, a) && a.j < |s.links|
    requires LinkOk(c, s, a.j) && ProducerOk(c, s, a.j)
    ensures LinkOk(c, Produce(c, s, a), a.j)
  {
    hide Do, OwnData, ReservedBy;
  }

  lemma ForeignLink(c: Setup, s: System, a: Action, j: nat)
    requires Wired(c, s) && IsProducerAction(a) && CanProduce(c, s, a) && j < |s.links| && a.j != j
    requires LinkOk(c, s, j)
    ensures LinkOk(c, Produce(c, s, a), j)
  {
    assert Produce(c, s, a).links[j] == s.links[j] && Produce(c, s, a).producers[j] == s.producers[j] by {
      hide Do;
    }
    hide Produce;
  }

  /** An access moves a stage only between ones for which the line stays open. */
  lemma AccessStep(c: Setup, s: System, step: Step, j: nat)
    requires SystemInv(c, s) && CanAccess(c, s, step) && j < |s.links|
    ensures LinkOk(c, DoAccess(c, s, step), j)
  {
    assert LinkOk(c, s, j);
    var t := DoAccess(c, s, step);
    assert t.links == s.links;
    assert t.producers[j] == s.producers[j] ||
           (s.producers[j].stage.Pushing? && (t.producers[j].stage.Posting? || t.producers[j].stage.Sleeping?));
  }

  lemma LinkStep(c: Setup, s: System, a: Action)
    requires SystemInv(c, s) && IsLinkAction(a) && CanLink(c, s, a)
    ensures LinkOk(c, Convey(c, s, a), a.j)
  {
    assert LinkOk(c, s, a.j);
    var l, m := s.links[a.j], Convey(c, s, a).links[a.j];
    if a.WriterRecv? || a.WriterSend? || a.WriterExit? {
      WriterSide(l, m, a);
    } else {
      ReaderSide(l, m, a);
    }
  }

  lemma WriterSide(l: Link, m: Link, a: Action)
    requires l.signalled == l.written + InHand(l.writer) + l.channel
    requires l.written == l.served + InService(l.reader) + l.socket
    requires match a
             case WriterRecv(_) => l.writer.Waiting? && l.channel != [] &&
                                   m == l.(channel := l.channel[1..], writer := Holding(l.channel[0]))
             case WriterSend(_) => l.writer.Holding? &&
                                   m == l.(writer := Waiting, socket := l.socket + [l.writer.signal],
                                           written := l.written + [l.writer.signal])
             case WriterExit(_) => l.writer.Waiting? && m == l.(writer := Exited)
             case _ => false
    ensures m.signalled == m.written + InHand(m.writer) + m.channel
    ensures m.written == m.served + InService(m.reader) + m.socket
  {
    if a.WriterRecv? {
      assert l.channel == [l.channel[0]] + l.channel[1..];
    }
  }

  lemma ReaderSide(l: Link, m: Link, a: Action)
    requires l.written == l.served + InService(l.reader) + l.socket
    requires match a
             case ReadLine(_) => l.reader.Reading? && l.socket != [] &&
                                 m == l.(socket := l.socket[1..], reader := Counting(l.socket[0]))
             case CountPosted(_) => l.reader.Counting? &&
                                    m == l.(reader := Unparking, served := l.served + [l.reader.signal])
             case Unpark(_) => l.reader.Unparking? && m == l.(reader := Reading)
             case ReadEof(_) => l.reader.Reading? && m == l.(reader := Ended)
             case _ => false
    ensures m.written == m.served + InService(m.reader) + m.socket
  {
    if a.ReadLine? {
      assert l.socket == [l.socket[0]] + l.socket[1..];
    }
  }

  lemma KeepsConsumer(c: Setup, s: System, a: Action)
    requires SystemInv(c, s) && CanAct(c, s, a)
    ensures ConsumerOk(Act(c, s, a))
  {
    hide DoAccess, Produce, Convey, Consume, ConsumerOk;
    if a.Access? {
      AccessKeepsConsumer(c, s, a.step);
    } else if IsProducerAction(a) {
      ProduceKeepsConsumer(c, s, a);
    } else if IsLinkAction(a) {
      ConveyKeepsConsumer(c, s, a);
    } else {
      LoopKeepsConsumer(c, s, a);
    }
  }

  lemma ProduceKeepsConsumer(c: Setup, s: System, a: Action)
    requires Wired(c, s) && ConsumerOk(s) && IsProducerAction(a) && CanProduce(c, s, a)
    ensures ConsumerOk(Produce(c, s, a))
  {
    assert Produce(c, s, a).ring.consumer == s.ring.consumer;
  }

  lemma ConveyKeepsConsumer(c: Setup, s: System, a: Action)
    requires Wired(c, s) && ConsumerOk(s) && IsLinkAction(a) && CanLink(c, s, a)
    ensures ConsumerOk(Convey(c, s, a))
  {
    hide Do;
  }

  lemma LoopKeepsConsumer(c: Setup, s: System, a: Action)
    requires Wired(c, s) && ConsumerOk(s)
    requires !a.Access? && !IsProducerAction(a) && !IsLinkAction(a) && CanConsume(c, s, a)
    ensures ConsumerOk(Consume(c, s, a))
  {
    hide DoPush;
  }

  lemma AccessKeepsConsumer(c: Setup, s: System, step: Step)
    requires SystemInv(c, s) && CanAccess(c, s, step)
    ensures ConsumerOk(DoAccess(c, s, step))
  {
    hide Inv;
    if IsPushStep(step) {
      PushFrame(c.ring, s.ring, step);
      hide Do;
    }
  }

  lemma ActInv(c: Setup, s: System, a: Action)
    requires Sound(c.ring) && SystemInv(c, s) && CanAct(c, s, a)
    ensures SystemInv(c, Act(c, s, a))
  {
    RingPart(c, s, a);
    KeepsLinks(c, s, a);
    KeepsConsumer(c, s, a);
    if a.Access? {
      AccessKeepsProducers(c, s, a.step);
    } else if IsProducerAction(a) {
      ProduceKeepsProducers(c, s, a);
    } else {
      OthersKeepProducers(c, s, a);
    }
  }

  lemma StartsInv(c: Setup, s: System)
    requires Sound(c.ring) && Starts(c, s)
    ensures SystemInv(c, s)
  {
    InitialInv(c.ring, s.ring);
  }

  lemma {:induction false} ExecutionInv(c: Setup, s: System, actions: seq<Action>, t: System)
    requires Sound(c.ring) && SystemInv(c, s) && Executes(c, s, actions, t)
    ensures SystemInv(c, t)
    decreases |actions|
  {
    if actions != [] {
      ActInv(c, s, actions[0]);
      ExecutionInv(c, Act(c, s, actions[0]), actions[1..], t);
    }
  }

  lemma OccursInv(c: Setup, t: System)
    requires Sound(c.ring) && Occurs(c, t)
    ensures SystemInv(c, t)
  {
    var s, actions :| Starts(c, s) && Executes(c, s, actions, t);
    StartsInv(c, s);
    ExecutionInv(c, s, actions, t);
  }
}
