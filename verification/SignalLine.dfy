/** The far end of a producer's signals: the writer task that drains the channel, `shutdown`, which waits
    for it, and the server loop that counts `posted` lines and unparks the consumer; each with every other
    party running in between. */
module SignalLine {
  import opened Words
  import opened Geometry
  import opened RingModel
  import opened RingInvariant
  import opened System
  import opened SystemInvariant
  import opened Memory
  import opened Rely
  import opened Segment
  import opened ProducerLoop
  import opened Statistics

  // ----- What the others can do to a line -----

  /** The writer task has died with its process; what it had not written is lost. */
  ghost predicate Killed(t: System, j: nat) {
    && j < |t.links| == |t.producers|
    && t.producers[j].stage.Gone? && t.links[j].writer.Exited?
  }

  /** Seen from the writer task: nothing it has written changes, and it is killed or the channel only grows
      at its end. */
  ghost predicate WriterKeeps(s: System, t: System, j: nat) {
    && j < |s.links| == |t.links|
    && t.links[j].written == s.links[j].written
    && (Killed(t, j) || (t.links[j].writer == s.links[j].writer && s.links[j].channel <= t.links[j].channel))
  }

  /** Seen from the server loop: the socket only grows at its end, and no more once the writer task has
      ended. */
  ghost predicate ServerKeeps(s: System, t: System, j: nat) {
    && j < |s.links| == |t.links|
    && t.links[j].reader == s.links[j].reader && s.links[j].socket <= t.links[j].socket
    && t.links[j].served == s.links[j].served
    && (s.links[j].writer.Exited? ==> t.links[j].writer.Exited? && t.links[j].socket == s.links[j].socket)
  }

  /** A closed channel stays closed, and nobody puts anything into it. */
  ghost predicate StaysClosed(s: System, t: System, j: nat) {
    && j < |s.links| == |t.links|
    && (s.links[j].closed ==> t.links[j].closed && |t.links[j].channel| <= |s.links[j].channel|)
  }

  lemma ClosedStays(c: Setup, s: System, a: Action, j: nat)
    requires SystemInv(c, s) && CanAct(c, s, a) && j < |s.links|
    ensures StaysClosed(s, Act(c, s, a), j)
  {
    assert LinkOk(c, s, j);
    hide Do, DoAccess, Produce, Convey, Consume, SystemInv;
    if a.Access? {
      AccessKeepsLines(c, s, a.step);
    } else if IsProducerAction(a) {
      ProduceKeepsClosed(c, s, a, j);
    } else if IsLinkAction(a) {
      ConveyKeepsClosed(c, s, a, j);
    } else {
      ConsumeKeepsLines(c, s, a);
    }
  }

  lemma ProduceKeepsClosed(c: Setup, s: System, a: Action, j: nat)
    requires Wired(c, s) && IsProducerAction(a) && CanProduce(c, s, a) && j < |s.links| && LinkOk(c, s, j)
    ensures StaysClosed(s, Produce(c, s, a), j)
  {
    hide Do;
    if a.j != j {
      ForeignProduceKeepsLine(c, s, a, j);
    } else if !a.Close? && !a.Drop? && !a.Exit? {
      assert s.links[j].closed ==> Produce(c, s, a).links == s.links;
    }
  }

  lemma ConveyKeepsClosed(c: Setup, s: System, a: Action, j: nat)
    requires Wired(c, s) && IsLinkAction(a) && CanLink(c, s, a) && j < |s.links|
    ensures StaysClosed(s, Convey(c, s, a), j)
  {
    hide Do;
  }

  lemma LineKeepsStep(c: Setup, s: System, a: Action, j: nat)
    requires Wired(c, s) && CanAct(c, s, a) && j < |s.links|
    ensures !By(a, WriterTask(j)) ==> WriterKeeps(s, Act(c, s, a), j)
    ensures !By(a, ServerLoop(j)) ==> ServerKeeps(s, Act(c, s, a), j)
    ensures Killed(s, j) ==> Killed(Act(c, s, a), j)
  {
    hide Do, DoAccess, Produce, Convey, Consume;
    if a.Access? {
      AccessKeepsLines(c, s, a.step);
    } else if IsProducerAction(a) {
      ProduceKeepsLine(c, s, a, j);
    } else if IsLinkAction(a) {
      ConveyKeepsLine(c, s, a, j);
    } else {
      ConsumeKeepsLines(c, s, a);
    }
  }

  lemma AccessKeepsLines(c: Setup, s: System, step: Step)
    requires Wired(c, s) && CanAccess(c, s, step)
    ensures var t := DoAccess(c, s, step);
            && t.links == s.links
            && forall j :: 0 <= j < |s.producers| && s.producers[j].stage.Gone? ==> t.producers[j] == s.producers[j]
  {
    hide Do;
  }

  lemma ProduceKeepsLine(c: Setup, s: System, a: Action, j: nat)
    requires Wired(c, s) && IsProducerAction(a) && CanProduce(c, s, a) && j < |s.links|
    ensures WriterKeeps(s, Produce(c, s, a), j) && ServerKeeps(s, Produce(c, s, a), j)
    ensures Killed(s, j) ==> Killed(Produce(c, s, a), j)
  {
    if a.j == j {
      OwnProduceKeepsLine(c, s, a);
    } else {
      ForeignProduceKeepsLine(c, s, a, j);
      hide Produce, CanProduce;
    }
  }

  lemma OwnProduceKeepsLine(c: Setup, s: System, a: Action)
    requires Wired(c, s) && IsProducerAction(a) && CanProduce(c, s, a)
    ensures WriterKeeps(s, Produce(c, s, a), a.j) && ServerKeeps(s, Produce(c, s, a), a.j) && !Killed(s, a.j)
  {
    hide Do;
    if !a.Signal? && !a.Close? && !a.Drop? && !a.Exit? {
      assert Produce(c, s, a).links == s.links;
    }
  }

  lemma ForeignProduceKeepsLine(c: Setup, s: System, a: Action, j: nat)
    requires Wired(c, s) && IsProducerAction(a) && CanProduce(c, s, a) && j < |s.links| && a.j != j
    ensures var t := Produce(c, s, a);
            |t.links| == |t.producers| == |s.links| && t.links[j] == s.links[j] && t.producers[j] == s.producers[j]
  {
    hide Do;
  }

  lemma ConveyKeepsLine(c: Setup, s: System, a: Action, j: nat)
    requires Wired(c, s) && IsLinkAction(a) && CanLink(c, s, a) && j < |s.links|
    ensures !By(a, WriterTask(j)) ==> WriterKeeps(s, Convey(c, s, a), j)
    ensures !By(a, ServerLoop(j)) ==> ServerKeeps(s, Convey(c, s, a), j)
    ensures Killed(s, j) ==> Killed(Convey(c, s, a), j)
  {
    hide Do;
  }

  lemma ConsumeKeepsLines(c: Setup, s: System, a: Action)
    requires Wired(c, s) && !a.Access? && !IsProducerAction(a) && !IsLinkAction(a) && CanConsume(c, s, a)
    ensures Consume(c, s, a).links == s.links && Consume(c, s, a).producers == s.producers
  {
    hide Do;
  }

  lemma {:induction false} WriterRely(c: Setup, s: System, actions: seq<Action>, t: System, j: nat)
    requires Sound(c.ring) && SystemInv(c, s) && j < |s.links| && OthersRan(c, WriterTask(j), s, actions, t)
    ensures SystemInv(c, t) && WriterKeeps(s, t, j) && (Killed(s, j) ==> Killed(t, j)) && StaysClosed(s, t, j)
    decreases |actions|
  {
    if actions != [] {
      var a := actions[0];
      assert !By(a, WriterTask(j));
      LineKeepsStep(c, s, a, j);
      ClosedStays(c, s, a, j);
      ActInv(c, s, a);
      var u := Act(c, s, a);
      assert forall i :: 0 <= i < |actions[1..]| ==> actions[1..][i] == actions[i + 1];
      hide Act, By;
      WriterRely(c, u, actions[1..], t, j);
    }
  }

  lemma {:induction false} ServerRely(c: Setup, s: System, actions: seq<Action>, t: System, j: nat)
    requires Sound(c.ring) && SystemInv(c, s) && j < |s.links| && OthersRan(c, ServerLoop(j), s, actions, t)
    ensures SystemInv(c, t) && ServerKeeps(s, t, j)
    decreases |actions|
  {
    if actions != [] {
      var a := actions[0];
      assert !By(a, ServerLoop(j));
      LineKeepsStep(c, s, a, j);
      ActInv(c, s, a);
      var u := Act(c, s, a);
      assert forall i :: 0 <= i < |actions[1..]| ==> actions[1..][i] == actions[i + 1];
      hide Act, By;
      ServerRely(c, u, actions[1..], t, j);
    }
  }

  method YieldWriter(seg: Segment, ghost j: nat)
    requires seg.me == WriterTask(j)
    requires seg.Valid() && j < |seg.links|
    modifies seg, seg.mem
    ensures seg.Valid() && old(seg.run) <= seg.run && seg.turns == old(seg.turns) + 1
    ensures WriterKeeps(old(seg.sys), seg.sys, j) && StaysClosed(old(seg.sys), seg.sys, j)
  {
    ghost var n, before := |seg.run|, seg.sys;
    seg.Interfere();
    WriterRely(seg.setup, before, seg.run[n..], seg.sys, j);
  }

  method YieldServer(seg: Segment, ghost j: nat)
    requires seg.me == ServerLoop(j)
    requires seg.Valid() && j < |seg.links|
    modifies seg, seg.mem
    ensures seg.Valid() && old(seg.run) <= seg.run && seg.turns == old(seg.turns) + 1
    ensures ServerKeeps(old(seg.sys), seg.sys, j)
  {
    ghost var n, before := |seg.run|, seg.sys;
    seg.Interfere();
    ServerRely(seg.setup, before, seg.run[n..], seg.sys, j);
  }

  // ----- Steps on a line -----

  /** A step that touches nothing but line `j`, the count of `posted` calls and the token. */
  ghost predicate OnlyLine(s: System, t: System, j: nat, l: Link) {
    && j < |s.links| && t.links == s.links[j := l]
    && t.ring == s.ring && t.word == s.word && t.consumer == s.consumer && t.producers == s.producers
  }

  predicate Ready(l: Link, a: Action) {
    match a
    case WriterRecv(_) => l.writer.Waiting? && l.channel != []
    case WriterSend(_) => l.writer.Holding?
    case WriterExit(_) => l.writer.Waiting? && l.channel == [] && l.closed
    case ReadLine(_) => l.reader.Reading? && l.socket != []
    case CountPosted(_) => l.reader.Counting?
    case Unpark(_) => l.reader.Unparking?
    case ReadEof(_) => l.reader.Reading? && l.socket == [] && l.writer.Exited?
    case _ => false
  }

  /** The link after one of its own steps. */
  function LinkAfter(l: Link, a: Action): Link
    requires Ready(l, a)
  {
    match a
    case WriterRecv(_) => l.(channel := l.channel[1..], writer := Holding(l.channel[0]))
    case WriterSend(_) =>
      l.(writer := Waiting, socket := l.socket + [l.writer.signal], written := l.written + [l.writer.signal])
    case WriterExit(_) => l.(writer := Exited)
    case ReadLine(_) => l.(socket := l.socket[1..], reader := Counting(l.socket[0]))
    case CountPosted(_) => l.(reader := Unparking, served := l.served + [l.reader.signal])
    case Unpark(_) => l.(reader := Reading)
    case ReadEof(_) => l.(reader := Ended)
  }

  lemma LineEffect(c: Setup, s: System, m: seq<byte>, a: Action)
    requires SystemInv(c, s) && Image(c.ring, m, s.ring, s.word)
    requires IsLinkAction(a) && a.j < |s.links| && Ready(s.links[a.j], a)
    ensures CanAct(c, s, a)
    ensures var t := Act(c, s, a);
            && OnlyLine(s, t, a.j, LinkAfter(s.links[a.j], a)) && Image(c.ring, m, t.ring, t.word)
            && t.postedCalls == s.postedCalls + (if a.CountPosted? then 1 else 0)
            && t.token == (s.token || a.Unpark?)
  {
    assert Wired(c, s);
    hide Image, Do, SystemInv;
  }

  /** One step of a writer task or of the server loop. */
  method LineStep(seg: Segment, a: Action)
    requires seg.Valid() && IsLinkAction(a) && By(a, seg.me) && a.j < |seg.links| && Ready(seg.links[a.j], a)
    modifies seg`sys, seg`run, seg`links, seg`postedCalls, seg`token
    ensures seg.Valid() && old(seg.run) <= seg.run
    ensures OnlyLine(old(seg.sys), seg.sys, a.j, LinkAfter(old(seg.links[a.j]), a))
    ensures seg.postedCalls == Wrap64(old(seg.postedCalls) + (if a.CountPosted? then 1 else 0))
    ensures seg.token == (old(seg.token) || a.Unpark?)
  {
    hide Act, CanAct, Image, Begun, Executes, SystemInv, Starts, Sound, PopCount, Wired, LinkAfter, Ready;
    LineEffect(seg.setup, seg.sys, seg.mem[..], a);
    seg.links := seg.links[a.j := LinkAfter(seg.links[a.j], a)];
    WrapSum(seg.sys.postedCalls, if a.CountPosted? then 1 else 0);
    seg.postedCalls := Wrap64(seg.postedCalls + (if a.CountPosted? then 1 else 0));
    seg.token := seg.token || a.Unpark?;
    seg.Take(a);
  }

  // ----- The writer task -----

  lemma LineBooks(c: Setup, s: System, j: nat)
    requires SystemInv(c, s) && j < |s.links|
    ensures s.links[j].writer.Exited? ==> s.links[j].closed && s.links[j].channel == []
    ensures s.links[j].writer.Exited? ==> s.links[j].signalled == s.links[j].written + s.links[j].lost
    ensures s.links[j].lost != [] ==> Killed(s, j)
    ensures s.links[j].reader.Ended? ==> s.links[j].signalled == s.links[j].served + s.links[j].lost
  {
    assert LinkOk(c, s, j);
  }

  function Min(a: nat, b: nat): nat {
    if a < b then a else b
  }

  /** One number: receive it, write its line. `alive`: the process has not exited in between. */
  method WritePosted(seg: Segment, j: nat) returns (alive: bool)
    requires seg.me == WriterTask(j)
    requires seg.Valid() && j < |seg.links| && seg.links[j].writer.Waiting? && seg.links[j].channel != []
    modifies seg, seg.mem
    ensures seg.Valid() && old(seg.run) <= seg.run && j < |seg.links|
    ensures !alive ==> Killed(seg.sys, j) && seg.links[j].written == old(seg.links[j].written)
    ensures alive ==> seg.links[j].writer.Waiting?
    ensures alive ==> seg.links[j].written == old(seg.links[j].written) + [old(seg.links[j].channel[0])]
    ensures alive ==> old(seg.links[j].channel[1..]) <= seg.links[j].channel
    ensures alive ==> StaysClosedAfter(old(seg.links[j]), seg.links[j], 1)
    ensures seg.turns == old(seg.turns) + 1
  {
    hide Act, CanAct, Image, Begun, Executes, SystemInv, Starts, Wired, Sound, PopCount;
    LineStep(seg, WriterRecv(j));
    YieldWriter(seg, j);
    alive := !seg.links[j].writer.Exited?;
    if alive {
      LineStep(seg, WriterSend(j));
    }
  }

  /** If the channel was closed, it still is, and at least `n` numbers have left it. */
  predicate StaysClosedAfter(l: Link, l': Link, n: nat) {
    l.closed ==> l'.closed && |l'.channel| + n <= |l.channel|
  }

  datatype WriterEnd = StillPolled | Flushed | Died

  /** The writer task of client `j`, polled at most `polls` times: each poll writes one line for the number
      at the front of the channel, so what waited in the channel is written first, in order. It ends by
      itself only when the channel is closed and empty, and then every number ever signalled has been
      written, in order; or it dies with its process, and then what is missing is lost. It does end if the
      channel was closed and there are more polls than numbers waiting. It is still alive only after all its
      polls (each is one turn of the others, and a line written is one more), the last of which has written
      a line or found the channel open and empty. */
  method RunWriter(seg: Segment, j: nat, polls: nat) returns (end: WriterEnd)
    requires seg.me == WriterTask(j)
    requires seg.Valid() && j < |seg.links| && seg.links[j].writer.Waiting?
    modifies seg, seg.mem
    ensures seg.Valid() && old(seg.run) <= seg.run && j < |seg.links|
    ensures if end.StillPolled? then seg.links[j].writer.Waiting? else seg.links[j].writer.Exited?
    ensures end.Flushed? ==> seg.links[j].closed && seg.links[j].channel == []
    ensures end.Flushed? ==> seg.links[j].lost == [] && seg.links[j].written == seg.links[j].signalled
    ensures end.Died? ==> Killed(seg.sys, j) && seg.links[j].signalled == seg.links[j].written + seg.links[j].lost
    ensures var l := old(seg.links[j]);
            !end.Died? ==> l.written + l.channel[..Min(polls, |l.channel|)] <= seg.links[j].written
    ensures old(seg.links[j].written) <= seg.links[j].written
    ensures old(seg.links[j].closed) && polls > |old(seg.links[j].channel)| ==> !end.StillPolled?
    ensures end.StillPolled? ==>
              seg.turns == old(seg.turns) + polls + |seg.links[j].written| - |old(seg.links[j].written)|
    ensures end.StillPolled? && seg.links[j].written == old(seg.links[j].written) && polls > 0 ==>
              seg.links[j].channel == [] && !seg.links[j].closed
  {
    hide Act, CanAct, Image, Begun, Executes, SystemInv, Starts, Wired, Sound, PopCount;
    end := StillPolled;
    var left: nat := polls;
    ghost var l := seg.links[j];
    while end.StillPolled? && left > 0
      invariant seg.Valid() && old(seg.run) <= seg.run && j < |seg.links| && left <= polls
      invariant if end.StillPolled? then seg.links[j].writer.Waiting? else seg.links[j].writer.Exited?
      invariant !end.Died? ==> InOrder(l.written, l.channel, polls - left, seg.links[j].written, seg.links[j].channel)
      invariant end.Flushed? ==> polls - left >= |l.channel| && seg.links[j].lost == []
      invariant end.Died? ==> Killed(seg.sys, j)
      invariant l.written <= seg.links[j].written
      invariant end.StillPolled? ==> StaysClosedAfter(l, seg.links[j], polls - left)
      invariant end.StillPolled? ==> seg.turns == old(seg.turns) + polls - left + |seg.links[j].written| - |l.written|
      invariant end.StillPolled? && seg.links[j].written == l.written && left < polls ==>
                  seg.links[j].channel == [] && !seg.links[j].closed
    {
      left := left - 1;
      YieldWriter(seg, j);
      if seg.links[j].writer.Exited? {
        end := Died;
      } else if seg.links[j].channel != [] {
        var alive := WritePosted(seg, j);
        end := if alive then StillPolled else Died;
      } else if seg.links[j].closed {
        NothingLost(seg.setup, seg.sys, j);
        LineStep(seg, WriterExit(j));
        end := Flushed;
      }
    }
    LineBooks(seg.setup, seg.sys, j);
  }

  lemma NothingLost(c: Setup, s: System, j: nat)
    requires SystemInv(c, s) && j < |s.links| && !s.links[j].writer.Exited?
    ensures s.links[j].lost == []
  {
    assert LinkOk(c, s, j);
  }

  /** `n` numbers of `waiting` have been moved to the end of `done`; the rest still waits, in front. */
  ghost predicate InOrder(done: seq<u64>, waiting: seq<u64>, n: nat, done': seq<u64>, waiting': seq<u64>) {
    if n <= |waiting| then done' == done + waiting[..n] && waiting[n..] <= waiting'
    else done + waiting <= done'
  }

  /** If the writer task had ended, `n` lines have been read since and none has been added. */
  predicate SocketEnds(l: Link, l': Link, n: nat) {
    l.writer.Exited? ==> l'.writer.Exited? && |l'.socket| + n == |l.socket|
  }

  /** One `posted` line: read it, count it, unpark the consumer. */
  method HandlePosted(seg: Segment, j: nat)
    requires seg.me == ServerLoop(j)
    requires seg.Valid() && j < |seg.links| && seg.links[j].reader.Reading? && seg.links[j].socket != []
    modifies seg, seg.mem
    ensures seg.Valid() && old(seg.run) <= seg.run && j < |seg.links| && seg.links[j].reader.Reading?
    ensures seg.links[j].served == old(seg.links[j].served) + [old(seg.links[j].socket[0])]
    ensures old(seg.links[j].socket[1..]) <= seg.links[j].socket
    ensures SocketEnds(old(seg.links[j]), seg.links[j], 1) && seg.turns == old(seg.turns) + 2
  {
    hide Act, CanAct, Image, Begun, Executes, SystemInv, Starts, Wired, Sound, PopCount;
    LineStep(seg, ReadLine(j));
    YieldServer(seg, j);
    LineStep(seg, CountPosted(j));
    YieldServer(seg, j);
    LineStep(seg, Unpark(j));
  }

  /** The server loop on connection `j` after the attach exchange, polled at most `polls` times: each poll
      counts one line in `posted_calls` and unparks the consumer, the lines that waited first. When it has
      seen the end of the socket it has counted every number ever signalled, in order, but those lost with
      the client's process. It does see it if the writer task had ended and there are more polls than lines
      waiting. Otherwise it has made all its polls (each is one turn of the others, and a line counted is two
      more), the last of which has counted a line or found the socket empty and open. */
  method ServePosted(seg: Segment, j: nat, polls: nat) returns (ended: bool)
    requires seg.me == ServerLoop(j)
    requires seg.Valid() && j < |seg.links| && seg.links[j].reader.Reading?
    modifies seg, seg.mem
    ensures seg.Valid() && old(seg.run) <= seg.run && j < |seg.links|
    ensures if ended then seg.links[j].reader.Ended? else seg.links[j].reader.Reading?
    ensures ended ==> seg.links[j].signalled == seg.links[j].served + seg.links[j].lost
    ensures var l := old(seg.links[j]);
            l.served + l.socket[..Min(polls, |l.socket|)] <= seg.links[j].served
    ensures old(seg.links[j].writer.Exited?) && polls > |old(seg.links[j].socket)| ==> ended
    ensures !ended ==>
              seg.turns == old(seg.turns) + polls + 2 * (|seg.links[j].served| - |old(seg.links[j].served)|)
    ensures !ended && seg.links[j].served == old(seg.links[j].served) && polls > 0 ==>
              seg.links[j].socket == [] && !seg.links[j].writer.Exited?
  {
    hide Act, CanAct, Image, Begun, Executes, SystemInv, Starts, Wired, Sound, PopCount;
    ended := false;
    var left: nat := polls;
    ghost var l := seg.links[j];
    while !ended && left > 0
      invariant seg.Valid() && old(seg.run) <= seg.run && j < |seg.links| && left <= polls
      invariant if ended then seg.links[j].reader.Ended? else seg.links[j].reader.Reading?
      invariant InOrder(l.served, l.socket, polls - left, seg.links[j].served, seg.links[j].socket)
      invariant ended ==> polls - left >= |l.socket|
      invariant !ended ==> SocketEnds(l, seg.links[j], polls - left)
      invariant !ended ==> seg.turns == old(seg.turns) + polls - left + 2 * (|seg.links[j].served| - |l.served|)
      invariant !ended && seg.links[j].served == l.served && left < polls ==>
                  seg.links[j].socket == [] && !seg.links[j].writer.Exited?
    {
      left := left - 1;
      YieldServer(seg, j);
      if seg.links[j].socket != [] {
        HandlePosted(seg, j);
      } else if seg.links[j].writer.Exited? {
        LineStep(seg, ReadEof(j));
        ended := true;
      }
    }
    LineBooks(seg.setup, seg.sys, j);
  }

  // ----- shutdown -----

  lemma JoinEffect(c: Setup, s: System, m: seq<byte>, j: nat, p: Producer)
    requires SystemInv(c, s) && Image(c.ring, m, s.ring, s.word)
    requires Stands(s, j, p) && p.stage.Closing? && s.links[j].writer.Exited?
    ensures CanAct(c, s, Join(j))
    ensures var t := Act(c, s, Join(j));
            && SameShared(s, t) && t.ring == s.ring && Image(c.ring, m, t.ring, t.word)
            && Stands(t, j, p.(stage := Finished))
  {
    hide Image, SystemInv;
  }

  /** `client.shutdown()`: drop the sender, then await the writer task, which it has done exactly if that task
      has ended; otherwise it is cut off after looking `polls` times. When it returns, the lines written are
      exactly the numbers that were signalled before the call. */
  method Shutdown(seg: Segment, j: nat, polls: nat, ghost p: Producer) returns (joined: bool)
    requires seg.me == ProducerTask(j)
    requires seg.Valid() && j < |seg.setup.work| && j < |seg.links| && Stands(seg.sys, j, p)
    requires p.stage.NextEvent? && p.event == |seg.setup.work[j]|
    modifies seg, seg.mem
    ensures seg.Valid() && old(seg.run) <= seg.run && j < |seg.links| && Grown(old(seg.sys), seg.sys)
    ensures Stands(seg.sys, j, p.(stage := if joined then Finished else Closing))
    ensures seg.links[j].signalled == old(seg.links[j].signalled)
    ensures joined ==> seg.links[j].written == old(seg.links[j].signalled)
    ensures joined <==> seg.links[j].writer.Exited?
    ensures seg.turns >= old(seg.turns) && (!joined ==> seg.turns == old(seg.turns) + polls)
    ensures seg.Since(old(seg.run), 0)
  {
    hide Act, CanAct, Image, Begun, Executes, SystemInv, Starts, Wired, Sound, PopCount;
    NotYetClosed(seg.setup, seg.sys, j);
    CloseChannel(seg, j, p);
    joined := false;
    var left: nat := polls;
    while !joined && left > 0
      invariant seg.Valid() && seg.Since(old(seg.run), 0) && Grown(old(seg.sys), seg.sys) && j < |seg.links|
      invariant Stands(seg.sys, j, p.(stage := if joined then Finished else Closing))
      invariant seg.links[j].signalled == old(seg.links[j].signalled)
      invariant joined <==> seg.links[j].writer.Exited?
      invariant seg.turns >= old(seg.turns) && (!joined ==> seg.turns == old(seg.turns) + polls - left)
    {
      left := left - 1;
      Await(seg, j, p.(stage := Closing));
      if seg.links[j].writer.Exited? {
        JoinEffect(seg.setup, seg.sys, seg.mem[..], j, p.(stage := Closing));
        seg.ReadStep(Join(j));
        joined := true;
      }
    }
    LineBooks(seg.setup, seg.sys, j);
  }

  lemma NotYetClosed(c: Setup, s: System, j: nat)
    requires SystemInv(c, s) && j < |s.links| && j < |s.producers| && s.producers[j].stage.NextEvent?
    ensures !s.links[j].writer.Exited?
  {
    assert LinkOk(c, s, j);
  }

  /** Neither done nor refused: still waiting, for room in the ring, or for the writer task, at which it has
      looked `polls` times. */
  ghost predicate CutOff(s: System, j: nat, turns: int, polls: nat) {
    && j < |s.producers| == |s.links|
    && var stage := s.producers[j].stage;
    stage.Sleeping? || (stage.Closing? && !s.links[j].writer.Exited? && turns >= polls)
  }

  /** `run` from the first event to its return. When it returns without an error, each event of this
      producer has been reserved once, in order, its byte count is that of the events, and the lines
      written are the numbers signalled. `refused`: it returned the error of an event that is too long.
      Otherwise it was cut off, having retried `patience` times or looked at the writer task `polls` times. */
  method RunProducer(seg: Segment, j: nat, patience: nat, polls: nat) returns (ok: bool, refused: bool, wireBytes: nat)
    requires seg.me == ProducerTask(j)
    requires seg.Valid() && j < |seg.setup.work| && Stands(seg.sys, j, Producer(NextEvent, 0, 0))
    modifies seg, seg.mem
    ensures seg.Valid() && old(seg.run) <= seg.run && j < |seg.links|
    ensures ok ==> seg.sys.producers[j] == Producer(Finished, |seg.setup.work[j]|, wireBytes)
    ensures ok ==> OwnData(seg.sys.ring.log, j) == seg.setup.work[j] && wireBytes == Bytes(seg.setup.work[j])
    ensures ok ==> seg.links[j].written == seg.links[j].signalled
    ensures ok ==> Fitting(seg.setup, j, |seg.setup.work[j]|)
    ensures !ok && !refused ==> CutOff(seg.sys, j, seg.turns - old(seg.turns), polls)
    ensures TriedEnough(seg.sys, j, Begun(seg.me, old(seg.run)), Begun(seg.me, seg.run), patience)
    ensures refused ==> !ok && exists e: nat ::
              e < |seg.setup.work[j]| && Stopped(seg.setup, seg.sys, j, Refused, e, wireBytes)
  {
    hide Act, CanAct, Image, Begun, Executes, SystemInv, Starts, Wired, Sound, PopCount, OwnData, Fitting;
    var outcome;
    outcome, wireBytes := HotLoop(seg, j, patience);
    ok, refused := false, outcome.Refused?;
    if outcome.Done? {
      ok := Shutdown(seg, j, polls, seg.sys.producers[j]);
      RecordedAt(seg.setup, seg.sys, j, seg.sys.producers[j]);
      assert seg.setup.work[j][..|seg.setup.work[j]|] == seg.setup.work[j];
    }
    LinesExist(seg.setup, seg.sys);
  }

  /** The producer binary: `run` is its main future, so after an error nothing runs any more and the signals
      not yet on the socket are lost; without an error none is. */
  method RunBinary(seg: Segment, j: nat, patience: nat, polls: nat) returns (ok: bool)
    requires seg.me == ProducerTask(j)
    requires seg.Valid() && j < |seg.setup.work| && Stands(seg.sys, j, Producer(NextEvent, 0, 0))
    modifies seg, seg.mem
    ensures seg.Valid() && old(seg.run) <= seg.run && j < |seg.links| && j < |seg.sys.producers|
    ensures ok ==> OwnData(seg.sys.ring.log, j) == seg.setup.work[j] && seg.links[j].written == seg.links[j].signalled
    ensures seg.sys.producers[j].stage.Gone? ==>
              seg.links[j].signalled == seg.links[j].written + seg.links[j].lost && seg.links[j].channel == []
    ensures !ok ==> seg.sys.producers[j].stage.Gone? || CutOff(seg.sys, j, seg.turns - old(seg.turns), polls)
    ensures TriedEnough(seg.sys, j, Begun(seg.me, old(seg.run)), Begun(seg.me, seg.run), patience)
  {
    hide Act, CanAct, Image, Begun, Executes, SystemInv, Starts, Wired, Sound, PopCount, OwnData, Fitting;
    var refused, wireBytes;
    ok, refused, wireBytes := RunProducer(seg, j, patience, polls);
    if refused {
      LeaveProcess(seg, j, seg.sys.producers[j]);
    }
    LinesExist(seg.setup, seg.sys);
    GoneBooks(seg.setup, seg.sys, j);
  }

  lemma GoneBooks(c: Setup, s: System, j: nat)
    requires SystemInv(c, s) && j < |s.links| && j < |s.producers|
    ensures s.producers[j].stage.Gone? ==>
              s.links[j].signalled == s.links[j].written + s.links[j].lost && s.links[j].channel == []
  {
    assert LinkOk(c, s, j);
  }

  lemma LinesExist(c: Setup, s: System)
    requires SystemInv(c, s)
    ensures |s.links| == |s.producers| == |c.work|
  {
  }
}
