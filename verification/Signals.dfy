/** The signal lines: nothing is lost, invented or reordered between the CAS that wins the right to
    signal and the unpark call; and how many signals there can be. */
module Signals {
  import opened Words
  import opened Geometry
  import opened RingModel
  import opened RingInvariant
  import opened Sums
  import opened System
  import opened SystemInvariant

  // ----- Conservation -----

  /** Signals of producer `j` won so far. */
  function WonBy(p: Producer, l: Link): nat {
    |l.signalled| + (if p.stage.Signalling? then 1 else 0)
  }

  /** Signals of producer `j` on their way: not yet queued, queued, held by the writer, on the socket,
      or read and not yet counted. */
  function Travelling(p: Producer, l: Link): nat {
    (if p.stage.Signalling? then 1 else 0) + |l.channel| + |InHand(l.writer)| + |l.socket| + |InService(l.reader)|
  }

  function Won(s: System): (f: seq<nat>)
    requires |s.producers| == |s.links|
    ensures |f| == |s.links|
  {
    seq(|s.links|, j requires 0 <= j < |s.links| => WonBy(s.producers[j], s.links[j]))
  }

  function Served(s: System): (f: seq<nat>)
    ensures |f| == |s.links|
  {
    seq(|s.links|, j requires 0 <= j < |s.links| => |s.links[j].served|)
  }

  function OnTheWay(s: System): (f: seq<nat>)
    requires |s.producers| == |s.links|
    ensures |f| == |s.links|
  {
    seq(|s.links|, j requires 0 <= j < |s.links| => Travelling(s.producers[j], s.links[j]))
  }

  function LostOnes(s: System): (f: seq<nat>)
    ensures |f| == |s.links|
  {
    seq(|s.links|, j requires 0 <= j < |s.links| => |s.links[j].lost|)
  }

  ghost predicate CountInv(c: Setup, s: System)
    requires Wired(c, s)
  {
    && s.wins == Sum(Won(s))
    && s.postedCalls == Sum(Served(s))
    && s.wins + (if s.word == PARKED then 1 else 0) <= s.parks
  }

  /** At most one producer's line changes in one action. */
  lemma OneLine(c: Setup, s: System, a: Action, j: nat)
    requires Wired(c, s) && CanAct(c, s, a) && j < |s.links|
    requires (IsProducerAction(a) || IsLinkAction(a)) ==> a.j != j
    ensures var t := Act(c, s, a);
            t.links[j] == s.links[j] && Won(t)[j] == Won(s)[j] && Served(t)[j] == Served(s)[j]
  {
    hide Do;
    if a.Access? {
    } else if IsProducerAction(a) {
    } else if IsLinkAction(a) {
    }
  }

  lemma QuietFrame(c: Setup, s: System, a: Action)
    requires SystemInv(c, s) && CanAct(c, s, a) && !IsProducerAction(a) && !IsLinkAction(a)
    ensures var t := Act(c, s, a);
            && t.wins == s.wins && t.postedCalls == s.postedCalls
            && (a.StoreParked? ==> t.word == PARKED && t.parks == s.parks + 1)
            && (!a.StoreParked? ==> t.parks == s.parks && (t.word == s.word || t.word == RUNNING))
  {
    assert Wired(c, s);
    hide Do, SystemInv;
  }

  lemma QuietCount(c: Setup, s: System, a: Action)
    requires Wired(c, s) && CountInv(c, s) && CanAct(c, s, a)
    requires !IsProducerAction(a) && !IsLinkAction(a)
    requires SystemInv(c, s)
    ensures CountInv(c, Act(c, s, a))
  {
    var t := Act(c, s, a);
    QuietFrame(c, s, a);
    forall j: nat | j < |s.links| ensures Won(t)[j] == Won(s)[j] && Served(t)[j] == Served(s)[j] {
      OneLine(c, s, a, j);
    }
    hide Act;
    assert Won(t) == Won(s);
    assert Served(t) == Served(s);
  }

  /** The books of one line: before and after. */
  ghost predicate Balances(s: System, t: System, j: nat)
    requires j < |s.producers| == |s.links| == |t.producers| == |t.links|
  {
    && t.wins + Won(s)[j] == s.wins + Won(t)[j]
    && t.postedCalls + Served(s)[j] == s.postedCalls + Served(t)[j]
    && t.wins + (if t.word == PARKED then 1 else 0) <= s.wins + (if s.word == PARKED then 1 else 0)
    && t.parks == s.parks
  }

  lemma ProducerBalance(c: Setup, s: System, a: Action)
    requires Wired(c, s) && IsProducerAction(a) && CanProduce(c, s, a)
    ensures Balances(s, Produce(c, s, a), a.j)
  {
    hide Do;
  }

  lemma LinkBalance(c: Setup, s: System, a: Action)
    requires Wired(c, s) && IsLinkAction(a) && CanLink(c, s, a)
    ensures Balances(s, Convey(c, s, a), a.j)
  {
    hide Do;
  }

  lemma LineDelta(c: Setup, s: System, a: Action)
    requires SystemInv(c, s) && CanAct(c, s, a) && (IsProducerAction(a) || IsLinkAction(a))
    ensures Balances(s, Act(c, s, a), a.j)
  {
    hide Produce, Convey, Balances, Inv;
    if IsProducerAction(a) {
      ProducerBalance(c, s, a);
    } else {
      LinkBalance(c, s, a);
    }
  }

  lemma LineSums(s: System, t: System, j: nat)
    requires |s.producers| == |s.links| == |t.producers| == |t.links| && j < |s.links|
    requires forall i: nat :: i < |s.links| && i != j ==> Won(t)[i] == Won(s)[i] && Served(t)[i] == Served(s)[i]
    ensures Sum(Won(t)) + Won(s)[j] == Sum(Won(s)) + Won(t)[j]
    ensures Sum(Served(t)) + Served(s)[j] == Sum(Served(s)) + Served(t)[j]
  {
    SumUpdate(Won(s), j, Won(t)[j]);
    assert Won(t) == Won(s)[j := Won(t)[j]];
    SumUpdate(Served(s), j, Served(t)[j]);
    assert Served(t) == Served(s)[j := Served(t)[j]];
  }

  lemma LineCount(c: Setup, s: System, a: Action)
    requires SystemInv(c, s) && CountInv(c, s) && CanAct(c, s, a)
    requires IsProducerAction(a) || IsLinkAction(a)
    ensures CountInv(c, Act(c, s, a))
  {
    assert Wired(c, s);
    hide Act, CanAct, Won, Served, SystemInv;
    var t := Act(c, s, a);
    LineDelta(c, s, a);
    forall j: nat | j < |s.links| && j != a.j ensures Won(t)[j] == Won(s)[j] && Served(t)[j] == Served(s)[j] {
      OneLine(c, s, a, j);
    }
    LineSums(s, t, a.j);
  }

  lemma CountStep(c: Setup, s: System, a: Action)
    requires SystemInv(c, s) && CountInv(c, s) && CanAct(c, s, a)
    ensures CountInv(c, Act(c, s, a))
  {
    if IsProducerAction(a) || IsLinkAction(a) {
      LineCount(c, s, a);
    } else {
      QuietCount(c, s, a);
    }
  }

  lemma {:induction false} ExecutionCount(c: Setup, s: System, actions: seq<Action>, t: System)
    requires Sound(c.ring) && SystemInv(c, s) && CountInv(c, s) && Executes(c, s, actions, t)
    ensures SystemInv(c, t) && CountInv(c, t)
    decreases |actions|
  {
    if actions != [] {
      CountStep(c, s, actions[0]);
      ActInv(c, s, actions[0]);
      ExecutionCount(c, Act(c, s, actions[0]), actions[1..], t);
    }
  }

  lemma OccursCount(c: Setup, t: System)
    requires Sound(c.ring) && Occurs(c, t)
    ensures SystemInv(c, t) && CountInv(c, t)
  {
    var s, actions :| Starts(c, s) && Executes(c, s, actions, t);
    StartsInv(c, s);
    SumZero(Won(s));
    SumZero(Served(s));
    ExecutionCount(c, s, actions, t);
  }

  /** Conservation: every CAS won is a signal still on its way, or one that `posted_calls` has counted, or
      one that died with its process, over all producers together; only a process that has exited after a
      failure has lost any; and wins never outnumber the stores of PARKED. */
  lemma SignalsConserved(c: Setup, s: System)
    requires Sound(c.ring) && Occurs(c, s)
    ensures Wired(c, s)
    ensures s.wins == Sum(OnTheWay(s)) + s.postedCalls + Sum(LostOnes(s))
    ensures forall j :: 0 <= j < |s.links| && s.links[j].lost != [] ==> s.producers[j].stage.Gone?
    ensures s.wins <= s.parks
  {
    OccursCount(c, s);
    CountsOf(c, s);
    hide CountInv, Won, Served, OnTheWay, LostOnes;
    WonSplits(c, s);
    forall j: nat | j < |s.links| && s.links[j].lost != [] ensures s.producers[j].stage.Gone? {
      OneFate(c, s, j);
    }
  }

  function Unserved(s: System): (f: seq<nat>)
    requires |s.producers| == |s.links|
    ensures |f| == |s.links|
    ensures forall j :: 0 <= j < |f| ==> f[j] == OnTheWay(s)[j] + LostOnes(s)[j]
  {
    seq(|s.links|, j requires 0 <= j < |s.links| => Travelling(s.producers[j], s.links[j]) + |s.links[j].lost|)
  }

  /** Every signal won has one of three fates. */
  lemma WonSplits(c: Setup, s: System)
    requires SystemInv(c, s)
    ensures |s.producers| == |s.links|
    ensures Sum(Won(s)) == Sum(OnTheWay(s)) + Sum(LostOnes(s)) + Sum(Served(s))
  {
    hide Inv, ProducerOk;
    var fates := Unserved(s);
    forall j: nat | j < |s.links| ensures Won(s)[j] == fates[j] + Served(s)[j] {
      OneFate(c, s, j);
    }
    SumAdd(OnTheWay(s), LostOnes(s), fates);
    SumAdd(fates, Served(s), Won(s));
  }

  lemma CountsOf(c: Setup, s: System)
    requires Wired(c, s) && CountInv(c, s)
    ensures s.wins == Sum(Won(s)) && s.postedCalls == Sum(Served(s)) && s.wins <= s.parks
  {
  }

  lemma OneFate(c: Setup, s: System, j: nat)
    requires SystemInv(c, s) && j < |s.links|
    ensures Won(s)[j] == OnTheWay(s)[j] + LostOnes(s)[j] + Served(s)[j]
    ensures s.links[j].lost != [] ==> s.producers[j].stage.Gone?
  {
    assert LinkOk(c, s, j);
  }

  /** Between two stores of PARKED at most one producer wins the CAS. */
  lemma {:induction false} OneWinPerPark(c: Setup, s: System, actions: seq<Action>, t: System)
    requires Wired(c, s) && Executes(c, s, actions, t)
    requires forall i :: 0 <= i < |actions| ==> !actions[i].StoreParked?
    ensures t.wins + (if t.word == PARKED then 1 else 0) <= s.wins + (if s.word == PARKED then 1 else 0)
    ensures t.wins <= s.wins + 1
    decreases |actions|
  {
    if actions != [] {
      assert !actions[0].StoreParked?;
      OneWinPerPark(c, Act(c, s, actions[0]), actions[1..], t);
    }
  }

  // ----- Order and completeness -----

  /** The server counts the signals of one producer in the order they were handed over, each at
      most once, and none that was not handed over. */
  lemma SignalsInOrder(c: Setup, s: System, j: nat)
    requires Sound(c.ring) && Occurs(c, s) && j < |s.links|
    ensures s.links[j].served <= s.links[j].written <= s.links[j].signalled
  {
    OccursInv(c, s);
    assert LinkOk(c, s, j);
  }

  /** `shutdown` flushes: when it has returned, every signal ever handed over is on the socket, in
      order; and when the server loop has seen the end of a socket it has counted them all, but those that
      died with the client's process, which only a failed one does. */
  lemma ShutdownFlushes(c: Setup, s: System, j: nat)
    requires Sound(c.ring) && Occurs(c, s) && Wired(c, s) && j < |s.links|
    ensures s.producers[j].stage.Finished? ==> s.links[j].written == s.links[j].signalled
    ensures s.links[j].reader.Ended? ==> s.links[j].signalled == s.links[j].served + s.links[j].lost
    ensures s.links[j].lost != [] ==> s.producers[j].stage.Gone?
  {
    OccursInv(c, s);
    assert LinkOk(c, s, j);
  }

  // ----- What the numbers say -----

  ghost predicate NamesOwn(log: seq<Entry>, j: nat, x: u64) {
    exists p: nat :: p < |log| && log[p].owner == j && x == Wrap64(p)
  }

  ghost predicate NamesInv(s: System) {
    forall j, i :: 0 <= j < |s.links| && 0 <= i < |s.links[j].signalled| ==>
      NamesOwn(s.ring.log, j, s.links[j].signalled[i])
  }

  lemma LogExtends(c: Setup, s: System, a: Action)
    requires Wired(c, s) && CanAct(c, s, a)
    ensures s.ring.log <= Act(c, s, a).ring.log
  {
    if a.Access? {
      if IsPushStep(a.step) {
        PushFrame(c.ring, s.ring, a.step);
      } else {
        PopFrame(c.ring, s.ring, a.step);
      }
      hide Do;
    }
  }

  lemma NamesKept(log: seq<Entry>, more: seq<Entry>, j: nat, x: u64)
    requires log <= more && NamesOwn(log, j, x)
    ensures NamesOwn(more, j, x)
  {
    var p: nat :| p < |log| && log[p].owner == j && x == Wrap64(p);
    assert more[p] == log[p];
  }

  lemma SignalledGrows(c: Setup, s: System, a: Action, j: nat)
    requires SystemInv(c, s) && CanAct(c, s, a) && j < |s.links|
    ensures var t := Act(c, s, a);
            t.links[j].signalled == s.links[j].signalled ||
            (a == Signal(j) && s.producers[j].stage.Signalling? &&
             t.links[j].signalled == s.links[j].signalled + [Wrap64(s.producers[j].stage.pos)])
  {
    assert Wired(c, s);
    hide Do, SystemInv, DoAccess, Consume;
    hide Produce, Convey;
    if IsProducerAction(a) && a.j == j {
      SignalledByProducer(c, s, a);
    } else if IsLinkAction(a) && a.j == j {
      SignalledByLine(c, s, a);
    } else {
      OneLine(c, s, a, j);
    }
  }

  lemma SignalledByProducer(c: Setup, s: System, a: Action)
    requires Wired(c, s) && IsProducerAction(a) && CanProduce(c, s, a)
    ensures var l, m := s.links[a.j], Produce(c, s, a).links[a.j];
            m.signalled == l.signalled ||
            (a.Signal? && s.producers[a.j].stage.Signalling? &&
             m.signalled == l.signalled + [Wrap64(s.producers[a.j].stage.pos)])
  {
    hide Do;
  }

  lemma SignalledByLine(c: Setup, s: System, a: Action)
    requires Wired(c, s) && IsLinkAction(a) && CanLink(c, s, a)
    ensures Convey(c, s, a).links[a.j].signalled == s.links[a.j].signalled
  {
    hide Do;
  }

  lemma NamesStep(c: Setup, s: System, a: Action)
    requires SystemInv(c, s) && NamesInv(s) && CanAct(c, s, a)
    ensures NamesInv(Act(c, s, a))
  {
    var t := Act(c, s, a);
    LogExtends(c, s, a);
    assert Wired(c, s);
    hide Act, CanAct, NamesOwn, Inv;
    forall j, i | 0 <= j < |t.links| && 0 <= i < |t.links[j].signalled|
      ensures NamesOwn(t.ring.log, j, t.links[j].signalled[i])
    {
      SignalledGrows(c, s, a, j);
      if i < |s.links[j].signalled| {
        NamesKept(s.ring.log, t.ring.log, j, s.links[j].signalled[i]);
      } else {
        NewName(c, s, j);
        NamesKept(s.ring.log, t.ring.log, j, t.links[j].signalled[i]);
      }
    }
  }

  lemma NewName(c: Setup, s: System, j: nat)
    requires SystemInv(c, s) && j < |s.producers| && s.producers[j].stage.Signalling?
    ensures NamesOwn(s.ring.log, j, Wrap64(s.producers[j].stage.pos))
  {
    assert ProducerOk(c, s, j);
  }

  lemma {:induction false} ExecutionNames(c: Setup, s: System, actions: seq<Action>, t: System)
    requires Sound(c.ring) && SystemInv(c, s) && NamesInv(s) && Executes(c, s, actions, t)
    ensures NamesInv(t)
    decreases |actions|
  {
    if actions != [] {
      NamesStep(c, s, actions[0]);
      ActInv(c, s, actions[0]);
      hide Act, CanAct, SystemInv, NamesInv;
      ExecutionNames(c, Act(c, s, actions[0]), actions[1..], t);
    }
  }

  /** Every number the server counts is, modulo 2^64, a position that its own client has reserved. */
  lemma SignalsNamePositions(c: Setup, s: System, j: nat, i: nat)
    requires Sound(c.ring) && Occurs(c, s) && j < |s.links| && i < |s.links[j].served|
    ensures exists p: nat :: p < |s.ring.log| && s.ring.log[p].owner == j && s.links[j].served[i] == Wrap64(p)
  {
    SignalsInOrder(c, s, j);
    var s0, actions :| Starts(c, s0) && Executes(c, s0, actions, s);
    StartsInv(c, s0);
    ExecutionNames(c, s0, actions, s);
    assert s.links[j].served[i] == s.links[j].signalled[i];
    assert NamesOwn(s.ring.log, j, s.links[j].signalled[i]);
  }
}
