/** The shared segment as bytes, and the code that works on it: `init`, `push` and `try_pop`, access by
    access, while all other parties run. Ghost state carries the system of which the bytes are the
    image and the run that led there; every access of the code is one action of that run. */
module Segment {
  import opened Words
  import opened Geometry
  import opened RingModel
  import opened RingInvariant
  import opened System
  import opened SystemInvariant
  import opened Memory
  import opened Rely

  datatype PushResult = Pushed(pos: u64) | Full | TooBig

  /** An access to a word of 4 or 8 bytes is one step only at a multiple of its width. */
  predicate OneStep(offset: nat, width: nat) {
    (width == 4 ==> offset % 4 == 0) && (width == 8 ==> offset % 8 == 0)
  }

  /** The parts of the system that live outside the segment. */
  ghost predicate SameShared(s: System, t: System) {
    && t.token == s.token && t.postedCalls == s.postedCalls && t.links == s.links
    && t.consumer.events == s.consumer.events && t.consumer.wireBytes == s.consumer.wireBytes
  }

  class Segment {
    const setup: Setup
    const cfg: RingConfig
    const mem: array<byte>

    // whose code works through this object
    ghost const me: Party

    // what the parties share outside the segment; the three counters are 64-bit atomics
    var token: bool
    var postedCalls: u64
    var links: seq<Link>
    var events: u64
    var wireBytes: u64

    // weak-CAS failures this machine will still produce without cause
    var flukes: nat

    ghost const origin: System
    ghost var sys: System
    ghost var run: seq<Action>
    // positions that other producers will still reserve in this (finite) run
    ghost var budget: nat
    // how often this party has let the others run
    ghost var turns: nat

    ghost predicate History()
      reads this
    {
      && Sound(setup.ring) && setup.ring.Check() && setup.ring.InMemory() && setup.ring.Aligned()
      && Wired(setup, origin) && Starts(setup, origin)
      && Executes(setup, origin, run, sys)
      && SystemInv(setup, sys)
    }

    ghost predicate Valid()
      reads this, mem
    {
      && History()
      && cfg == setup.ring
      && Image(cfg, mem[..], sys.ring, sys.word)
      && token == sys.token && postedCalls == Wrap64(sys.postedCalls) && links == sys.links
      && events == Wrap64(sys.consumer.events) && wireBytes == Wrap64(sys.consumer.wireBytes)
    }

    /** The run goes on from `before`, and in it this party has begun anew `n` times. */
    ghost predicate Since(before: seq<Action>, n: nat)
      reads this
    {
      before <= run && Begun(me, run) == Begun(me, before) + n
    }

    /** A segment just initialised, before anyone has connected. */
    constructor (setup: Setup, mem: array<byte>, ghost ring: Ring, ghost budget: nat, flukes: nat,
                 ghost me: Party)
      requires Sound(setup.ring) && setup.ring.Check() && setup.ring.InMemory() && setup.ring.Aligned()
      requires Initial(setup.ring, ring) && |ring.producers| == |setup.work|
      requires Image(setup.ring, mem[..], ring, RUNNING)
      ensures Valid() && this.setup == setup && this.mem == mem && this.me == me && run == []
      ensures origin == sys && sys.ring == ring && this.budget == budget && this.flukes == flukes
    {
      this.setup, cfg, this.mem, this.me := setup, setup.ring, mem, me;
      token, postedCalls, events, wireBytes := false, 0, 0, 0;
      links := seq(|setup.work|, j => FreshLink);
      this.flukes, this.budget := flukes, budget;
      run := [];
      var start := System(ring, RUNNING, false, seq(|setup.work|, j => Producer(NextEvent, 0, 0)),
                          seq(|setup.work|, j => FreshLink), Consumer(Top, 0, 0, 0), 0, 0, 0);
      origin, sys := start, start;
      new;
      StartsInv(setup, sys);
    }

    /** The only way to extend the run other than `Interfere`: by an action of the party itself. */
    ghost method Take(a: Action)
      requires History() && CanAct(setup, sys, a) && By(a, me)
      modifies `sys, `run
      ensures History() && sys == Act(setup, old(sys), a)
      ensures run == old(run) + [a] && Since(old(run), if Begins(a) then 1 else 0)
    {
      hide Begun;
      OwnStep(me, run, a);
      ExecutionExtends(setup, origin, run, sys, a);
      ActInv(setup, sys, a);
      run := run + [a];
      sys := Act(setup, sys, a);
    }

    /** An access that stores nothing, or a step outside the segment's memory. */
    ghost method ReadStep(a: Action)
      requires Valid() && CanAct(setup, sys, a) && By(a, me)
      requires var t := Act(setup, sys, a); SameShared(sys, t) && Image(cfg, mem[..], t.ring, t.word)
      modifies `sys, `run
      ensures Valid() && sys == Act(setup, old(sys), a) && Since(old(run), if Begins(a) then 1 else 0)
    {
      hide Act, CanAct, Image, Executes, SystemInv, Starts, Wired, Begun;
      Take(a);
    }

    /** An access that stores `bytes` at `offset`. */
    method StoreStep(ghost a: Action, offset: nat, bytes: seq<byte>)
      requires Valid() && CanAct(setup, sys, a) && By(a, me) && offset + |bytes| <= mem.Length
      requires OneStep(offset, |bytes|)
      requires var t := Act(setup, sys, a);
               SameShared(sys, t) && Image(cfg, Store(mem[..], offset, bytes), t.ring, t.word)
      modifies `sys, `run, mem
      ensures Valid() && sys == Act(setup, old(sys), a) && Since(old(run), if Begins(a) then 1 else 0)
      ensures mem[..] == Store(old(mem[..]), offset, bytes)
    {
      hide Act, CanAct, Image, Executes, SystemInv, Starts, Wired, Begun;
      StoreBytes(mem, offset, bytes);
      Take(a);
    }

    // ----- Bytes -----

    method LoadWord(offset: nat) returns (x: u64)
      requires offset + 8 <= mem.Length && OneStep(offset, 8)
      ensures x == Load(mem[..], offset, 8)
    {
      LoadBound(mem[..][offset..offset + 8]);
      assert Pow256(4) == TWO32;
      assert Pow256(8) == TWO64;
      x := FromLE(mem[..][offset..offset + 8]);
    }

    method LoadLength(offset: nat) returns (x: u32)
      requires offset + 4 <= mem.Length && OneStep(offset, 4)
      ensures x == Load(mem[..], offset, 4)
    {
      LoadBound(mem[..][offset..offset + 4]);
      assert Pow256(4) == TWO32;
      x := FromLE(mem[..][offset..offset + 4]);
    }

    /** `slot_ptr`: given the 64-bit image of a position, the place of the slot that serves it, whole inside
        the segment, whatever wrapped on the way, and at a multiple of eight. */
    method SlotAddress(idx: u64, ghost p: nat) returns (offset: nat)
      requires Valid() && idx == Wrap64(p)
      ensures cfg.Sized() && offset == Base(cfg, Index(cfg, p))
      ensures HDR <= offset && offset + cfg.slotSize <= mem.Length && offset % 8 == 0
    {
      hide Image, Executes, SystemInv, Starts, Wired, PopCount, BitAnd, Base;
      ImageSize(cfg, mem[..], sys.ring, sys.word);
      AddressOf(cfg, p);
      BaseBounds(cfg, Index(cfg, p));
      BaseAligned(cfg, Index(cfg, p));
      hide Index;
      offset := (HDR + BitAnd(idx, cfg.Mask()) * cfg.slotSize) % TWO64;
    }

    /** Will the weak CAS fail this time without cause? */
    method Fluke() returns (fluke: bool)
      requires Valid()
      modifies `flukes
      ensures Valid() && flukes == old(flukes) - (if fluke then 1 else 0)
    {
      hide Image, Executes, SystemInv, Starts, Wired, Sound;
      fluke := false;
      if flukes > 0 {
        fluke := *;
        flukes := flukes - (if fluke then 1 else 0);
      }
    }

    // ----- The other parties -----

    /** Between two accesses of one party the others take any number of steps. The contract is all that
      a caller knows; on one thread, nothing happens. */
    method Interfere()
      requires Valid()
      requires me.ProducerTask? ==> me.j < |sys.ring.producers| && Recent(cfg, sys.ring, me.j)
      modifies this, mem
      ensures Valid()
      ensures |old(run)| <= |run| && run[..|old(run)|] == old(run) && turns == old(turns) + 1
      ensures OthersRan(setup, me, old(sys), run[|old(run)|..], sys)
      ensures sys.ring.tail + budget == old(sys.ring.tail + budget) && flukes == old(flukes)
      ensures me.ProducerTask? ==> me.j < |sys.ring.producers| && Recent(cfg, sys.ring, me.j)
    {
      turns := turns + 1;
    }

    /** Interference as producer `j` experiences it. */
    method YieldProducer(ghost j: nat)
      requires me == ProducerTask(j)
      requires Valid() && j < |setup.work| && Recent(cfg, sys.ring, j)
      modifies this, mem
      ensures Valid() && j < |setup.work| && Recent(cfg, sys.ring, j)
      ensures ProducerKeeps(old(sys), sys, j) && old(sys.ring.tail) <= sys.ring.tail
      ensures Since(old(run), 0) && turns == old(turns) + 1
      ensures sys.ring.tail + budget == old(sys.ring.tail + budget) && flukes == old(flukes)
    {
      ghost var earlier, before := run, sys;
      Interfere();
      ghost var others := run[|earlier|..];
      assert run == earlier + others;
      OthersBeginNothing(me, earlier, others);
      hide Begun;
      ProducerRely(setup, before, others, sys, j);
    }

    /** Interference as the consumer experiences it. */
    method YieldConsumer()
      requires me == ConsumerThread
      requires Valid()
      modifies this, mem
      ensures Valid()
      ensures ConsumerKeeps(setup, old(sys), sys)
      ensures Since(old(run), 0) && turns == old(turns) + 1
      ensures sys.ring.tail + budget == old(sys.ring.tail + budget) && flukes == old(flukes)
    {
      ghost var earlier, before := run, sys;
      Interfere();
      ghost var others := run[|earlier|..];
      assert run == earlier + others;
      OthersBeginNothing(me, earlier, others);
      hide Begun;
      ConsumerRely(setup, before, others, sys);
    }
  }
}
