/** The chained-work slots as arrays updated in place: the persistent kernel's loop and the proxy's
    scan, each shown to be a run of the state machine's actions. */
module ChainDevice {
  import opened ChainedWork

  /** The actions `evs`, each enabled in turn, lead from `from` to `to`. */
  ghost predicate Path(c: Config, from: State, to: State, evs: seq<Event>)
    decreases |evs|
  {
    Shape(c, from) &&
    if evs == [] then to == from
    else Enabled(c, from, evs[0]) && Path(c, Step(c, from, evs[0]), to, evs[1..])
  }

  lemma {:induction false} PathGrows(c: Config, from: State, to: State, evs: seq<Event>, ev: Event)
    requires Path(c, from, to, evs) && Shape(c, to) && Enabled(c, to, ev) && Shape(c, Step(c, to, ev))
    ensures Path(c, from, Step(c, to, ev), evs + [ev])
    decreases |evs|
  {
    if evs == [] {
      assert Path(c, Step(c, to, ev), Step(c, to, ev), []);
    } else {
      PathGrows(c, Step(c, from, evs[0]), to, evs[1..], ev);
      assert (evs + [ev])[1..] == evs[1..] + [ev];
    }
  }

  /** Whatever the objects do in place is a schedule of the state machine. */
  lemma {:induction false} PathIsARun(c: Config, schedule: seq<Event>, to: State, evs: seq<Event>)
    requires Path(c, Run(c, schedule), to, evs)
    ensures Run(c, schedule + evs) == to
    decreases |evs|
  {
    if evs == [] {
      assert schedule + evs == schedule;
    } else {
      var longer := schedule + [evs[0]];
      assert longer[..|longer| - 1] == schedule && longer[|longer| - 1] == evs[0];
      assert Run(c, longer) == Next(c, Run(c, schedule), evs[0]);
      PathIsARun(c, longer, to, evs[1..]);
      assert longer + evs[1..] == schedule + evs;
    }
  }

  class Device {
    const c: Config
    const slots: array<Slot>
    var gpu: Gpu
    var iter: nat
    var proxy: Proxy
    var totalRearms: nat

    ghost function Now(): State
      reads this, slots
    {
      State(slots[..], gpu, iter, proxy, totalRearms)
    }

    ghost predicate Valid()
      reads this, slots
    {
      Shape(c, Now())
    }

    constructor (c: Config)
      requires c.Valid()
      ensures Valid() && this.c == c && Now() == Init(c) && fresh(slots)
    {
      this.c := c;
      var free := Slot(false, 0, 0, 0, 0, 0, 0, 0, 0, 0, 0, 0);
      slots := new Slot[c.slots](_ => free);
      gpu := if c.iters > 0 then WaitArmed else Finished;
      iter, proxy, totalRearms := 0, Scan, 0;
      new;
      assert Now() == Init(c);
    }

    /** One action of the kernel, or none while it spins. */
    method KernelAction() returns (moved: bool)
      requires Valid()
      modifies this`gpu, this`iter, slots
      ensures Valid() && moved == Enabled(c, old(Now()), GpuStep)
      ensures Now() == if moved then Step(c, old(Now()), GpuStep) else old(Now())
    {
      var x := SlotOf(c, iter);
      moved := true;
      match gpu {
        case WaitArmed => if slots[x].armed { gpu := ClearResult; } else { moved := false; }
        case ClearResult => slots[x] := slots[x].(result := 0); gpu := Trigger;
        case Trigger => slots[x] := Triggered(slots[x]); gpu := WaitResult;
        case WaitResult => if slots[x].result >= 1 { gpu := Release; } else { moved := false; }
        case Release =>
          slots[x] := slots[x].(armed := false);
          iter := iter + 1;
          gpu := if iter < c.iters then WaitArmed else Finished;
        case Finished => moved := false;
      }
    }

    /** The kernel's loop, from where it is until it has to wait or has done all its iterations. */
    method RunKernel() returns (ghost evs: seq<Event>)
      requires Valid() && (if gpu.Finished? then iter == c.iters else iter < c.iters)
      modifies this`gpu, this`iter, slots
      ensures Valid() && Path(c, old(Now()), Now(), evs) && forall i | 0 <= i < |evs| :: evs[i] == GpuStep
      ensures !Enabled(c, Now(), GpuStep)
      ensures gpu.WaitArmed? || gpu.WaitResult? || (gpu.Finished? && iter == c.iters)
    {
      evs := [];
      ghost var first := Now();
      var moved := true;
      while moved
        invariant Valid() && Path(c, first, Now(), evs) && forall i | 0 <= i < |evs| :: evs[i] == GpuStep
        invariant if gpu.Finished? then iter == c.iters else iter < c.iters
        invariant !moved ==> !Enabled(c, Now(), GpuStep)
        decreases c.iters - iter, Ahead(), moved
      {
        ghost var before := Now();
        moved := KernelAction();
        if moved {
          PathGrows(c, first, before, evs, GpuStep);
          evs := evs + [GpuStep];
        }
      }
    }

    /** Actions left in the current iteration. */
    function Ahead(): nat
      reads this
    {
      match gpu
      case WaitArmed => 5
      case ClearResult => 4
      case Trigger => 3
      case WaitResult => 2
      case Release => 1
      case Finished => 0
    }

    /** Re-queues one released slot: counters reset, write queued, addition queued, slot armed. */
    method Requeue(x: nat) returns (ghost evs: seq<Event>)
      requires Valid() && proxy.Scan? && x < c.slots && !slots[x].armed
      modifies this`proxy, this`totalRearms, slots
      ensures Valid() && proxy.Scan? && Path(c, old(Now()), Now(), evs) && totalRearms == old(totalRearms) + 1
      ensures slots[x].armed && forall y | 0 <= y < c.slots && y != x :: slots[y] == old(slots[y])
    {
      ghost var s0 := Now();
      slots[x] := slots[x].(trig := 0, comp := 0, atomicComp := 0);
      proxy := CountersReset(x);
      ghost var s1 := Now();
      assert s1 == Step(c, s0, ProxyStep(x));
      slots[x] := QueueWrite(slots[x]);
      proxy := WriteQueued(x);
      ghost var s2 := Now();
      assert s2 == Step(c, s1, ProxyStep(x));
      slots[x] := QueueAtomic(slots[x]);
      proxy := AtomicQueued(x);
      ghost var s3 := Now();
      assert s3 == Step(c, s2, ProxyStep(x));
      slots[x] := slots[x].(armed := true);
      proxy := Scan;
      totalRearms := totalRearms + 1;
      assert Now() == Step(c, s3, ProxyStep(x));
      evs := [];
      PathGrows(c, s0, s0, evs, ProxyStep(x));
      evs := evs + [ProxyStep(x)];
      PathGrows(c, s0, s1, evs, ProxyStep(x));
      evs := evs + [ProxyStep(x)];
      PathGrows(c, s0, s2, evs, ProxyStep(x));
      evs := evs + [ProxyStep(x)];
      PathGrows(c, s0, s3, evs, ProxyStep(x));
      evs := evs + [ProxyStep(x)];
    }

    /** One scan of the proxy over all slots: afterwards every slot is armed. */
    method ScanAll() returns (ghost evs: seq<Event>)
      requires Valid() && proxy.Scan?
      modifies this`proxy, this`totalRearms, slots
      ensures Valid() && proxy.Scan? && Path(c, old(Now()), Now(), evs)
      ensures forall x | 0 <= x < c.slots :: slots[x].armed && (old(slots[x]).armed ==> slots[x] == old(slots[x]))
    {
      evs := [];
      ghost var first := Now();
      var x := 0;
      while x < slots.Length
        invariant 0 <= x <= slots.Length && Valid() && proxy.Scan? && Path(c, first, Now(), evs)
        invariant forall y | 0 <= y < c.slots :: old(slots[y]).armed || x <= y ==> slots[y] == old(slots[y])
        invariant forall y | 0 <= y < x :: slots[y].armed
      {
        if !slots[x].armed {
          ghost var middle := Now();
          ghost var more := Requeue(x);
          PathsJoin(c, first, middle, Now(), evs, more);
          evs := evs + more;
        }
        x := x + 1;
      }
    }
  }

  lemma {:induction false} PathsJoin(c: Config, a: State, b: State, d: State, evs: seq<Event>, more: seq<Event>)
    requires Path(c, a, b, evs) && Path(c, b, d, more)
    ensures Path(c, a, d, evs + more)
    decreases |evs|
  {
    if evs == [] {
      assert evs + more == more;
    } else {
      PathsJoin(c, Step(c, a, evs[0]), b, d, evs[1..], more);
      assert (evs + more)[1..] == evs[1..] + more;
    }
  }
}
