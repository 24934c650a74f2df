/** One rank of the counting barrier updated in place: the kernel's epoch loop. A trigger hands the
    targets queued for the slot to the network. */
module CountingDevice {
  import opened Schedules
  import opened Arithmetic
  import opened ArmedSlots
  import opened CountingBarrier

  /** The kernel steps of rank r from `from` to `to`, each enabled, with what they put in flight. */
  ghost predicate Path(c: Config, r: nat, from: Rank, to: Rank, flying: seq<nat>, flying': seq<nat>, n: nat)
    requires c.Valid() && r < c.size
    decreases n
  {
    |from.win.slots| == c.window &&
    if n == 0 then to == from && flying' == flying
    else GpuEnabled(c, from) && Path(c, r, GpuNext(c, from), to, Sends(c, r, from, flying), flying', n - 1)
  }

  /** What a kernel step puts in flight. */
  function Sends(c: Config, r: nat, rk: Rank, flying: seq<nat>): seq<nat>
    requires c.Valid() && r < c.size && |rk.win.slots| == c.window
  {
    if rk.gpu.Trigger? && rk.win.slots[SlotOf(c, rk.epoch)].queued then FireAll(flying, Peers(c.size, r)) else flying
  }

  lemma {:induction false} PathGrows(c: Config, r: nat, from: Rank, to: Rank, flying: seq<nat>, flying': seq<nat>, n: nat)
    requires c.Valid() && r < c.size && Path(c, r, from, to, flying, flying', n)
    requires |to.win.slots| == c.window && GpuEnabled(c, to)
    ensures Path(c, r, from, GpuNext(c, to), flying, Sends(c, r, to, flying'), n + 1)
    decreases n
  {
    if n == 0 {
      assert Path(c, r, GpuNext(c, to), GpuNext(c, to), Sends(c, r, to, flying'), Sends(c, r, to, flying'), 0);
    } else {
      PathGrows(c, r, GpuNext(c, from), to, Sends(c, r, from, flying), flying', n - 1);
    }
  }

  lemma RunOneMore(c: Config, schedule: seq<Event>, ev: Event)
    requires Shape(c, Run(c, schedule)) && Enabled(c, Run(c, schedule), ev)
    ensures Run(c, schedule + [ev]) == Step(c, Run(c, schedule), ev)
  {
    var longer := schedule + [ev];
    assert longer[..|longer| - 1] == schedule && longer[|longer| - 1] == ev;
    assert Run(c, longer) == Next(c, Run(c, longer[..|longer| - 1]), longer[|longer| - 1]);
  }

  /** What the kernel does in place is a schedule of the state machine. */
  lemma {:induction false} PathIsARun(c: Config, schedule: seq<Event>, r: nat, to: Rank, flying': seq<nat>, n: nat)
    requires Shape(c, Run(c, schedule)) && r < c.size
    requires Path(c, r, Run(c, schedule).ranks[r], to, Run(c, schedule).flying, flying', n)
    ensures Run(c, schedule + Repeat(GpuStep(r), n)) == State(Run(c, schedule).ranks[r := to], flying')
    decreases n
  {
    var s := Run(c, schedule);
    if n == 0 {
      assert schedule + [] == schedule;
      assert s.ranks[r := to] == s.ranks;
    } else {
      RunOneMore(c, schedule, GpuStep(r));
      KernelStep(c, s, r);
      RepeatOneMore(schedule, GpuStep(r), n - 1);
      PathIsARun(c, schedule + [GpuStep(r)], r, to, flying', n - 1);
      assert s.ranks[r := GpuNext(c, s.ranks[r])][r := to] == s.ranks[r := to];
    }
  }

  lemma KernelStep(c: Config, s: State, r: nat)
    requires Shape(c, s) && r < c.size && GpuEnabled(c, s.ranks[r])
    ensures Shape(c, Step(c, s, GpuStep(r)))
    ensures Step(c, s, GpuStep(r)) == State(s.ranks[r := GpuNext(c, s.ranks[r])], Sends(c, r, s.ranks[r], s.flying))
  {
  }

  class Device {
    const c: Config
    const me: nat
    const peers: seq<nat>
    const slots: array<Slot>
    var gpu: Gpu
    var epoch: nat
    var proxy: Proxy
    var totalRearms: nat
    var arrive: nat
    var sent: seq<nat>

    ghost function Now(): Rank
      reads this, slots
    {
      Rank(gpu, epoch, Window(slots[..], proxy, totalRearms), arrive)
    }

    ghost predicate Valid()
      reads this, slots
    {
      c.Valid() && me < c.size && slots.Length == c.window && peers == Peers(c.size, me)
    }

    constructor (c: Config, me: nat)
      requires c.Valid() && me < c.size
      ensures Valid() && this.c == c && this.me == me && fresh(slots) && Now() == Init(c).ranks[me] && sent == []
    {
      this.c, this.me := c, me;
      var targets := QueueSlotWork(c.size, me);
      peers := targets;
      var free := FRESH;
      slots := new Slot[c.window](_ => free);
      gpu := if c.iters > 0 then At else Finished;
      epoch, proxy, totalRearms, arrive, sent := 0, Scan, 0, 0, [];
      new;
      assert slots[..] == InitWindow(c.window).slots;
    }

    /** One action of the kernel, or none while it spins; `sent` collects the targets fired at. */
    method Action() returns (moved: bool)
      requires Valid()
      modifies this`gpu, this`epoch, this`sent, slots
      ensures Valid() && moved == GpuEnabled(c, old(Now()))
      ensures Now() == if moved then GpuNext(c, old(Now())) else old(Now())
      ensures sent == if moved && old(gpu).Trigger? && old(slots[SlotOf(c, epoch)]).queued
                      then old(sent) + peers else old(sent)
    {
      var x := SlotOf(c, epoch);
      moved := true;
      match gpu {
        case At => moved := slots[x].armed; if moved { gpu := Trigger; }
        case Trigger =>
          if slots[x].queued { sent := sent + peers; }
          slots[x] := Fire(slots[x]);
          gpu := Poll;
        case Poll =>
          TimesIsProduct(c.size - 1, epoch + 1);
          moved := arrive >= (c.size - 1) * (epoch + 1);
          if moved { gpu := Mark; }
        case Mark =>
          slots[x] := slots[x].(armed := false);
          epoch := epoch + 1;
          gpu := if epoch < c.iters then At else Finished;
        case Finished => moved := false;
      }
    }

    function Ahead(): nat
      reads this
    {
      match gpu
      case At => 4
      case Trigger => 3
      case Poll => 2
      case Mark => 1
      case Finished => 0
    }

    /** The kernel's loop, from where it is until it has to wait or has done all its epochs: each epoch
        triggered fires at every peer once. */
    method RunKernel(ghost flying: seq<nat>) returns (ghost steps: nat)
      requires Valid() && sent == [] && (if gpu.Finished? then epoch == c.iters else epoch < c.iters)
      modifies this`gpu, this`epoch, this`sent, slots
      ensures Valid() && !GpuEnabled(c, Now())
      ensures Path(c, me, old(Now()), Now(), flying, FireAll(flying, sent), steps)
      ensures if gpu.Finished? then epoch == c.iters else epoch < c.iters
    {
      ghost var first := Now();
      steps := 0;
      var moved := true;
      while moved
        invariant Valid() && (if gpu.Finished? then epoch == c.iters else epoch < c.iters)
        invariant Path(c, me, first, Now(), flying, FireAll(flying, sent), steps)
        invariant !moved ==> !GpuEnabled(c, Now())
        decreases c.iters - epoch, Ahead(), moved
      {
        ghost var before, fired := Now(), sent;
        moved := Action();
        if moved {
          StepExtends(c, me, first, before, flying, fired, sent, steps);
          steps := steps + 1;
        }
      }
    }
  }

  /** One more kernel step at the end of a path, with the targets it fired at. */
  lemma StepExtends(c: Config, r: nat, from: Rank, before: Rank, flying: seq<nat>, fired: seq<nat>, sent: seq<nat>,
                    n: nat)
    requires c.Valid() && r < c.size && Path(c, r, from, before, flying, FireAll(flying, fired), n)
    requires |before.win.slots| == c.window && GpuEnabled(c, before)
    requires sent == if before.gpu.Trigger? && before.win.slots[SlotOf(c, before.epoch)].queued
                     then fired + Peers(c.size, r) else fired
    ensures Path(c, r, from, GpuNext(c, before), flying, FireAll(flying, sent), n + 1)
  {
    FireMore(flying, fired, Peers(c.size, r));
    PathGrows(c, r, from, before, flying, FireAll(flying, fired), n);
  }

  lemma {:induction false} FireMore(flying: seq<nat>, fired: seq<nat>, more: seq<nat>)
    ensures FireAll(flying, fired + more) == FireAll(FireAll(flying, fired), more)
  {
    if more == [] {
      assert fired + more == fired;
    } else {
      FireMore(flying, fired, more[..|more| - 1]);
      assert (fired + more)[..|fired + more| - 1] == fired + more[..|more| - 1];
    }
  }
}
