/** One rank of the proxied barrier with its ring put, updated in place: the kernel's epoch loop over
    slots, counters and buffers, and the network's reads and writes. */
module ProxyDevice {
  import opened Schedules
  import opened Dissemination
  import opened ArmedSlots
  import opened ProxyBarrier

  /** `n` kernel steps, each of them enabled, lead from `from` to `to`. */
  ghost predicate Path(c: Config, r: nat, from: Rank, to: Rank, n: nat)
    requires c.Valid() && r < c.size
    decreases n
  {
    Fits(c, from) &&
    if n == 0 then to == from
    else GpuEnabled(c, from) && Path(c, r, GpuNext(c, r, from), to, n - 1)
  }

  lemma {:induction false} PathGrows(c: Config, r: nat, from: Rank, to: Rank, n: nat)
    requires c.Valid() && r < c.size && Path(c, r, from, to, n)
    requires Fits(c, to) && GpuEnabled(c, to) && Fits(c, GpuNext(c, r, to))
    ensures Path(c, r, from, GpuNext(c, r, to), n + 1)
    decreases n
  {
    if n == 0 {
      assert Path(c, r, GpuNext(c, r, to), GpuNext(c, r, to), 0);
    } else {
      PathGrows(c, r, GpuNext(c, r, from), to, n - 1);
    }
  }

  lemma RunOneMore(c: Config, schedule: seq<Event>, ev: Event)
    requires Shape(c, Run(c, schedule)) && Enabled(c, Run(c, schedule), ev)
    ensures Run(c, schedule + [ev]) == Step(c, Run(c, schedule), ev)
  {
    var longer := schedule + [ev];
    assert longer[..|longer| - 1] == schedule && longer[|longer| - 1] == ev;
    assert Run(c, longer) == Next(c, Run(c, longer[..|longer| - 1]), longer[|longer| - 1]);
  }

  /** What the kernel does in place is a schedule of the state machine. */
  lemma {:induction false} PathIsARun(c: Config, schedule: seq<Event>, r: nat, to: Rank, n: nat)
    requires Shape(c, Run(c, schedule)) && r < c.size && Path(c, r, Run(c, schedule)[r], to, n)
    ensures Run(c, schedule + Repeat(GpuStep(r), n)) == Run(c, schedule)[r := to]
    decreases n
  {
    if n == 0 {
      assert schedule + [] == schedule;
    } else {
      RunOneMore(c, schedule, GpuStep(r));
      RepeatOneMore(schedule, GpuStep(r), n - 1);
      assert Fits(c, GpuNext(c, r, Run(c, schedule)[r]));
      PathIsARun(c, schedule + [GpuStep(r)], r, to, n - 1);
    }
  }

  class Device {
    const c: Config
    const me: nat
    const slots: array<Slot>
    const cnt: array<nat>
    const out: array<seq<Msg>>
    var gpu: Gpu
    var epoch: nat
    var proxy: Proxy
    var totalRearms: nat
    var source: Value
    var recv: Value
    var errors: nat

    ghost function Now(): Rank
      reads this, slots, cnt, out
    {
      Rank(gpu, epoch, Window(slots[..], proxy, totalRearms), cnt[..], source, recv, errors, out[..])
    }

    ghost predicate Valid()
      reads this, slots, cnt, out
    {
      c.Valid() && me < c.size && Fits(c, Now())
    }

    constructor (c: Config, me: nat)
      requires c.Valid() && me < c.size
      ensures Valid() && this.c == c && this.me == me && Now() == Init(c)[me]
      ensures fresh(slots) && fresh(cnt) && fresh(out)
    {
      this.c, this.me := c, me;
      var free := FRESH;
      slots := new Slot[TotalSlots(c)](_ => free);
      cnt := new nat[c.Phases()](_ => 0);
      out := new seq<Msg>[c.size](_ => []);
      gpu := if c.iters > 0 then At(0, 0) else Finished;
      epoch, proxy, totalRearms, source, recv, errors := 0, Scan, 0, Unset, Unset, 0;
      new;
      assert slots[..] == InitWindow(TotalSlots(c)).slots;
      assert cnt[..] == seq(c.Phases(), p => 0) && out[..] == seq(c.size, t => []);
    }

    /** Writes the trigger of slot x; queued work fires towards the slot's target. */
    method FireSlot(x: nat)
      requires Valid() && x < TotalSlots(c)
      modifies slots, out
      ensures Valid() && Now() == TriggerSlot(c, me, old(Now()), x)
    {
      var info := Layout(c, me, x);
      if slots[x].queued {
        out[info.target] := out[info.target] + [if info.opType.BarrierOp? then Add(info.phase) else Put];
      }
      slots[x] := Fire(slots[x]);
    }

    method Release(x: nat)
      requires Valid() && x < TotalSlots(c)
      modifies slots
      ensures Valid() && Now() == old(Now()).(win := ReleaseAt(old(Now()).win, x))
    {
      slots[x] := slots[x].(armed := false);
    }

    /** The value in the receive buffer against the one the previous rank sends in this epoch. */
    method VerifyReceived()
      requires Valid() && gpu.Verify?
      modifies this`gpu, this`errors
      ensures Valid() && Now() == GpuNext(c, me, old(Now()))
    {
      if recv != Tagged(Sender(c, me), epoch) { errors := errors + 1; }
      gpu := At(2, 0);
    }

    /** With all phases of a barrier done the kernel goes on to the put, the verification or the next epoch. */
    method LeaveBarrier()
      requires Valid() && gpu.At? && gpu.p == c.Phases()
      modifies this`gpu, this`epoch
      ensures Valid() && Now() == GpuNext(c, me, old(Now()))
    {
      if gpu.b == 0 {
        gpu := WriteSource;
      } else if gpu.b == 1 {
        gpu := Verify;
      } else {
        epoch := epoch + 1;
        gpu := if epoch < c.iters then At(0, 0) else Finished;
      }
    }

    /** One phase action of a barrier, or none while the kernel spins on the slot or on the counter. */
    method PhaseAction() returns (moved: bool)
      requires Valid() && (gpu.Trigger? || gpu.Poll? || gpu.Mark? || (gpu.At? && gpu.p < c.Phases()))
      modifies this`gpu, slots, out
      ensures Valid() && moved == GpuEnabled(c, old(Now()))
      ensures Now() == if moved then GpuNext(c, me, old(Now())) else old(Now())
    {
      var b, p := gpu.b, gpu.p;
      var x := SlotOf(c, epoch, p);
      moved := true;
      if gpu.At? {
        moved := slots[x].armed;
        if moved { gpu := Trigger(b, p); }
      } else if gpu.Trigger? {
        FireSlot(x);
        gpu := Poll(b, p);
      } else if gpu.Poll? {
        moved := cnt[p] >= epoch * 3 + b + 1;
        if moved { gpu := Mark(b, p); }
      } else {
        Release(x);
        gpu := At(b, p + 1);
      }
    }

    /** One action of the put, or none while the put slot is not armed. */
    method PutAction() returns (moved: bool)
      requires Valid() && (gpu.WriteSource? || gpu.PutWait? || gpu.PutTrigger? || gpu.PutMark?)
      modifies this`gpu, this`source, slots, out
      ensures Valid() && moved == GpuEnabled(c, old(Now()))
      ensures Now() == if moved then GpuNext(c, me, old(Now())) else old(Now())
    {
      var x := SlotOf(c, epoch, c.Phases());
      moved := true;
      if gpu.WriteSource? {
        source := Tagged(me, epoch);
        gpu := PutWait;
      } else if gpu.PutWait? {
        moved := slots[x].armed;
        if moved { gpu := PutTrigger; }
      } else if gpu.PutTrigger? {
        FireSlot(x);
        gpu := PutMark;
      } else {
        Release(x);
        gpu := At(1, 0);
      }
    }

    method Action() returns (moved: bool)
      requires Valid()
      modifies this`gpu, this`epoch, this`source, this`errors, slots, out
      ensures Valid() && moved == GpuEnabled(c, old(Now()))
      ensures Now() == if moved then GpuNext(c, me, old(Now())) else old(Now())
    {
      if gpu.Finished? { return false; }
      if gpu.Verify? {
        VerifyReceived();
        return true;
      }
      if gpu.At? && gpu.p == c.Phases() {
        LeaveBarrier();
        return true;
      }
      if gpu.At? || gpu.Trigger? || gpu.Poll? || gpu.Mark? {
        moved := PhaseAction();
      } else {
        moved := PutAction();
      }
    }

    /** Actions left in the epoch. */
    function Ahead(): int
      reads this
    {
      var n := c.Phases();
      match gpu
      case At(b, p) => 4 * (n - p) + After(b)
      case Trigger(b, p) => 4 * (n - p) - 1 + After(b)
      case Poll(b, p) => 4 * (n - p) - 2 + After(b)
      case Mark(b, p) => 4 * (n - p) - 3 + After(b)
      case WriteSource => 8 * n + 8
      case PutWait => 8 * n + 7
      case PutTrigger => 8 * n + 6
      case PutMark => 8 * n + 5
      case Verify => 4 * n + 2
      case Finished => 0
    }

    function After(b: nat): int
      reads this
    {
      if b == 0 then 8 * c.Phases() + 9 else if b == 1 then 4 * c.Phases() + 3 else 1
    }

    /** The kernel's loop, from where it is until it has to wait or has done all its epochs. */
    method RunKernel() returns (ghost steps: nat)
      requires Valid() && (if gpu.Finished? then epoch == c.iters else epoch < c.iters)
      modifies this`gpu, this`epoch, this`source, this`errors, slots, out
      ensures Valid() && Path(c, me, old(Now()), Now(), steps) && !GpuEnabled(c, Now())
      ensures if gpu.Finished? then epoch == c.iters else epoch < c.iters
    {
      ghost var first := Now();
      steps := 0;
      var moved := true;
      while moved
        invariant Valid() && Path(c, me, first, Now(), steps)
        invariant if gpu.Finished? then epoch == c.iters else epoch < c.iters
        invariant !moved ==> !GpuEnabled(c, Now())
        decreases c.iters - epoch, Ahead(), moved
      {
        ghost var before := Now();
        moved := Action();
        if moved {
          PathGrows(c, me, first, before, steps);
          steps := steps + 1;
        }
      }
    }
  }
}
