/** One rank of the signal barrier as an object updated in place: the kernel thread's rounds, the
    monitor's set-up and reset loops, and the network's writes. */
module SignalDevice {
  import opened Schedules
  import opened Dissemination
  import opened SignalBarrier
  import Safety = SignalSafety

  /** `n` kernel steps, each of them enabled, lead from `from` to `to`. */
  ghost predicate GpuPath(c: Config, from: Rank, to: Rank, n: nat)
    requires c.Valid()
    decreases n
  {
    Fits(c, from) && if n == 0 then to == from
                     else GpuEnabled(c, from) && Fits(c, GpuNext(c, from)) && GpuPath(c, GpuNext(c, from), to, n - 1)
  }

  ghost predicate CpuPath(c: Config, r: nat, from: Rank, to: Rank, n: nat)
    requires c.Valid() && r < c.size
    decreases n
  {
    Fits(c, from) && if n == 0 then to == from
                     else CpuEnabled(c, from) && Fits(c, CpuNext(c, r, from))
                          && CpuPath(c, r, CpuNext(c, r, from), to, n - 1)
  }

  lemma {:induction false} GpuPathGrows(c: Config, from: Rank, to: Rank, n: nat)
    requires c.Valid() && GpuPath(c, from, to, n) && Fits(c, to) && GpuEnabled(c, to) && Fits(c, GpuNext(c, to))
    ensures GpuPath(c, from, GpuNext(c, to), n + 1)
    decreases n
  {
    if n > 0 { GpuPathGrows(c, GpuNext(c, from), to, n - 1); }
  }

  lemma {:induction false} CpuPathGrows(c: Config, r: nat, from: Rank, to: Rank, n: nat)
    requires c.Valid() && r < c.size && CpuPath(c, r, from, to, n)
    requires Fits(c, to) && CpuEnabled(c, to) && Fits(c, CpuNext(c, r, to))
    ensures CpuPath(c, r, from, CpuNext(c, r, to), n + 1)
    decreases n
  {
    if n > 0 { CpuPathGrows(c, r, CpuNext(c, r, from), to, n - 1); }
  }

  lemma {:induction false} GpuPathsJoin(c: Config, a: Rank, b: Rank, d: Rank, m: nat, n: nat)
    requires c.Valid() && GpuPath(c, a, b, m) && GpuPath(c, b, d, n)
    ensures GpuPath(c, a, d, m + n)
    decreases m
  {
    if m > 0 { GpuPathsJoin(c, GpuNext(c, a), b, d, m - 1, n); }
  }

  lemma {:induction false} CpuPathsJoin(c: Config, r: nat, a: Rank, b: Rank, d: Rank, m: nat, n: nat)
    requires c.Valid() && r < c.size && CpuPath(c, r, a, b, m) && CpuPath(c, r, b, d, n)
    ensures CpuPath(c, r, a, d, m + n)
    decreases m
  {
    if m > 0 { CpuPathsJoin(c, r, CpuNext(c, r, a), b, d, m - 1, n); }
  }

  class Device {
    const c: Config
    const me: nat
    const trig: array<nat>
    const sig: array<seq<nat>>
    const bufs: array<nat>
    const ops: array<seq<Op>>
    const comp: array<nat>
    var gpu: Gpu
    var expected: nat
    var cpu: Cpu
    var count: nat
    var ready: nat
    var done: nat

    ghost function State(): Rank
      reads this, trig, sig, bufs, ops, comp
    {
      Rank(gpu, expected, trig[..], sig[..], cpu, count, bufs[..], ops[..], comp[..], ready, done)
    }

    ghost predicate Valid()
      reads this, trig, sig, bufs, ops, comp
    {
      && c.Valid() && me < c.size && Fits(c, State())
      && trig != bufs && trig != comp && bufs != comp
    }

    constructor (c: Config, me: nat)
      requires c.Valid() && me < c.size
      ensures Valid() && this.c == c && this.me == me && State() == InitRank(c)
      ensures fresh(trig) && fresh(sig) && fresh(bufs) && fresh(ops) && fresh(comp)
    {
      this.c, this.me := c, me;
      var n := c.Rounds();
      trig := new nat[n](_ => 0);
      var zeros := Zeros(c.slots);
      sig := new seq<nat>[n](_ => zeros);
      bufs := new nat[N_SIGNAL_BUFFERS](_ => 0);
      ops := new seq<Op>[n](_ => []);
      comp := new nat[n](_ => 0);
      gpu, expected, cpu, count, ready, done := Outside, 0, Prepare, 0, 0, 0;
      new;
      assert State() == InitRank(c);
    }

    // -------------------------------------------------------------- kernel

    /** Entering the barrier, and seeing that the CPU is ready. */
    method Begin()
      requires Valid() && (gpu.Outside? || gpu.WaitReady?) && GpuEnabled(c, State())
      modifies this`gpu, this`expected
      ensures Valid() && State() == GpuNext(c, old(State()))
      ensures expected == old(expected) + if old(gpu).Outside? then 1 else 0
    {
      if gpu.Outside? {
        expected := expected + 1;
        gpu := WaitReady;
      } else {
        gpu := AtRound(0);
      }
    }

    /** Triggers the put of the next round, or with all rounds done notifies the CPU. */
    method Advance()
      requires Valid() && gpu.AtRound?
      modifies this`gpu, this`done, trig
      ensures Valid() && State() == GpuNext(c, old(State()))
      ensures done == old(done) + if old(gpu).k < c.Rounds() then 0 else 1
    {
      var k := gpu.k;
      if k < c.Rounds() {
        trig[k] := expected;
        gpu := Polling(k);
      } else {
        done := done + 1;
        gpu := Outside;
      }
    }

    /** One look at the signal of the round. */
    method Look() returns (seen: bool)
      requires Valid() && gpu.Polling?
      modifies this`gpu
      ensures Valid() && seen == GpuEnabled(c, old(State()))
      ensures State() == if seen then GpuNext(c, old(State())) else old(State())
    {
      var k := gpu.k;
      seen := sig[k][expected % c.slots] == expected;
      if seen { gpu := AtRound(k + 1); }
    }

    /** The rounds of the barrier, from the one the kernel is at, until a signal is missing. */
    method RunRounds() returns (finished: bool, ghost steps: nat)
      requires Valid() && (gpu.AtRound? || gpu.Polling?)
      modifies this`gpu, this`done, trig
      ensures Valid() && GpuPath(c, old(State()), State(), steps)
      ensures if finished then gpu.Outside? && done == old(done) + 1
              else gpu.Polling? && !GpuEnabled(c, State()) && done == old(done)
    {
      ghost var first := State();
      steps := 0;
      while !gpu.Outside?
        invariant Valid() && (gpu.AtRound? || gpu.Polling? || gpu.Outside?)
        invariant GpuPath(c, first, State(), steps)
        invariant done == old(done) + if gpu.Outside? then 1 else 0
        decreases if gpu.Outside? then 0 else 2 * (c.Rounds() - gpu.k) + if gpu.AtRound? then 2 else 1
      {
        ghost var before := State();
        if gpu.AtRound? {
          Advance();
        } else {
          var seen := Look();
          if !seen { return false, steps; }
        }
        GpuPathGrows(c, first, before, steps);
        steps := steps + 1;
      }
      return true, steps;
    }

    /** The kernel's call of the barrier, or its continuation after a spin: it goes on until it waits for
        the CPU or for a signal that is not there, or has finished the barrier. */
    method BarrierNew() returns (finished: bool, ghost steps: nat)
      requires Valid() && (gpu.Outside? ==> expected < c.target)
      modifies this`gpu, this`expected, this`done, trig
      ensures Valid() && GpuPath(c, old(State()), State(), steps)
      ensures if finished then gpu.Outside? && done == old(done) + 1
              else !gpu.Outside? && !GpuEnabled(c, State()) && done == old(done)
      ensures expected == old(expected) + if old(gpu).Outside? then 1 else 0
    {
      ghost var first := State();
      steps := 0;
      if gpu.Outside? {
        GpuPathGrows(c, first, first, 0);
        Begin();
        steps := 1;
      }
      if gpu.WaitReady? {
        if ready < expected { return false, steps; }
        GpuPathGrows(c, first, State(), steps);
        Begin();
        steps := steps + 1;
      }
      ghost var more;
      ghost var middle := State();
      finished, more := RunRounds();
      GpuPathsJoin(c, first, middle, State(), steps, more);
      steps := steps + more;
    }

    // -------------------------------------------------------------- monitor

    /** `setup`: writes the signal value and queues the put of every round. */
    method Setup() returns (ghost steps: nat)
      requires Valid() && cpu.Prepare?
      modifies this`cpu, this`ready, bufs, ops
      ensures Valid() && cpu.Watching? && CpuPath(c, me, old(State()), State(), steps)
      ensures ready == old(ready) + 1
      ensures bufs[..] == old(bufs[..])[count % N_SIGNAL_BUFFERS := count + 1]
      ensures forall k | 0 <= k < c.Rounds() :: ops[k] == old(ops[k]) + [NewOp(c, me, k, count)]
    {
      ghost var first := State();
      PrepareSource();
      CpuPathGrows(c, me, first, first, 0);
      steps := 1;
      var slot := (count + 1) % c.slots;
      var k := 0;
      while k < c.Rounds()
        invariant 0 <= k <= c.Rounds() && cpu == Queueing(k) && Valid() && ready == old(ready) && steps == k + 1
        invariant bufs[..] == old(bufs[..])[count % N_SIGNAL_BUFFERS := count + 1]
        invariant CpuPath(c, me, first, State(), steps)
        invariant forall j | 0 <= j < c.Rounds() ::
                    ops[j] == if j < k then old(ops[j]) + [NewOp(c, me, j, count)] else old(ops[j])
      {
        ghost var before := State();
        QueuePut(k, slot);
        CpuPathGrows(c, me, first, before, steps);
        k := k + 1;
        steps := steps + 1;
      }
      ghost var before := State();
      Announce();
      CpuPathGrows(c, me, first, before, steps);
      steps := steps + 1;
    }

    method PrepareSource()
      requires Valid() && cpu.Prepare?
      modifies this`cpu, bufs
      ensures Valid() && cpu == Queueing(0) && State() == CpuNext(c, me, old(State()))
      ensures bufs[..] == old(bufs[..])[count % N_SIGNAL_BUFFERS := count + 1]
    {
      bufs[count % N_SIGNAL_BUFFERS] := count + 1;
      cpu := Queueing(0);
    }

    method Announce()
      requires Valid() && cpu == Queueing(c.Rounds())
      modifies this`cpu, this`ready
      ensures Valid() && cpu.Watching? && ready == old(ready) + 1 && State() == CpuNext(c, me, old(State()))
    {
      ready := ready + 1;
      cpu := Watching;
    }

    method QueuePut(k: nat, slot: nat)
      requires Valid() && cpu == Queueing(k) && k < c.Rounds() && slot == (count + 1) % c.slots
      modifies this`cpu, ops
      ensures Valid() && State() == CpuNext(c, me, old(State()))
      ensures ops[..] == old(ops[..])[k := old(ops[k]) + [NewOp(c, me, k, count)]]
    {
      var peer := SendTo(c.size, k, me);
      ops[k] := ops[k] + [Op(count + 1, peer, slot, count % N_SIGNAL_BUFFERS, Queued)];
      cpu := Queueing(k + 1);
    }

    /** The completion wait of `reset`, or its continuation, round by round; with all completions in, the
        monitor prepares the next barrier or stops. */
    method Flush() returns (flushed: bool, ghost steps: nat)
      requires Valid() && cpu.Flushing?
      modifies this`cpu
      ensures Valid() && CpuPath(c, me, old(State()), State(), steps)
      ensures if flushed then cpu == (if count < c.target then Prepare else Stopped)
                              && forall k | old(cpu).k <= k < c.Rounds() :: comp[k] >= count
              else cpu.Flushing? && old(cpu).k <= cpu.k < c.Rounds() && comp[cpu.k] < count
    {
      ghost var first := State();
      steps := 0;
      var k := cpu.k;
      while k < c.Rounds()
        invariant old(cpu).k <= k <= c.Rounds() && cpu == Flushing(k)
        invariant Valid() && CpuPath(c, me, first, State(), steps)
        invariant forall j | old(cpu).k <= j < k :: comp[j] >= count
      {
        if comp[k] < count { return false, steps; }
        ghost var before := State();
        FlushRound(k);
        CpuPathGrows(c, me, first, before, steps);
        k := k + 1;
        steps := steps + 1;
      }
      ghost var before := State();
      EndFlush();
      CpuPathGrows(c, me, first, before, steps);
      return true, steps + 1;
    }

    method EndFlush()
      requires Valid() && cpu == Flushing(c.Rounds())
      modifies this`cpu
      ensures Valid() && CpuEnabled(c, old(State())) && State() == CpuNext(c, me, old(State()))
      ensures cpu == if count < c.target then Prepare else Stopped
    {
      cpu := if count < c.target then Prepare else Stopped;
    }

    method FlushRound(k: nat)
      requires Valid() && cpu == Flushing(k) && k < c.Rounds() && comp[k] >= count
      modifies this`cpu
      ensures Valid() && CpuEnabled(c, old(State())) && State() == CpuNext(c, me, old(State()))
      ensures cpu == Flushing(k + 1)
    {
      cpu := Flushing(k + 1);
    }

    /** `reset`: counts the barrier the GPU has finished, then waits for its completions. */
    method Reset() returns (flushed: bool, ghost steps: nat)
      requires Valid() && cpu.Watching? && done > count
      modifies this`cpu, this`count
      ensures Valid() && CpuPath(c, me, old(State()), State(), steps)
      ensures count == old(count) + 1
      ensures if flushed then cpu == (if count < c.target then Prepare else Stopped)
                              && forall k | 0 <= k < c.Rounds() :: comp[k] >= count
              else cpu.Flushing? && cpu.k < c.Rounds() && comp[cpu.k] < count
    {
      ghost var first := State();
      count := count + 1;
      cpu := Flushing(0);
      CpuPathGrows(c, me, first, first, 0);
      ghost var middle := State();
      flushed, steps := Flush();
      CpuPathsJoin(c, me, first, middle, State(), 1, steps);
      steps := steps + 1;
    }

    /** The completions of barrier `n` are in, from round `from` on. */
    ghost predicate AllIn(n: nat, from: nat)
      requires comp.Length == c.Rounds()
      reads comp
    {
      forall k | from <= k < c.Rounds() :: comp[k] >= n
    }

    /** One pass of the monitor loop. A barrier the GPU has finished is counted; with all its completions
        in, the next one is prepared and announced, or the monitor stops; otherwise it waits. */
    method MonitorPass() returns (ghost steps: nat)
      requires Valid() && (cpu.Prepare? || cpu.Watching? || cpu.Flushing?)
      modifies this`cpu, this`count, this`ready, bufs, ops
      ensures Valid() && CpuPath(c, me, old(State()), State(), steps)
      ensures count == old(count) + if old(cpu).Watching? && done > old(count) then 1 else 0
      ensures var from := if old(cpu).Flushing? then old(cpu).k else 0;
              if old(cpu).Watching? && done <= old(count) then State() == old(State())
              else if !old(cpu).Prepare? && !AllIn(count, from) then
                cpu.Flushing? && cpu.k < c.Rounds() && comp[cpu.k] < count && Unannounced(old(State()))
              else if !old(cpu).Prepare? && count >= c.target then cpu.Stopped? && Unannounced(old(State()))
              else cpu.Watching? && Announced(old(State()))
    {
      ghost var first := State();
      steps := 0;
      if cpu.Flushing? {
        var flushed;
        flushed, steps := Flush();
      } else if cpu.Watching? && done > count {
        var flushed;
        flushed, steps := Reset();
      }
      if cpu.Prepare? {
        ghost var middle := State();
        ghost var more := Setup();
        CpuPathsJoin(c, me, first, middle, State(), steps, more);
        steps := steps + more;
      }
    }

    /** Nothing has been queued or announced since `was`. */
    ghost predicate Unannounced(was: Rank)
      reads this, bufs, ops
    {
      ready == was.ready && bufs[..] == was.bufs && ops[..] == was.ops
    }

    /** The put of barrier count + 1 has been queued in every round since `was`, and announced. */
    ghost predicate Announced(was: Rank)
      reads this, bufs, ops
    {
      && c.Valid() && me < c.size && ready == was.ready + 1
      && |was.bufs| == N_SIGNAL_BUFFERS && bufs[..] == was.bufs[count % N_SIGNAL_BUFFERS := count + 1]
      && |was.ops| == ops.Length == c.Rounds()
      && forall k | 0 <= k < c.Rounds() :: ops[k] == was.ops[k] + [NewOp(c, me, k, count)]
    }
  }

  // ---------------------------------------------------------------- back to the state machine

  lemma RunOneMore(c: Config, schedule: seq<Event>, ev: Event)
    requires Shape(c, Safety.Run(c, schedule)) && Enabled(c, Safety.Run(c, schedule), ev)
    ensures Safety.Run(c, schedule + [ev]) == Step(c, Safety.Run(c, schedule), ev)
  {
    var longer := schedule + [ev];
    assert longer[..|longer| - 1] == schedule && longer[|longer| - 1] == ev;
    assert Safety.Run(c, longer) == Safety.Next(c, Safety.Run(c, longer[..|longer| - 1]), longer[|longer| - 1]);
  }

  /** What a kernel call does in place is what the same number of kernel steps of the rank do in a
      schedule; so every theorem about schedules is about the objects. */
  lemma {:induction false} GpuPathIsARun(c: Config, schedule: seq<Event>, r: nat, to: Rank, n: nat)
    requires Shape(c, Safety.Run(c, schedule)) && r < c.size && GpuPath(c, Safety.Run(c, schedule)[r], to, n)
    ensures Safety.Run(c, schedule + Repeat(GpuStep(r), n)) == Safety.Run(c, schedule)[r := to]
    decreases n
  {
    if n == 0 {
      assert schedule + [] == schedule;
    } else {
      RunOneMore(c, schedule, GpuStep(r));
      RepeatOneMore(schedule, GpuStep(r), n - 1);
      GpuPathIsARun(c, schedule + [GpuStep(r)], r, to, n - 1);
    }
  }

  lemma {:induction false} CpuPathIsARun(c: Config, schedule: seq<Event>, r: nat, to: Rank, n: nat)
    requires Shape(c, Safety.Run(c, schedule)) && r < c.size && CpuPath(c, r, Safety.Run(c, schedule)[r], to, n)
    ensures Safety.Run(c, schedule + Repeat(CpuStep(r), n)) == Safety.Run(c, schedule)[r := to]
    decreases n
  {
    if n == 0 {
      assert schedule + [] == schedule;
    } else {
      RunOneMore(c, schedule, CpuStep(r));
      RepeatOneMore(schedule, CpuStep(r), n - 1);
      CpuPathIsARun(c, schedule + [CpuStep(r)], r, to, n - 1);
    }
  }
}
