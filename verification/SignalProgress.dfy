/** Progress of the signal barrier: a state in which nothing can move is one in which every rank
    has performed exactly its barriers, and every effective step uses up one unit of a bounded
    amount of work, so every run gets there. */
module SignalProgress {
  import opened Arithmetic
  import opened Dissemination
  import opened SignalBarrier
  import opened SignalSafety

  ghost predicate Quiescent(c: Config, s: State)
    requires Shape(c, s)
  {
    forall ev :: !Enabled(c, s, ev)
  }

  ghost predicate AllDone(c: Config, s: State)
    requires |s| == c.size
  {
    forall r | 0 <= r < c.size ::
      s[r].gpu.Outside? && s[r].expected == s[r].done == s[r].count == c.target && s[r].cpu.Stopped?
  }

  // ---------------------------------------------------------------- what a stuck rank looks like

  /** Neither the monitor of a rank nor the network on its puts can move. */
  ghost predicate Calm(c: Config, rk: Rank)
    requires Fits(c, rk)
  {
    !CpuEnabled(c, rk) && forall k, i :: !NicEnabled(c, rk, k, i)
  }

  lemma QuiescentIsCalm(c: Config, s: State, r: nat)
    requires Shape(c, s) && Quiescent(c, s) && r < c.size
    ensures Calm(c, s[r]) && !GpuEnabled(c, s[r])
  {
    assert !Enabled(c, s, CpuStep(r)) && !Enabled(c, s, GpuStep(r));
    forall k, i ensures !NicEnabled(c, s[r], k, i) {
      assert !Enabled(c, s, NicStep(r, k, i));
    }
  }

  lemma NicSettled(c: Config, r: nat, rk: Rank, k: nat, i: nat)
    requires c.Valid() && r < c.size && RankOk(c, r, rk) && Calm(c, rk) && k < c.Rounds()
    requires i < |rk.ops[k]| && i < Triggered(rk, k)
    ensures rk.ops[k][i].stage.Completed?
  {
    assert !NicEnabled(c, rk, k, i);
    assert RoundOk(c, r, rk, k) && OpOk(c, r, rk, k, i);
  }

  lemma CpuSettled(c: Config, r: nat, rk: Rank)
    requires c.Valid() && r < c.size && RankOk(c, r, rk) && Calm(c, rk)
    ensures rk.cpu.Stopped? || (rk.cpu.Watching? && rk.done == rk.count)
  {
    if rk.cpu.Flushing? && rk.cpu.k < c.Rounds() {
      assert RoundOk(c, r, rk, rk.cpu.k);
      NicSettled(c, r, rk, rk.cpu.k, rk.count - 1);
    }
  }

  lemma GpuSettled(c: Config, r: nat, rk: Rank)
    requires c.Valid() && r < c.size && RankOk(c, r, rk) && Calm(c, rk) && !GpuEnabled(c, rk)
    ensures (rk.gpu.Outside? && rk.expected == c.target) || rk.gpu.Polling?
  {
    CpuSettled(c, r, rk);
  }

  /** In a calm rank every triggered put has landed. */
  lemma TriggeredHasLanded(c: Config, r: nat, rk: Rank, k: nat, e: nat)
    requires c.Valid() && r < c.size && RankOk(c, r, rk) && Calm(c, rk) && k < c.Rounds()
    requires 1 <= e <= Triggered(rk, k) && (rk.gpu.Polling? || rk.gpu.Outside?)
    ensures Landed(rk.ops[k]) >= e
  {
    CpuSettled(c, r, rk);
    assert RoundOk(c, r, rk, k);
    NicSettled(c, r, rk, k, e - 1);
  }

  /** A rank polling in vain blames its sender, which is strictly behind it: no such chain ends. */
  lemma {:induction false} NobodyPolls(c: Config, s: State, r: nat)
    requires Inv(c, s) && Shape(c, s) && Quiescent(c, s) && EnoughSlots(c) && r < c.size
    ensures !s[r].gpu.Polling?
    decreases s[r].expected, if s[r].gpu.Polling? then s[r].gpu.k else 0
  {
    if s[r].gpu.Polling? {
      var e, k := s[r].expected, s[r].gpu.k;
      var q := RecvFrom(c.size, k, r);
      QuiescentIsCalm(c, s, r);
      QuiescentIsCalm(c, s, q);
      GpuSettled(c, q, s[q]);
      if s[q].gpu.Polling? && (s[q].expected < e || (s[q].expected == e && s[q].gpu.k < k)) {
        NobodyPolls(c, s, q);
      } else {
        TriggeredHasLanded(c, q, s[q], k, e);
        EqualityPollingExact(c, s, r);
        assert false;
      }
    }
  }

  /** Nothing can move exactly when every rank has finished all its barriers: enough slots never
      deadlock, in any reachable state. */
  lemma QuiescentIffDone(c: Config, s: State)
    requires Inv(c, s) && Shape(c, s) && EnoughSlots(c) && c.target >= 1
    ensures Quiescent(c, s) <==> AllDone(c, s)
  {
    if Quiescent(c, s) {
      forall r | 0 <= r < c.size
        ensures s[r].gpu.Outside? && s[r].expected == s[r].done == s[r].count == c.target && s[r].cpu.Stopped?
      {
        QuiescentIsCalm(c, s, r);
        GpuSettled(c, r, s[r]);
        CpuSettled(c, r, s[r]);
        NobodyPolls(c, s, r);
      }
    }
    if AllDone(c, s) {
      forall ev ensures !Enabled(c, s, ev) {
        if ev.NicStep? && ev.r < c.size && ev.k < c.Rounds() && ev.i < |s[ev.r].ops[ev.k]| {
          assert RoundOk(c, ev.r, s[ev.r], ev.k) && OpOk(c, ev.r, s[ev.r], ev.k, ev.i);
        }
      }
    }
  }

  // ---------------------------------------------------------------- bounded work

  /** Steps the kernel thread has taken. One barrier is an entry, the ready wait, two steps a
      round and the notification. */
  function GpuWork(n: nat, rk: Rank): int {
    match rk.gpu
    case Outside => Times(rk.expected, 2 * n + 3)
    case WaitReady => Times(rk.expected - 1, 2 * n + 3) + 1
    case AtRound(k) => Times(rk.expected - 1, 2 * n + 3) + 2 + 2 * k
    case Polling(k) => Times(rk.expected - 1, 2 * n + 3) + 3 + 2 * k
  }

  /** Steps the monitor has taken. */
  function CpuWork(n: nat, rk: Rank): int {
    match rk.cpu
    case Prepare => Times(rk.count, 2 * n + 4)
    case Queueing(k) => Times(rk.count, 2 * n + 4) + 1 + k
    case Watching => Times(rk.count, 2 * n + 4) + n + 2
    case Flushing(k) => Times(rk.count - 1, 2 * n + 4) + n + 3 + k
    case Stopped => Times(rk.count, 2 * n + 4)
  }

  function StageWork(stage: Stage): nat {
    match stage
    case Queued => 0
    case Fired => 1
    case Fetched(_) => 2
    case Delivered => 3
    case Completed => 4
  }

  /** Steps the network has taken on the puts of one round: all but the newest are complete. */
  function OpsWork(ops: seq<Op>): int {
    if |ops| == 0 then 0 else 4 * (|ops| - 1) + StageWork(ops[|ops| - 1].stage)
  }

  function NicWork(ops: seq<seq<Op>>): int {
    if |ops| == 0 then 0 else NicWork(ops[..|ops| - 1]) + OpsWork(ops[|ops| - 1])
  }

  function RankWork(n: nat, rk: Rank): int {
    GpuWork(n, rk) + CpuWork(n, rk) + NicWork(rk.ops)
  }

  function Work(n: nat, s: State): int {
    if |s| == 0 then 0 else Work(n, s[..|s| - 1]) + RankWork(n, s[|s| - 1])
  }

  /** One rank's share of a whole run. */
  function RankTotal(c: Config): nat {
    var n := c.Rounds();
    Times(c.target, 2 * n + 3) + Times(c.target, 2 * n + 4) + Times(n, 4 * c.target)
  }

  /** Every run's total: all barriers of all ranks, on all three processors. */
  function TotalWork(c: Config): nat {
    Times(c.size, RankTotal(c))
  }

  lemma {:induction false} NicWorkUpdate(ops: seq<seq<Op>>, k: nat, o: seq<Op>)
    requires k < |ops|
    ensures NicWork(ops[k := o]) == NicWork(ops) - OpsWork(ops[k]) + OpsWork(o)
  {
    var m := |ops| - 1;
    if k == m {
      assert ops[k := o][..m] == ops[..m];
    } else {
      assert ops[k := o][..m] == ops[..m][k := o];
      NicWorkUpdate(ops[..m], k, o);
    }
  }

  lemma {:induction false} WorkUpdate(n: nat, s: State, r: nat, rk: Rank)
    requires r < |s|
    ensures Work(n, s[r := rk]) == Work(n, s) - RankWork(n, s[r]) + RankWork(n, rk)
  {
    var m := |s| - 1;
    if r == m {
      assert s[r := rk][..m] == s[..m];
    } else {
      assert s[r := rk][..m] == s[..m][r := rk];
      WorkUpdate(n, s[..m], r, rk);
    }
  }

  lemma GpuWorks(c: Config, r: nat, rk: Rank)
    requires c.Valid() && r < c.size && RankOk(c, r, rk) && GpuEnabled(c, rk)
    ensures RankWork(c.Rounds(), GpuNext(c, rk)) == RankWork(c.Rounds(), rk) + 1
  {
  }

  lemma QueueingIsFree(c: Config, r: nat, rk: Rank, k: nat)
    requires c.Valid() && r < c.size && RankOk(c, r, rk) && rk.cpu == Queueing(k) && k < c.Rounds()
    ensures NicWork(CpuNext(c, r, rk).ops) == NicWork(rk.ops)
  {
    var ops := rk.ops[k];
    assert RoundOk(c, r, rk, k);
    if |ops| > 0 { assert OpOk(c, r, rk, k, |ops| - 1); }
    NicWorkUpdate(rk.ops, k, ops + [NewOp(c, r, k, rk.count)]);
  }

  lemma CpuWorks(c: Config, r: nat, rk: Rank)
    requires c.Valid() && r < c.size && RankOk(c, r, rk) && CpuEnabled(c, rk)
    ensures RankWork(c.Rounds(), CpuNext(c, r, rk)) == RankWork(c.Rounds(), rk) + 1
  {
    if rk.cpu.Queueing? && rk.cpu.k < c.Rounds() {
      QueueingIsFree(c, r, rk, rk.cpu.k);
    }
  }

  /** The network moves the newest put of a round by one stage and touches no program counter. */
  lemma NicMoves(c: Config, r: nat, rk: Rank, k: nat, i: nat)
    requires c.Valid() && r < c.size && RankOk(c, r, rk) && NicEnabled(c, rk, k, i)
    ensures var rk' := NicNext(c, rk, k, i);
            && |rk'.ops| == |rk.ops| && rk'.ops == rk.ops[k := rk'.ops[k]]
            && OpsWork(rk'.ops[k]) == OpsWork(rk.ops[k]) + 1
            && rk'.gpu == rk.gpu && rk'.expected == rk.expected && rk'.cpu == rk.cpu && rk'.count == rk.count
  {
    assert RoundOk(c, r, rk, k) && OpOk(c, r, rk, k, i);
    assert i == |rk.ops[k]| - 1;
  }

  lemma NicWorks(c: Config, r: nat, rk: Rank, k: nat, i: nat)
    requires c.Valid() && r < c.size && RankOk(c, r, rk) && NicEnabled(c, rk, k, i)
    ensures RankWork(c.Rounds(), NicNext(c, rk, k, i)) == RankWork(c.Rounds(), rk) + 1
  {
    NicMoves(c, r, rk, k, i);
    NicWorkUpdate(rk.ops, k, NicNext(c, rk, k, i).ops[k]);
  }

  lemma LandingIsFree(c: Config, s: State, t: nat, k: nat, slot: nat, value: nat)
    requires t < |s| && Fits(c, s[t]) && k < c.Rounds() && slot < c.slots
    ensures Work(c.Rounds(), s[t := Land(c, s[t], k, slot, value)]) == Work(c.Rounds(), s)
  {
    WorkUpdate(c.Rounds(), s, t, Land(c, s[t], k, slot, value));
  }

  lemma NicStepWorks(c: Config, s: State, r: nat, k: nat, i: nat)
    requires Inv(c, s) && Shape(c, s) && r < c.size && NicEnabled(c, s[r], k, i)
    ensures Work(c.Rounds(), Step(c, s, NicStep(r, k, i))) == Work(c.Rounds(), s) + 1
  {
    var n := c.Rounds();
    var s1 := s[r := NicNext(c, s[r], k, i)];
    var op := s[r].ops[k][i];
    NicWorks(c, r, s[r], k, i);
    WorkUpdate(n, s, r, NicNext(c, s[r], k, i));
    assert Fits(c, s1[op.peer]);
    if op.stage.Fetched? {
      LandingIsFree(c, s1, op.peer, k, op.slot, op.stage.value);
      assert Step(c, s, NicStep(r, k, i)) == s1[op.peer := Land(c, s1[op.peer], k, op.slot, op.stage.value)];
    } else {
      assert Step(c, s, NicStep(r, k, i)) == s1;
    }
  }

  /** Every effective step is one unit of work. */
  lemma StepWorks(c: Config, s: State, ev: Event)
    requires Inv(c, s) && Shape(c, s) && Enabled(c, s, ev)
    ensures Work(c.Rounds(), Step(c, s, ev)) == Work(c.Rounds(), s) + 1
  {
    match ev
    case GpuStep(r) =>
      GpuWorks(c, r, s[r]);
      WorkUpdate(c.Rounds(), s, r, GpuNext(c, s[r]));
    case CpuStep(r) =>
      CpuWorks(c, r, s[r]);
      WorkUpdate(c.Rounds(), s, r, CpuNext(c, r, s[r]));
    case NicStep(r, k, i) =>
      NicStepWorks(c, s, r, k, i);
  }

  lemma {:induction false} NicWorkBounded(ops: seq<seq<Op>>, target: nat)
    requires forall k | 0 <= k < |ops| :: |ops[k]| <= target
    ensures NicWork(ops) <= Times(|ops|, 4 * target)
    ensures (forall k | 0 <= k < |ops| :: |ops[k]| == target && Idle(ops[k]))
            ==> NicWork(ops) == Times(|ops|, 4 * target)
  {
    if |ops| > 0 { NicWorkBounded(ops[..|ops| - 1], target); }
  }

  lemma NicWorkOfRank(c: Config, r: nat, rk: Rank)
    requires c.Valid() && r < c.size && RankOk(c, r, rk) && c.target >= 1
    ensures NicWork(rk.ops) <= Times(c.Rounds(), 4 * c.target)
    ensures rk.cpu.Stopped? ==> NicWork(rk.ops) == Times(c.Rounds(), 4 * c.target)
  {
    forall k | 0 <= k < c.Rounds()
      ensures |rk.ops[k]| <= c.target
      ensures rk.cpu.Stopped? ==> |rk.ops[k]| == c.target && Idle(rk.ops[k])
    {
      assert RoundOk(c, r, rk, k);
      if |rk.ops[k]| > 0 { assert OpOk(c, r, rk, k, |rk.ops[k]| - 1); }
    }
    NicWorkBounded(rk.ops, c.target);
  }

  lemma GpuWorkOfRank(c: Config, rk: Rank)
    requires Fits(c, rk) && rk.expected <= c.target && (!rk.gpu.Outside? ==> rk.expected >= 1)
    ensures GpuWork(c.Rounds(), rk) <= Times(c.target, 2 * c.Rounds() + 3)
  {
    var n := c.Rounds();
    TimesMonotone(rk.expected, c.target, 2 * n + 3);
    if rk.expected >= 1 { assert Times(rk.expected, 2 * n + 3) == Times(rk.expected - 1, 2 * n + 3) + 2 * n + 3; }
  }

  lemma CpuWorkOfRank(c: Config, r: nat, rk: Rank)
    requires c.Valid() && r < c.size && RankOk(c, r, rk) && c.target >= 1
    ensures CpuWork(c.Rounds(), rk) <= Times(c.target, 2 * c.Rounds() + 4)
    ensures rk.cpu.Stopped? ==> CpuWork(c.Rounds(), rk) == Times(c.target, 2 * c.Rounds() + 4)
  {
    var m := 2 * c.Rounds() + 4;
    TimesMonotone(rk.count, c.target, m);
    if rk.count < c.target {
      TimesMonotone(rk.count + 1, c.target, m);
      assert Times(rk.count + 1, m) == Times(rk.count, m) + m;
    }
    if rk.count >= 1 { assert Times(rk.count, m) == Times(rk.count - 1, m) + m; }
  }

  lemma RankWorkBounded(c: Config, r: nat, rk: Rank)
    requires c.Valid() && r < c.size && RankOk(c, r, rk) && c.target >= 1
    ensures RankWork(c.Rounds(), rk) <= RankTotal(c)
    ensures rk.gpu.Outside? && rk.expected == c.target && rk.cpu.Stopped? ==> RankWork(c.Rounds(), rk) == RankTotal(c)
  {
    GpuWorkOfRank(c, rk);
    CpuWorkOfRank(c, r, rk);
    NicWorkOfRank(c, r, rk);
  }

  lemma {:induction false} WorkBounded(c: Config, s: State, m: nat)
    requires Inv(c, s) && c.target >= 1 && m <= c.size
    ensures Work(c.Rounds(), s[..m]) <= Times(m, RankTotal(c))
    ensures AllDone(c, s) ==> Work(c.Rounds(), s[..m]) == Times(m, RankTotal(c))
  {
    if m > 0 {
      assert s[..m][..m - 1] == s[..m - 1];
      WorkBounded(c, s, m - 1);
      RankWorkBounded(c, m - 1, s[m - 1]);
    }
  }

  lemma InitialWork(c: Config, m: nat)
    requires c.Valid() && m <= c.size
    ensures Work(c.Rounds(), Init(c)[..m]) == 0
  {
    if m > 0 {
      assert Init(c)[..m][..m - 1] == Init(c)[..m - 1];
      InitialWork(c, m - 1);
      NothingQueued(InitRank(c).ops);
    }
  }

  lemma NothingQueued(ops: seq<seq<Op>>)
    requires forall k | 0 <= k < |ops| :: ops[k] == []
    ensures NicWork(ops) == 0
  {
  }

  // ---------------------------------------------------------------- whole runs

  /** How many events of a schedule are effective, that is, not spins. */
  ghost function Effective(c: Config, schedule: seq<Event>): nat
    requires c.Valid()
  {
    if schedule == [] then 0
    else
      RunInv(c, schedule[..|schedule| - 1]);
      Effective(c, schedule[..|schedule| - 1])
      + if Enabled(c, Run(c, schedule[..|schedule| - 1]), schedule[|schedule| - 1]) then 1 else 0
  }

  lemma {:induction false} WorkIsEffective(c: Config, schedule: seq<Event>)
    requires c.Valid()
    ensures Work(c.Rounds(), Run(c, schedule)) == Effective(c, schedule)
  {
    if schedule == [] {
      InitialWork(c, c.size);
      assert Init(c)[..c.size] == Init(c);
    } else {
      var s := Run(c, schedule[..|schedule| - 1]);
      RunInv(c, schedule[..|schedule| - 1]);
      WorkIsEffective(c, schedule[..|schedule| - 1]);
      if Enabled(c, s, schedule[|schedule| - 1]) { StepWorks(c, s, schedule[|schedule| - 1]); }
    }
  }

  lemma EffectiveBounded(c: Config, schedule: seq<Event>)
    requires c.Valid() && c.target >= 1
    ensures Effective(c, schedule) <= TotalWork(c)
  {
    var s := Run(c, schedule);
    RunInv(c, schedule);
    WorkIsEffective(c, schedule);
    assert s[..c.size] == s;
    WorkBounded(c, s, c.size);
  }

  /** No run takes more than the total work, and it is complete, with every rank through exactly
      its `target` barriers, precisely when it has done that much. */
  lemma RunsComplete(c: Config, schedule: seq<Event>)
    requires c.Valid() && EnoughSlots(c) && c.target >= 1
    ensures Effective(c, schedule) <= TotalWork(c)
    ensures |Run(c, schedule)| == c.size
    ensures Effective(c, schedule) == TotalWork(c) <==> AllDone(c, Run(c, schedule))
  {
    var s := Run(c, schedule);
    RunInv(c, schedule);
    EffectiveBounded(c, schedule);
    WorkIsEffective(c, schedule);
    assert s[..c.size] == s;
    WorkBounded(c, s, c.size);
    QuiescentIffDone(c, s);
    if Effective(c, schedule) == TotalWork(c) && !AllDone(c, s) {
      var ev :| Enabled(c, s, ev);
      var longer := schedule + [ev];
      assert longer[..|schedule|] == schedule;
      EffectiveBounded(c, longer);
    }
  }
}
