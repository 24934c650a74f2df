/** Progress of the counting barrier: a run that cannot go on has finished, and no run has more than a
    fixed number of effective steps. */
module CountingProgress {
  import opened Arithmetic
  import S = Sums
  import opened ArmedSlots
  import opened SlotWork
  import opened CountingBarrier

  // ---------------------------------------------------------------- a stuck run has finished

  /** Nothing can move, a re-queue that succeeds included. */
  ghost predicate Stuck(c: Config, s: State) {
    Shape(c, s) && forall ev :: Enabled(c, s, ev) ==> ev.ProxyStep? && !ev.ok
  }

  lemma IdleSlotArmed(c: Config, s: State, r: nat, x: nat)
    requires Inv(c, s) && Stuck(c, s) && r < c.size && x < c.window
    ensures s.ranks[r].win.slots[x].armed
  {
    assert RankOk(c, s.ranks[r]) && SlotsOk(c, s.ranks[r]);
    assert !Enabled(c, s, ProxyStep(r, x, true));
  }

  lemma StuckAtPollOrEnd(c: Config, s: State, r: nat)
    requires Inv(c, s) && Stuck(c, s) && r < c.size
    ensures s.ranks[r].gpu.Poll? || s.ranks[r].gpu.Finished?
  {
    assert !Enabled(c, s, GpuStep(r));
    IdleSlotArmed(c, s, r, SlotOf(c, s.ranks[r].epoch));
  }

  lemma {:induction false} SumAtLeast(ranks: seq<Rank>, top: nat)
    requires forall r | 0 <= r < |ranks| :: Triggered(ranks[r]) >= top
    ensures SumTriggered(ranks) >= Times(|ranks|, top)
  {
    if ranks != [] { SumAtLeast(ranks[..|ranks| - 1], top); }
  }

  /** The rank that has triggered least has all arrivals it waits for. */
  lemma {:induction false} NobodyPolls(c: Config, s: State, r: nat)
    requires Inv(c, s) && Stuck(c, s) && r < c.size
    ensures !s.ranks[r].gpu.Poll?
    decreases Triggered(s.ranks[r])
  {
    if s.ranks[r].gpu.Poll? {
      var top := Triggered(s.ranks[r]);
      assert RankOk(c, s.ranks[r]);
      assert !Enabled(c, s, Deliver(r)) && !Enabled(c, s, GpuStep(r));
      assert Times(c.size, top) == Times(c.size - 1, top) + top;
      if q :| 0 <= q < c.size && Triggered(s.ranks[q]) < top {
        StuckAtPollOrEnd(c, s, q);
        assert RankOk(c, s.ranks[q]);
        NobodyPolls(c, s, q);
      } else {
        SumAtLeast(s.ranks, top);
      }
    }
  }

  /** A run that cannot go on, re-queues included, has finished: every rank is through all its epochs
      and every slot is armed again. */
  lemma StuckMeansFinished(c: Config, schedule: seq<Event>, r: nat)
    requires c.Valid() && Stuck(c, Run(c, schedule)) && r < c.size
    ensures var rk := Run(c, schedule).ranks[r];
            && rk.gpu.Finished? && rk.epoch == c.iters
            && |rk.win.slots| == c.window && forall x | 0 <= x < c.window :: rk.win.slots[x].armed
  {
    RunInv(c, schedule);
    var s := Run(c, schedule);
    assert RankOk(c, s.ranks[r]);
    StuckAtPollOrEnd(c, s, r);
    NobodyPolls(c, s, r);
    forall x | 0 <= x < c.window ensures s.ranks[r].win.slots[x].armed { IdleSlotArmed(c, s, r, x); }
  }

  // ---------------------------------------------------------------- what is left to do

  /** Kernel steps left. */
  function KernelLeft(c: Config, rk: Rank): int {
    match rk.gpu
    case At => 4 * (c.iters - rk.epoch)
    case Trigger => 4 * (c.iters - rk.epoch) - 1
    case Poll => 4 * (c.iters - rk.epoch) - 2
    case Mark => 4 * (c.iters - rk.epoch) - 3
    case Finished => 0
  }

  /** With the additions the kernel has still to send, and the slots it has still to hand back. */
  function RestLeft(c: Config, rk: Rank): int {
    KernelLeft(c, rk) + Times(c.iters - Triggered(rk), if c.size >= 1 then c.size - 1 else 0) + 2 * (c.iters - rk.epoch)
  }

  ghost function RankLeft(c: Config, rk: Rank): int { RestLeft(c, rk) + S.Sum(SlotsLeft(rk.win)) }

  ghost function RanksLeft(c: Config, ranks: seq<Rank>): (xs: seq<int>)
    ensures |xs| == |ranks| && forall r | 0 <= r < |ranks| :: xs[r] == RankLeft(c, ranks[r])
  {
    seq(|ranks|, r requires 0 <= r < |ranks| => RankLeft(c, ranks[r]))
  }

  ghost function WorkLeft(c: Config, s: State): int { S.Sum(RanksLeft(c, s.ranks)) + S.Sum(s.flying) }

  lemma {:induction false} FiringCosts(flying: seq<nat>, targets: seq<nat>)
    requires forall i | 0 <= i < |targets| :: targets[i] < |flying|
    ensures S.Sum(FireAll(flying, targets)) == S.Sum(flying) + |targets|
  {
    if targets != [] {
      FiringCosts(flying, targets[..|targets| - 1]);
      var t, f := targets[|targets| - 1], FireAll(flying, targets[..|targets| - 1]);
      S.SumOfUpdate(f, t, f[t] + 1);
    }
  }

  lemma {:induction false} PeerCount(size: nat, rank: nat)
    ensures |Peers(size, rank)| == if rank < size then size - 1 else size
    ensures forall i | 0 <= i < |Peers(size, rank)| :: Peers(size, rank)[i] < size
  {
    if size > 0 { PeerCount(size - 1, rank); }
  }

  /** Additions a kernel step sends. */
  function Sends(c: Config, rk: Rank): int { if rk.gpu.Trigger? then c.size - 1 else 0 }

  /** Proxy actions a kernel step asks for. */
  function Asks(rk: Rank): int { if rk.gpu.Mark? then 2 else 0 }

  lemma RestDrops(c: Config, rk: Rank)
    requires c.Valid() && RankOk(c, rk) && GpuEnabled(c, rk)
    ensures RestLeft(c, GpuNext(c, rk)) + Sends(c, rk) + Asks(rk) == RestLeft(c, rk) - 1
  {
  }

  lemma WindowGains(c: Config, rk: Rank)
    requires c.Valid() && RankOk(c, rk) && SlotsOk(c, rk) && GpuEnabled(c, rk)
    ensures S.Sum(SlotsLeft(GpuNext(c, rk).win)) == S.Sum(SlotsLeft(rk.win)) + Asks(rk)
  {
    var x := SlotOf(c, rk.epoch);
    if rk.gpu.Trigger? { FireLeavesArmed(rk.win, x); }
    if rk.gpu.Mark? {
      assert SlotOk(rk.win.slots[x], true, rk.win.proxy == Hold(x));
      ReleaseCosts(rk.win, x);
    }
  }

  lemma GpuDrops(c: Config, rk: Rank)
    requires c.Valid() && RankOk(c, rk) && SlotsOk(c, rk) && GpuEnabled(c, rk)
    ensures RankLeft(c, GpuNext(c, rk)) + Sends(c, rk) == RankLeft(c, rk) - 1
  {
    RestDrops(c, rk);
    WindowGains(c, rk);
  }

  lemma RankChange(c: Config, ranks: seq<Rank>, r: nat, rk: Rank)
    requires r < |ranks|
    ensures S.Sum(RanksLeft(c, ranks[r := rk])) == S.Sum(RanksLeft(c, ranks)) - RankLeft(c, ranks[r]) + RankLeft(c, rk)
  {
    S.SumOfUpdate(RanksLeft(c, ranks), r, RankLeft(c, rk));
    assert RanksLeft(c, ranks[r := rk]) == RanksLeft(c, ranks)[r := RankLeft(c, rk)];
  }

  /** The proxy's attempt to queue work was refused. */
  predicate Refused(s: State, ev: Event) {
    ev.ProxyStep? && !ev.ok && ev.r < |s.ranks| && s.ranks[ev.r].win.proxy.Scan?
  }

  lemma GpuStepChanges(c: Config, s: State, r: nat) returns (rk: Rank, flying: seq<nat>)
    requires Inv(c, s) && Enabled(c, s, GpuStep(r))
    ensures rk == GpuNext(c, s.ranks[r])
    ensures flying == if s.ranks[r].gpu.Trigger? then FireAll(s.flying, Peers(c.size, r)) else s.flying
    ensures Step(c, s, GpuStep(r)).ranks == s.ranks[r := rk] && Step(c, s, GpuStep(r)).flying == flying
  {
    assert RankOk(c, s.ranks[r]) && SlotsOk(c, s.ranks[r]);
    rk, flying := GpuNext(c, s.ranks[r]), Step(c, s, GpuStep(r)).flying;
    if s.ranks[r].gpu.Trigger? { GpuKeepsRank(c, s.ranks[r]); }
  }

  lemma SendingCosts(c: Config, flying: seq<nat>, r: nat)
    requires r < c.size == |flying|
    ensures S.Sum(FireAll(flying, Peers(c.size, r))) == S.Sum(flying) + c.size - 1
  {
    PeerCount(c.size, r);
    FiringCosts(flying, Peers(c.size, r));
  }

  lemma GpuStepDrops(c: Config, s: State, r: nat)
    requires Inv(c, s) && Enabled(c, s, GpuStep(r))
    ensures WorkLeft(c, Step(c, s, GpuStep(r))) == WorkLeft(c, s) - 1
  {
    var rk, flying := GpuStepChanges(c, s, r);
    assert RankOk(c, s.ranks[r]) && SlotsOk(c, s.ranks[r]);
    GpuDrops(c, s.ranks[r]);
    RankChange(c, s.ranks, r, rk);
    SendingCosts(c, s.flying, r);
  }

  lemma ProxyDropsRank(c: Config, rk: Rank, x: nat, ok: bool)
    requires c.Valid() && RankOk(c, rk) && SlotsOk(c, rk) && ProxyEnabled(rk.win, x)
    ensures RankLeft(c, rk.(win := ProxyNext(rk.win, x, ok))) ==
              RankLeft(c, rk) - if rk.win.proxy.Scan? && !ok then 0 else 1
  {
    if rk.win.proxy.Scan? && !ok { RefusalIsFree(rk.win, x); }
    else { ProxyDrops(rk.win, if rk.gpu.Poll? || rk.gpu.Mark? then SlotOf(c, rk.epoch) else -1, x, ok); }
  }

  lemma ProxyStepDrops(c: Config, s: State, r: nat, x: nat, ok: bool)
    requires Inv(c, s) && Enabled(c, s, ProxyStep(r, x, ok))
    ensures var left, left' := WorkLeft(c, s), WorkLeft(c, Step(c, s, ProxyStep(r, x, ok)));
            if Refused(s, ProxyStep(r, x, ok)) then left' == left else left' == left - 1
  {
    var rk := s.ranks[r];
    assert RankOk(c, rk) && SlotsOk(c, rk);
    RankChange(c, s.ranks, r, rk.(win := ProxyNext(rk.win, x, ok)));
    ProxyDropsRank(c, rk, x, ok);
  }

  lemma DeliverChanges(c: Config, s: State, r: nat) returns (rk: Rank, flying: seq<nat>)
    requires Shape(c, s) && Enabled(c, s, Deliver(r))
    ensures rk == s.ranks[r].(arrive := s.ranks[r].arrive + 1) && flying == s.flying[r := s.flying[r] - 1]
    ensures Step(c, s, Deliver(r)).ranks == s.ranks[r := rk] && Step(c, s, Deliver(r)).flying == flying
  {
    rk, flying := s.ranks[r].(arrive := s.ranks[r].arrive + 1), s.flying[r := s.flying[r] - 1];
  }

  lemma ArrivingKeepsSum(c: Config, ranks: seq<Rank>, r: nat, rk: Rank, ranks': seq<Rank>)
    requires r < |ranks| && rk == ranks[r].(arrive := ranks[r].arrive + 1) && ranks' == ranks[r := rk]
    ensures S.Sum(RanksLeft(c, ranks')) == S.Sum(RanksLeft(c, ranks))
  {
    RankChange(c, ranks, r, rk);
    ArrivingIsFree(c, ranks[r]);
  }

  lemma DeliverStepDrops(c: Config, s: State, r: nat)
    requires Shape(c, s) && Enabled(c, s, Deliver(r))
    ensures WorkLeft(c, Step(c, s, Deliver(r))) == WorkLeft(c, s) - 1
  {
    var rk, flying := DeliverChanges(c, s, r);
    ArrivingKeepsSum(c, s.ranks, r, rk, Step(c, s, Deliver(r)).ranks);
    OneLess(s.flying, r, Step(c, s, Deliver(r)).flying);
  }

  lemma ArrivingIsFree(c: Config, rk: Rank)
    ensures RankLeft(c, rk.(arrive := rk.arrive + 1)) == RankLeft(c, rk)
  {
  }

  lemma OneLess(flying: seq<nat>, r: nat, less: seq<nat>)
    requires r < |flying| && flying[r] > 0 && less == flying[r := flying[r] - 1]
    ensures S.Sum(less) == S.Sum(flying) - 1
  {
    S.SumOfUpdate(flying, r, flying[r] - 1);
  }

  lemma StepDrops(c: Config, s: State, ev: Event)
    requires Inv(c, s) && Enabled(c, s, ev)
    ensures if Refused(s, ev) then WorkLeft(c, Step(c, s, ev)) == WorkLeft(c, s)
            else WorkLeft(c, Step(c, s, ev)) == WorkLeft(c, s) - 1
  {
    match ev
    case GpuStep(r) => GpuStepDrops(c, s, r);
    case ProxyStep(r, x, ok) => ProxyStepDrops(c, s, r, x, ok);
    case Deliver(r) => DeliverStepDrops(c, s, r);
  }

  lemma LeftNonNegative(c: Config, s: State)
    requires Inv(c, s)
    ensures WorkLeft(c, s) >= 0
  {
    forall r | 0 <= r < |s.ranks| ensures RanksLeft(c, s.ranks)[r] >= 0 {
      assert RankOk(c, s.ranks[r]);
      S.SumNonNegative(SlotsLeft(s.ranks[r].win));
    }
    S.SumNonNegative(RanksLeft(c, s.ranks));
    S.SumNonNegative(s.flying);
  }

  /** How many events of a schedule are effective: not spins and not refused re-queues. */
  ghost function Effective(c: Config, schedule: seq<Event>): nat {
    if schedule == [] then 0
    else
      var s, ev := Run(c, schedule[..|schedule| - 1]), schedule[|schedule| - 1];
      Effective(c, schedule[..|schedule| - 1]) + if Shape(c, s) && Enabled(c, s, ev) && !Refused(s, ev) then 1 else 0
  }

  /** Per epoch four kernel steps, a put to every other rank and two proxy actions; and two to arm each
      slot at first. */
  function TotalWork(c: Config): nat
    requires c.Valid()
  {
    Times(c.size, Times(c.iters, c.size - 1) + 6 * c.iters + 2 * c.window)
  }

  lemma FreshRankLeft(c: Config, r: nat)
    requires c.Valid() && r < c.size
    ensures RankLeft(c, Init(c).ranks[r]) == Times(c.iters, c.size - 1) + 6 * c.iters + 2 * c.window
  {
    assert Init(c).ranks[r].win == InitWindow(c.window);
    FreshLeft(c.window);
    TimesIsProduct(c.window, 2);
  }

  lemma EqualShares(c: Config, ranks: seq<Rank>, each: nat)
    requires forall r | 0 <= r < |ranks| :: RankLeft(c, ranks[r]) == each
    ensures S.Sum(RanksLeft(c, ranks)) == Times(|ranks|, each)
  {
    S.SumOfSame(RanksLeft(c, ranks), each);
  }

  lemma InitialWork(c: Config)
    requires c.Valid()
    ensures WorkLeft(c, Init(c)) == TotalWork(c)
  {
    var s, each := Init(c), Times(c.iters, c.size - 1) + 6 * c.iters + 2 * c.window;
    forall r | 0 <= r < |s.ranks| ensures RankLeft(c, s.ranks[r]) == each { FreshRankLeft(c, r); }
    EqualShares(c, s.ranks, each);
    S.SumOfZeros(s.flying);
  }

  lemma {:induction false} WorkIsEffective(c: Config, schedule: seq<Event>)
    requires c.Valid()
    ensures Effective(c, schedule) == TotalWork(c) - WorkLeft(c, Run(c, schedule))
  {
    if schedule == [] {
      InitialWork(c);
    } else {
      WorkIsEffective(c, schedule[..|schedule| - 1]);
      RunInv(c, schedule[..|schedule| - 1]);
      var s, ev := Run(c, schedule[..|schedule| - 1]), schedule[|schedule| - 1];
      if Enabled(c, s, ev) { StepDrops(c, s, ev); }
    }
  }

  lemma StuckHasNothingLeft(c: Config, schedule: seq<Event>)
    requires c.Valid() && Stuck(c, Run(c, schedule))
    ensures WorkLeft(c, Run(c, schedule)) == 0
  {
    var s := Run(c, schedule);
    RunInv(c, schedule);
    forall r | 0 <= r < c.size ensures RankLeft(c, s.ranks[r]) == 0 && s.flying[r] == 0 {
      StuckMeansFinished(c, schedule, r);
      ArmedLeft(s.ranks[r].win);
      assert !Enabled(c, s, Deliver(r));
    }
    S.SumOfZeros(RanksLeft(c, s.ranks));
    S.SumOfZeros(s.flying);
  }

  /** No schedule, whatever the network and the queue do, has more effective steps than that, and it
      has made them all exactly when nothing can move any more. */
  lemma RunsComplete(c: Config, schedule: seq<Event>)
    requires c.Valid()
    ensures Effective(c, schedule) <= TotalWork(c)
    ensures Effective(c, schedule) == TotalWork(c) <==> Stuck(c, Run(c, schedule))
  {
    var s := Run(c, schedule);
    RunInv(c, schedule);
    WorkIsEffective(c, schedule);
    LeftNonNegative(c, s);
    if Stuck(c, s) { StuckHasNothingLeft(c, schedule); }
    if !Stuck(c, s) {
      var ev :| Enabled(c, s, ev) && !(ev.ProxyStep? && !ev.ok);
      StepDrops(c, s, ev);
      StepKeepsInv(c, s, ev);
      LeftNonNegative(c, Step(c, s, ev));
    }
  }
}
