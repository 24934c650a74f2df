/** How often the proxied barrier's deferred work fires, and that the barrier never gets stuck. */
module ProxyProgress {
  import opened Dissemination
  import opened ArmedSlots
  import opened Arithmetic
  import opened ProxyBarrier

  // ---------------------------------------------------------------- triggers and rearms

  /** Triggers the kernel writes per epoch: three barriers and one put. */
  function PerEpoch(c: Config): nat { 3 * c.Phases() + 1 }

  /** Triggers written in the current epoch. */
  function InEpoch(c: Config, g: Gpu): nat {
    var n := c.Phases();
    match g
    case At(b, p) => if b == 0 then p else if b == 1 then n + 1 + p else 2 * n + 1 + p
    case Trigger(b, p) => if b == 0 then p else if b == 1 then n + 1 + p else 2 * n + 1 + p
    case Poll(b, p) => if b == 0 then p + 1 else if b == 1 then n + 2 + p else 2 * n + 2 + p
    case Mark(b, p) => if b == 0 then p + 1 else if b == 1 then n + 2 + p else 2 * n + 2 + p
    case WriteSource => n
    case PutWait => n
    case PutTrigger => n
    case PutMark => n + 1
    case Verify => 2 * n + 1
    case Finished => 0
  }

  function Written(c: Config, rk: Rank): nat { Times(rk.epoch, PerEpoch(c)) + InEpoch(c, rk.gpu) }

  /** Every trigger written has fired exactly one queued operation. */
  predicate FiresOk(c: Config, rk: Rank) { SumFires(rk.win.slots) == Written(c, rk) }

  lemma GpuKeepsFires(c: Config, r: nat, rk: Rank)
    requires c.Valid() && r < c.size && RankOk(c, rk) && GpuEnabled(c, rk) && FiresOk(c, rk)
    ensures FiresOk(c, GpuNext(c, r, rk))
  {
    GpuWindow(c, r, rk);
    if Triggers(rk.gpu) { FireKeepsWindow(rk.win, UsedSlot(c, rk)); }
    else if Releases(rk.gpu) { ReleaseKeepsWindow(rk.win, UsedSlot(c, rk)); }
    TriggersWritten(c, r, rk);
  }

  lemma TriggersWritten(c: Config, r: nat, rk: Rank)
    requires c.Valid() && r < c.size && Fits(c, rk) && GpuEnabled(c, rk)
    ensures Written(c, GpuNext(c, r, rk)) == Written(c, rk) + if Triggers(rk.gpu) then 1 else 0
  {
  }

  ghost predicate AllFiresOk(c: Config, s: State) {
    |s| == c.size && forall r | 0 <= r < c.size :: FiresOk(c, s[r])
  }

  lemma StepKeepsFires(c: Config, s: State, ev: Event)
    requires Inv(c, s) && AllFiresOk(c, s) && Enabled(c, s, ev)
    ensures AllFiresOk(c, Step(c, s, ev))
  {
    match ev
    case GpuStep(r) => GpuKeepsFires(c, r, s[r]);
    case ProxyStep(r, x, ok) => ProxyKeepsWindow(s[r].win, ActiveSlot(c, s[r]), x, ok);
    case ReadSource(r, t, i) =>
    case Deliver(r, t, i) =>
  }

  lemma {:induction false} RunFires(c: Config, schedule: seq<Event>)
    requires c.Valid()
    ensures AllFiresOk(c, Run(c, schedule))
  {
    if schedule == [] {
      SumOfFresh(TotalSlots(c));
    } else {
      RunFires(c, schedule[..|schedule| - 1]);
      RunInv(c, schedule[..|schedule| - 1]);
      var s, ev := Run(c, schedule[..|schedule| - 1]), schedule[|schedule| - 1];
      if Enabled(c, s, ev) { StepKeepsFires(c, s, ev); }
    }
  }

  /** At the end, with every slot armed again, the proxy has armed each slot once and again after each of
      the 3 * phases + 1 triggers of each epoch; the work fired once per trigger. */
  lemma RearmConservation(c: Config, schedule: seq<Event>, r: nat)
    requires c.Valid() && r < c.size
    ensures |Run(c, schedule)| == c.size
    ensures var rk := Run(c, schedule)[r];
            && SumFires(rk.win.slots) == Times(rk.epoch, PerEpoch(c)) + InEpoch(c, rk.gpu)
            && (rk.gpu.Finished? && (forall x | 0 <= x < |rk.win.slots| :: rk.win.slots[x].armed) ==>
                  rk.win.totalRearms == TotalSlots(c) + c.iters * PerEpoch(c))
  {
    RunFires(c, schedule);
    RunInv(c, schedule);
    var rk := Run(c, schedule)[r];
    assert RankOk(c, rk) && FiresOk(c, rk);
    TimesIsProduct(c.iters, PerEpoch(c));
    if rk.gpu.Finished? && forall x | 0 <= x < |rk.win.slots| :: rk.win.slots[x].armed { TotalRearms(rk.win); }
  }

  // ---------------------------------------------------------------- progress

  /** Nothing can move, a re-queue that succeeds included. */
  ghost predicate Stuck(c: Config, s: State) {
    Shape(c, s) && forall ev :: Enabled(c, s, ev) ==> ev.ProxyStep? && !ev.ok
  }

  /** A put reads its source, or its value arrives, where that may be overtaken. */
  predicate LatePut(c: Config, s: State, ev: Event) {
    && !c.ordered && ev.r < |s|
    && (ev.ReadSource?
        || (ev.Deliver? && ev.t < |s[ev.r].out| && ev.i < |s[ev.r].out[ev.t]| && s[ev.r].out[ev.t][ev.i].PutRead?))
  }

  /** Nothing can move but puts that may be late. */
  ghost predicate Stalled(c: Config, s: State) {
    Shape(c, s) && forall ev :: Enabled(c, s, ev) ==> (ev.ProxyStep? && !ev.ok) || LatePut(c, s, ev)
  }

  /** A slot not in use is armed when the proxy has nothing to do. */
  lemma IdleSlotArmed(c: Config, s: State, r: nat, x: nat)
    requires Inv(c, s) && Stalled(c, s) && r < c.size && x < TotalSlots(c)
    ensures s[r].win.slots[x].armed
  {
    assert RankOk(c, s[r]);
    assert !Enabled(c, s, ProxyStep(r, x, true));
  }

  lemma NoAdditionFlies(c: Config, s: State, r: nat, t: nat, p: nat)
    requires Inv(c, s) && Stalled(c, s) && r < c.size && t < c.size
    ensures Flying(s[r].out[t], p) == 0
  {
    var out := s[r].out[t];
    assert ChannelOk(c, r, t, out);
    assert c.ordered ==> Enabled(c, s, ReadSource(r, t, 0)) || Enabled(c, s, Deliver(r, t, 0)) || out == [];
    forall i: nat | i < |out| ensures out[i] != Add(p) {
      assert !c.ordered && out[i] == Add(p) ==> Enabled(c, s, Deliver(r, t, i));
    }
  }

  /** A rank that polls waits for one that is behind it, and so on down: nobody polls. */
  lemma {:induction false} NobodyPolls(c: Config, s: State, r: nat)
    requires Inv(c, s) && Stalled(c, s) && r < c.size
    ensures !s[r].gpu.Poll?
    decreases BarrierNo(s[r]), if s[r].gpu.Poll? then s[r].gpu.p else 0
  {
    if s[r].gpu.Poll? {
      var p := s[r].gpu.p;
      var q := RecvFrom(c.size, p, r);
      PeersInverse(c.size, p, r);
      NoAdditionFlies(c, s, q, r, p);
      assert LinkOk(c, q, r, s[q], s[r], p);
      assert !Enabled(c, s, GpuStep(r)) && !Enabled(c, s, GpuStep(q));
      assert RankOk(c, s[q]) && RankOk(c, s[r]);
      StalledAtPollOrEnd(c, s, q);
      if s[q].gpu.Poll? { NobodyPolls(c, s, q); }
    }
  }

  lemma StalledAtPollOrEnd(c: Config, s: State, r: nat)
    requires Inv(c, s) && Stalled(c, s) && r < c.size
    ensures s[r].gpu.Poll? || s[r].gpu.Finished?
  {
    assert !Enabled(c, s, GpuStep(r)) && RankOk(c, s[r]);
    match s[r].gpu
    case At(_, p) => if p < c.Phases() { IdleSlotArmed(c, s, r, SlotOf(c, s[r].epoch, p)); }
    case PutWait => IdleSlotArmed(c, s, r, SlotOf(c, s[r].epoch, c.Phases()));
    case _ =>
  }

  lemma StalledIsFinished(c: Config, s: State, r: nat)
    requires Inv(c, s) && Stalled(c, s) && r < c.size
    ensures s[r].gpu.Finished? && s[r].epoch == c.iters
    ensures |s[r].win.slots| == TotalSlots(c) && forall x | 0 <= x < TotalSlots(c) :: s[r].win.slots[x].armed
  {
    assert RankOk(c, s[r]);
    StalledAtPollOrEnd(c, s, r);
    NobodyPolls(c, s, r);
    forall x | 0 <= x < TotalSlots(c) ensures s[r].win.slots[x].armed { IdleSlotArmed(c, s, r, x); }
  }

  /** A run that cannot go on, re-queues included, has finished: every rank is through all its epochs
      and every slot is armed again. */
  lemma StuckMeansFinished(c: Config, schedule: seq<Event>, r: nat)
    requires c.Valid() && Stuck(c, Run(c, schedule)) && r < c.size
    ensures var rk := Run(c, schedule)[r];
            && rk.gpu.Finished? && rk.epoch == c.iters
            && |rk.win.slots| == TotalSlots(c) && forall x | 0 <= x < TotalSlots(c) :: rk.win.slots[x].armed
  {
    RunInv(c, schedule);
    StalledIsFinished(c, Run(c, schedule), r);
  }
}
