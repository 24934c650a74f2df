/** Which slot of the window the proxied barrier uses in which epoch, and how often each one fires. */
module ProxySlots {
  import opened Arithmetic
  import opened Rotation
  import opened ArmedSlots
  import opened ProxyBarrier
  import opened ProxySafety

  // ---------------------------------------------------------------- rotation

  lemma SlotIsRowMajor(c: Config, e: nat, j: nat)
    requires c.Valid() && j < c.SlotsPerWindow()
    ensures SlotOf(c, e, j) == (e % c.window) * c.SlotsPerWindow() + j
  {
    TimesIsProduct(e % c.window, c.SlotsPerWindow());
  }

  /** Two uses share a slot exactly when they are of one phase and whole windows of epochs apart. */
  lemma SlotsRotate(c: Config, e: nat, j: nat, f: nat, i: nat)
    requires c.Valid() && j < c.SlotsPerWindow() && i < c.SlotsPerWindow()
    ensures SlotOf(c, e, j) == SlotOf(c, f, i) <==> j == i && (e - f) % c.window == 0
  {
    SlotIsRowMajor(c, e, j);
    SlotIsRowMajor(c, f, i);
    SameRow(c.window, e, f);
    RowMajor(e % c.window, c.window, c.SlotsPerWindow(), j);
    RowMajor(f % c.window, c.window, c.SlotsPerWindow(), i);
  }

  /** The epochs of the first window use the rows from 0 on, and no slot is left out. */
  lemma EverySlotIsUsed(c: Config, x: nat) returns (e: nat, j: nat)
    requires c.Valid() && x < TotalSlots(c)
    ensures e < c.window && j < c.SlotsPerWindow() && SlotOf(c, e, j) == x
    ensures x == e * c.SlotsPerWindow() + j
  {
    var m := c.SlotsPerWindow();
    e, j := x / m, x % m;
    TimesIsProduct(c.window, m);
    assert x == e * m + j;
    if e >= c.window { MulMonotone(c.window, e, m); }
    DivisionUnique(e, c.window, 0, e);
    SlotIsRowMajor(c, e, j);
  }

  // ---------------------------------------------------------------- how often a slot fires

  /** Triggers of slot j of the current row in the current epoch. */
  function InThisEpoch(c: Config, rk: Rank, j: nat): int {
    if j < c.Phases() then Triggered(rk, j) - 3 * rk.epoch else PutsTriggered(rk) - rk.epoch
  }

  /** Triggers of slot j of a row in an epoch that uses it: one a barrier, or one for the put. */
  function PerUse(c: Config, j: nat): nat { if j < c.Phases() then 3 else 1 }

  /** How often slot j of row w should have fired. */
  function Expected(c: Config, rk: Rank, w: nat, j: nat): int
    requires c.Valid()
  {
    (if j < c.Phases() then 3 * Turns(c.window, rk.epoch, w) else Turns(c.window, rk.epoch, w))
    + if rk.epoch % c.window == w then InThisEpoch(c, rk, j) else 0
  }

  function SlotAt(c: Config, w: nat, j: nat): (x: nat)
    requires c.Valid() && w < c.window && j < c.SlotsPerWindow()
    ensures x < TotalSlots(c) && x == w * c.SlotsPerWindow() + j
  {
    SlotInWindow(c, w, j);
    Times(w, c.SlotsPerWindow()) + j
  }

  ghost predicate FiresOk(c: Config, rk: Rank, w: nat, j: nat)
    requires c.Valid() && |rk.win.slots| == TotalSlots(c) && w < c.window && j < c.SlotsPerWindow()
  {
    rk.win.slots[SlotAt(c, w, j)].fires == Expected(c, rk, w, j)
  }

  /** The slot a kernel step triggers is the one of its epoch's row. */
  lemma TriggeredSlot(c: Config, rk: Rank, w: nat, j: nat)
    requires c.Valid() && RankOk(c, rk) && Triggers(rk.gpu) && w < c.window && j < c.SlotsPerWindow()
    ensures var used := if rk.gpu.Trigger? then rk.gpu.p else c.Phases();
            UsedSlot(c, rk) == SlotAt(c, w, j) <==> rk.epoch % c.window == w && j == used
  {
    var used := if rk.gpu.Trigger? then rk.gpu.p else c.Phases();
    SlotIsRowMajor(c, rk.epoch, used);
    TimesIsProduct(w, c.SlotsPerWindow());
    RowMajor(w, c.window, c.SlotsPerWindow(), j);
    RowMajor(rk.epoch % c.window, c.window, c.SlotsPerWindow(), used);
  }

  lemma CountsInEpoch(c: Config, r: nat, rk: Rank, j: nat)
    requires c.Valid() && r < c.size && RankOk(c, rk) && GpuEnabled(c, rk) && j < c.SlotsPerWindow()
    ensures var rk' := GpuNext(c, r, rk);
            if rk'.epoch == rk.epoch then
              InThisEpoch(c, rk', j) == InThisEpoch(c, rk, j) +
                if Triggers(rk.gpu) && j == (if rk.gpu.Trigger? then rk.gpu.p else c.Phases()) then 1 else 0
            else !Triggers(rk.gpu) && rk'.epoch == rk.epoch + 1 && InThisEpoch(c, rk, j) == PerUse(c, j)
                 && InThisEpoch(c, rk', j) == 0
  {
  }

  /** The kernel step triggers slot j of row w. */
  predicate Hits(c: Config, rk: Rank, w: nat, j: nat) {
    Triggers(rk.gpu) && c.window >= 1 && rk.epoch % c.window == w && j == if rk.gpu.Trigger? then rk.gpu.p else c.Phases()
  }

  lemma ExpectedGrows(c: Config, r: nat, rk: Rank, w: nat, j: nat)
    requires c.Valid() && r < c.size && RankOk(c, rk) && GpuEnabled(c, rk) && w < c.window && j < c.SlotsPerWindow()
    ensures Expected(c, GpuNext(c, r, rk), w, j) == Expected(c, rk, w, j) + if Hits(c, rk, w, j) then 1 else 0
  {
    CountsInEpoch(c, r, rk, j);
  }

  lemma FiresGrow(c: Config, r: nat, rk: Rank, w: nat, j: nat)
    requires c.Valid() && r < c.size && RankOk(c, rk) && GpuEnabled(c, rk) && w < c.window && j < c.SlotsPerWindow()
    ensures var win := GpuNext(c, r, rk).win;
            && |win.slots| == TotalSlots(c)
            && win.slots[SlotAt(c, w, j)].fires ==
                 rk.win.slots[SlotAt(c, w, j)].fires + if Hits(c, rk, w, j) then 1 else 0
  {
    GpuWindow(c, r, rk);
    if Triggers(rk.gpu) {
      TriggeredSlot(c, rk, w, j);
      assert SlotOk(rk.win.slots[UsedSlot(c, rk)], false, rk.win.proxy == Hold(UsedSlot(c, rk)));
    }
  }

  ghost predicate AllFiresOk(c: Config, s: State) {
    && Shape(c, s)
    && forall r, w, j | 0 <= r < c.size && 0 <= w < c.window && 0 <= j < c.SlotsPerWindow() :: FiresOk(c, s[r], w, j)
  }

  lemma StepKeepsFires(c: Config, s: State, ev: Event)
    requires Inv(c, s) && AllFiresOk(c, s) && Enabled(c, s, ev)
    ensures AllFiresOk(c, Step(c, s, ev))
  {
    var s' := Step(c, s, ev);
    StepKeepsInv(c, s, ev);
    forall r, w, j | 0 <= r < c.size && 0 <= w < c.window && 0 <= j < c.SlotsPerWindow() ensures FiresOk(c, s'[r], w, j) {
      assert FiresOk(c, s[r], w, j) && RankOk(c, s[r]);
      if ev == GpuStep(r) {
        ExpectedGrows(c, r, s[r], w, j);
        FiresGrow(c, r, s[r], w, j);
      } else {
        OthersFireNothing(c, s, ev, r, SlotAt(c, w, j));
        assert Expected(c, s'[r], w, j) == Expected(c, s[r], w, j);
      }
    }
  }

  lemma OthersFireNothing(c: Config, s: State, ev: Event, r: nat, x: nat)
    requires Inv(c, s) && Enabled(c, s, ev) && ev != GpuStep(r) && r < c.size && x < TotalSlots(c)
    ensures |Step(c, s, ev)| == c.size
    ensures var rk, rk' := s[r], Step(c, s, ev)[r];
            && rk'.gpu == rk.gpu && rk'.epoch == rk.epoch
            && |rk'.win.slots| == TotalSlots(c) && rk'.win.slots[x].fires == rk.win.slots[x].fires
  {
    if ev.Deliver? { assert Fits(c, s[ev.t]); }
  }

  lemma {:induction false} RunFires(c: Config, schedule: seq<Event>)
    requires c.Valid()
    ensures AllFiresOk(c, Run(c, schedule))
  {
    RunInv(c, schedule);
    if schedule == [] {
      forall r, w, j | 0 <= r < c.size && 0 <= w < c.window && 0 <= j < c.SlotsPerWindow()
        ensures FiresOk(c, Init(c)[r], w, j)
      {
        assert Init(c)[r].win.slots[SlotAt(c, w, j)] == FRESH;
      }
    } else {
      RunFires(c, schedule[..|schedule| - 1]);
      RunInv(c, schedule[..|schedule| - 1]);
      var s, ev := Run(c, schedule[..|schedule| - 1]), schedule[|schedule| - 1];
      if Enabled(c, s, ev) { StepKeepsFires(c, s, ev); }
    }
  }

  /** Every epoch uses the slots of its row and no others: at the end the slots of row w have fired once
      a barrier, or once for the put, in each of the epochs e with e mod window = w. */
  lemma SlotFires(c: Config, schedule: seq<Event>, r: nat, w: nat, j: nat)
    requires c.Valid() && r < c.size && w < c.window && j < c.SlotsPerWindow()
    requires |Run(c, schedule)| == c.size && Run(c, schedule)[r].gpu.Finished?
    ensures var slots, x := Run(c, schedule)[r].win.slots, w * c.SlotsPerWindow() + j;
            x < |slots| && slots[x].fires == PerUse(c, j) * (c.iters / c.window + if w < c.iters % c.window then 1 else 0)
  {
    RunFires(c, schedule);
    RunInv(c, schedule);
    var rk := Run(c, schedule)[r];
    assert RankOk(c, rk) && FiresOk(c, rk, w, j);
    TurnsClosed(c.window, c.iters, w);
  }
}
