/** Which slot the counting barrier uses in which epoch, and how often each one fires. */
module CountingSlots {
  import opened Arithmetic
  import opened Rotation
  import opened ArmedSlots
  import opened CountingBarrier

  /** The first window uses the slots from 0 on, and two epochs share a slot exactly when they are whole
      windows apart. */
  lemma SlotsRotate(c: Config, e: nat, f: nat)
    requires c.Valid()
    ensures e < c.window ==> SlotOf(c, e) == e
    ensures SlotOf(c, e) == SlotOf(c, f) <==> (e - f) % c.window == 0
  {
    if e < c.window { DivisionUnique(e, c.window, 0, e); }
    SameRow(c.window, e, f);
  }

  /** Epochs the rank has triggered on slot x. */
  function Expected(c: Config, rk: Rank, x: nat): nat
    requires c.Valid()
  {
    Turns(c.window, Triggered(rk), x)
  }

  ghost predicate FiresOk(c: Config, rk: Rank) {
    c.Valid() && |rk.win.slots| == c.window && forall x | 0 <= x < c.window :: rk.win.slots[x].fires == Expected(c, rk, x)
  }

  lemma GpuKeepsFires(c: Config, rk: Rank)
    requires c.Valid() && RankOk(c, rk) && SlotsOk(c, rk) && GpuEnabled(c, rk) && FiresOk(c, rk)
    ensures FiresOk(c, GpuNext(c, rk))
  {
    var x := SlotOf(c, rk.epoch);
    if rk.gpu.Trigger? { assert SlotOk(rk.win.slots[x], false, rk.win.proxy == Hold(x)); }
  }

  ghost predicate AllFiresOk(c: Config, s: State) {
    |s.ranks| == c.size && forall r | 0 <= r < c.size :: FiresOk(c, s.ranks[r])
  }

  lemma StepKeepsFires(c: Config, s: State, ev: Event)
    requires Inv(c, s) && AllFiresOk(c, s) && Enabled(c, s, ev)
    ensures AllFiresOk(c, Step(c, s, ev))
  {
    assert RankOk(c, s.ranks[ev.r]) && SlotsOk(c, s.ranks[ev.r]);
    if ev.GpuStep? { GpuKeepsFires(c, s.ranks[ev.r]); }
  }

  lemma {:induction false} RunFires(c: Config, schedule: seq<Event>)
    requires c.Valid()
    ensures AllFiresOk(c, Run(c, schedule))
  {
    if schedule != [] {
      RunFires(c, schedule[..|schedule| - 1]);
      RunInv(c, schedule[..|schedule| - 1]);
      var s, ev := Run(c, schedule[..|schedule| - 1]), schedule[|schedule| - 1];
      if Enabled(c, s, ev) { StepKeepsFires(c, s, ev); }
    }
  }

  /** At every moment slot x has fired once for each triggered epoch e with e mod window = x. */
  lemma SlotFires(c: Config, schedule: seq<Event>, r: nat, x: nat)
    requires c.Valid() && r < c.size && x < c.window
    ensures |Run(c, schedule).ranks| == c.size && |Run(c, schedule).ranks[r].win.slots| == c.window
    ensures var rk := Run(c, schedule).ranks[r];
            rk.win.slots[x].fires == Triggered(rk) / c.window + if x < Triggered(rk) % c.window then 1 else 0
  {
    RunFires(c, schedule);
    TurnsClosed(c.window, Triggered(Run(c, schedule).ranks[r]), x);
  }
}
