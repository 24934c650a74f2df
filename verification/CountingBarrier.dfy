/** The all-to-all counting barrier: in every epoch each rank adds one to the arrival counter of
    every other rank and waits until its own counter has reached (epoch + 1) * (size - 1).
    Arrivals are only summed, so a rank cannot see who has arrived. */
module CountingBarrier {
  import opened ArmedSlots
  import opened Arithmetic
  import A = AbstractBarrier

  datatype Config = Config(size: nat, window: nat, iters: nat) {
    predicate Valid() { size >= 2 && window >= 1 }
  }

  datatype Gpu = At | Trigger | Poll | Mark | Finished

  datatype Rank = Rank(gpu: Gpu, epoch: nat, win: Window, arrive: nat)

  /** `flying[t]`: additions fired towards rank t and not yet delivered. */
  datatype State = State(ranks: seq<Rank>, flying: seq<nat>)

  datatype Event = GpuStep(r: nat) | ProxyStep(r: nat, x: nat, ok: bool) | Deliver(r: nat)

  // ---------------------------------------------------------------- work of one slot

  /** The targets of the additions queued for a slot: every rank but the own one. */
  function Peers(size: nat, rank: nat): seq<nat> {
    if size == 0 then []
    else if size - 1 == rank then Peers(size - 1, rank)
    else Peers(size - 1, rank) + [size - 1]
  }

  /** Every rank but the own one, each once. */
  ghost predicate AllOthers(targets: seq<nat>, size: nat, rank: nat) {
    && (forall t: nat :: t in targets <==> t < size && t != rank)
    && forall i, j | 0 <= i < j < |targets| :: targets[i] != targets[j]
  }

  lemma {:induction false} PeersAreAllOthers(size: nat, rank: nat)
    ensures AllOthers(Peers(size, rank), size, rank)
  {
    if size > 0 {
      PeersAreAllOthers(size - 1, rank);
      var fewer := Peers(size - 1, rank);
      forall t: nat ensures t in Peers(size, rank) <==> t < size && t != rank {
        assert t in fewer <==> t < size - 1 && t != rank;
      }
      if size - 1 != rank { assert size - 1 !in fewer; }
    }
  }

  /** The queueing loop of a slot. */
  method QueueSlotWork(size: nat, rank: nat) returns (targets: seq<nat>)
    ensures AllOthers(targets, size, rank) && targets == Peers(size, rank)
  {
    PeersAreAllOthers(size, rank);
    targets := [];
    for r := 0 to size
      invariant targets == Peers(r, rank)
    {
      if r == rank { continue; }
      targets := targets + [r];
    }
  }

  /** Firing queued additions puts one in flight for each target. */
  function FireAll(flying: seq<nat>, targets: seq<nat>): (f: seq<nat>)
    ensures |f| == |flying|
  {
    if targets == [] then flying
    else
      var t := targets[|targets| - 1];
      var f := FireAll(flying, targets[..|targets| - 1]);
      if t < |f| then f[t := f[t] + 1] else f
  }

  lemma {:induction false} FiringReachesPeers(flying: seq<nat>, size: nat, rank: nat, t: nat)
    requires t < |flying| && size <= |flying|
    ensures FireAll(flying, Peers(size, rank))[t] == flying[t] + if t < size && t != rank then 1 else 0
  {
    if size > 0 {
      FiringReachesPeers(flying, size - 1, rank, t);
      if size - 1 != rank {
        var p := Peers(size, rank);
        assert p[..|p| - 1] == Peers(size - 1, rank);
        FiringReachesPeers(flying, size - 1, rank, size - 1);
      }
    }
  }

  // ---------------------------------------------------------------- actions

  function SlotOf(c: Config, epoch: nat): (x: nat)
    requires c.Valid()
    ensures x < c.window
  {
    epoch % c.window
  }

  ghost predicate Shape(c: Config, s: State) {
    && c.Valid() && |s.ranks| == |s.flying| == c.size
    && forall r | 0 <= r < c.size :: |s.ranks[r].win.slots| == c.window
  }

  predicate GpuEnabled(c: Config, rk: Rank)
    requires c.Valid() && |rk.win.slots| == c.window
  {
    match rk.gpu
    case At => rk.win.slots[SlotOf(c, rk.epoch)].armed
    case Trigger => true
    case Poll => rk.arrive >= Times(c.size - 1, rk.epoch + 1)
    case Mark => true
    case Finished => false
  }

  function GpuNext(c: Config, rk: Rank): Rank
    requires c.Valid() && |rk.win.slots| == c.window
  {
    var x := SlotOf(c, rk.epoch);
    match rk.gpu
    case At => rk.(gpu := Trigger)
    case Trigger => rk.(win := FireAt(rk.win, x), gpu := Poll)
    case Poll => rk.(gpu := Mark)
    case Mark =>
      rk.(win := ReleaseAt(rk.win, x), epoch := rk.epoch + 1,
          gpu := if rk.epoch + 1 < c.iters then At else Finished)
    case Finished => rk
  }

  ghost predicate Enabled(c: Config, s: State, ev: Event)
    requires Shape(c, s)
  {
    ev.r < c.size &&
    match ev
    case GpuStep(r) => GpuEnabled(c, s.ranks[r])
    case ProxyStep(r, x, _) => ProxyEnabled(s.ranks[r].win, x)
    case Deliver(r) => s.flying[r] > 0
  }

  ghost function Step(c: Config, s: State, ev: Event): State
    requires Shape(c, s) && Enabled(c, s, ev)
  {
    match ev
    case GpuStep(r) =>
      var rk := s.ranks[r];
      State(s.ranks[r := GpuNext(c, rk)],
            if rk.gpu.Trigger? && rk.win.slots[SlotOf(c, rk.epoch)].queued
            then FireAll(s.flying, Peers(c.size, r)) else s.flying)
    case ProxyStep(r, x, ok) =>
      s.(ranks := s.ranks[r := s.ranks[r].(win := ProxyNext(s.ranks[r].win, x, ok))])
    case Deliver(r) =>
      State(s.ranks[r := s.ranks[r].(arrive := s.ranks[r].arrive + 1)], s.flying[r := s.flying[r] - 1])
  }

  ghost function Init(c: Config): State {
    State(seq(c.size, r => Rank(if c.iters > 0 then At else Finished, 0, InitWindow(c.window), 0)),
          seq(c.size, r => 0))
  }

  // ---------------------------------------------------------------- invariant

  /** Epochs a rank has triggered. */
  function Triggered(rk: Rank): nat {
    if rk.gpu.Poll? || rk.gpu.Mark? then rk.epoch + 1 else rk.epoch
  }

  /** Epochs whose arrivals a rank has seen complete. */
  function Passed(rk: Rank): nat {
    if rk.gpu.Mark? then rk.epoch + 1 else rk.epoch
  }

  function SumTriggered(ranks: seq<Rank>): nat {
    if ranks == [] then 0 else SumTriggered(ranks[..|ranks| - 1]) + Triggered(ranks[|ranks| - 1])
  }

  predicate RankOk(c: Config, rk: Rank)
    requires c.Valid()
  {
    && |rk.win.slots| == c.window
    && (if rk.gpu.Finished? then rk.epoch == c.iters else rk.epoch < c.iters)
    && (rk.gpu.Trigger? ==> rk.win.slots[SlotOf(c, rk.epoch)].armed)
    && rk.arrive >= Times(c.size - 1, Passed(rk))
    && SumFires(rk.win.slots) == Triggered(rk)
  }

  ghost predicate SlotsOk(c: Config, rk: Rank)
    requires c.Valid()
  {
    WindowOk(rk.win, if rk.gpu.Poll? || rk.gpu.Mark? then SlotOf(c, rk.epoch) else -1)
  }

  ghost predicate RanksOk(c: Config, s: State)
    requires Shape(c, s)
  {
    forall r | 0 <= r < c.size :: RankOk(c, s.ranks[r]) && SlotsOk(c, s.ranks[r])
  }

  /** Arrivals counted and in flight make up what the other ranks have triggered. */
  ghost predicate SumsOk(c: Config, s: State)
    requires Shape(c, s)
  {
    forall r | 0 <= r < c.size ::
      s.ranks[r].arrive + s.flying[r] == SumTriggered(s.ranks) - Triggered(s.ranks[r])
  }

  ghost predicate NobodyEarly(c: Config, s: State)
    requires Shape(c, s)
  {
    forall r, q | 0 <= r < c.size && 0 <= q < c.size :: Passed(s.ranks[r]) <= Triggered(s.ranks[q])
  }

  ghost predicate Inv(c: Config, s: State) {
    Shape(c, s) && RanksOk(c, s) && SumsOk(c, s) && NobodyEarly(c, s)
  }

  lemma {:induction false} SumUpdate(ranks: seq<Rank>, r: nat, rk: Rank)
    requires r < |ranks|
    ensures SumTriggered(ranks[r := rk]) == SumTriggered(ranks) - Triggered(ranks[r]) + Triggered(rk)
  {
    var m := |ranks| - 1;
    if r == m {
      assert ranks[r := rk][..m] == ranks[..m];
    } else {
      assert ranks[r := rk][..m] == ranks[..m][r := rk];
      SumUpdate(ranks[..m], r, rk);
    }
  }

  /** A sum of terms none of which exceeds `top` falls short of |ranks| * top by at least what any
      one term falls short of `top`. */
  lemma {:induction false} SumShortfall(ranks: seq<Rank>, top: nat, q: nat)
    requires forall r | 0 <= r < |ranks| :: Triggered(ranks[r]) <= top
    ensures SumTriggered(ranks) <= Times(|ranks|, top)
    ensures q < |ranks| ==> SumTriggered(ranks) + (top - Triggered(ranks[q])) <= Times(|ranks|, top)
  {
    if ranks != [] {
      SumShortfall(ranks[..|ranks| - 1], top, q);
    }
  }

  lemma {:induction false} SumOfEqual(ranks: seq<Rank>, top: nat)
    requires forall r | 0 <= r < |ranks| :: Triggered(ranks[r]) == top
    ensures SumTriggered(ranks) == Times(|ranks|, top)
  {
    if ranks != [] {
      SumOfEqual(ranks[..|ranks| - 1], top);
    }
  }

  /** The first rank to leave an epoch can do so only when all have triggered it; later ones
      follow. So the sum alone tells a rank that everyone has arrived. */
  lemma CountMeansEveryone(c: Config, s: State, r: nat)
    requires Inv(c, s) && r < c.size && s.ranks[r].gpu.Poll? && GpuEnabled(c, s.ranks[r])
    ensures forall q | 0 <= q < c.size :: Triggered(s.ranks[q]) >= s.ranks[r].epoch + 1
  {
    var top := s.ranks[r].epoch + 1;
    if forall p | 0 <= p < c.size :: Passed(s.ranks[p]) < top {
      forall q | 0 <= q < c.size ensures Triggered(s.ranks[q]) >= top {
        forall p | 0 <= p < c.size ensures Triggered(s.ranks[p]) <= top {
          assert Passed(s.ranks[p]) < top;
        }
        SumShortfall(s.ranks, top, q);
      }
    }
  }

  // ---------------------------------------------------------------- every action keeps it

  lemma InitInv(c: Config)
    requires c.Valid()
    ensures Inv(c, Init(c))
  {
    InitWindowOk(c.window);
    SumOfFresh(c.window);
    SumOfEqual(Init(c).ranks, 0);
    TimesIsProduct(c.size, 0);
    TimesIsProduct(c.size - 1, 0);
  }

  lemma GpuKeepsRank(c: Config, rk: Rank)
    requires c.Valid() && RankOk(c, rk) && SlotsOk(c, rk) && GpuEnabled(c, rk)
    ensures RankOk(c, GpuNext(c, rk)) && SlotsOk(c, GpuNext(c, rk))
    ensures rk.gpu.Trigger? ==> rk.win.slots[SlotOf(c, rk.epoch)].queued
    ensures GpuNext(c, rk).arrive == rk.arrive
    ensures Triggered(GpuNext(c, rk)) == Triggered(rk) + if rk.gpu.Trigger? then 1 else 0
    ensures Passed(GpuNext(c, rk)) == Passed(rk) + if rk.gpu.Poll? then 1 else 0
  {
    match rk.gpu
    case Trigger => FireKeepsWindow(rk.win, SlotOf(c, rk.epoch));
    case Mark => ReleaseKeepsWindow(rk.win, SlotOf(c, rk.epoch));
    case _ =>
  }

  /** The counts after a step of rank r. */
  lemma SumsAfter(c: Config, s: State, s': State, r: nat)
    requires Shape(c, s) && SumsOk(c, s) && NobodyEarly(c, s) && Shape(c, s') && r < c.size
    requires forall q | 0 <= q < c.size && q != r :: s'.ranks[q] == s.ranks[q]
    requires var fired := Triggered(s'.ranks[r]) - Triggered(s.ranks[r]);
             && fired >= 0
             && forall q | 0 <= q < c.size ::
                  s'.ranks[q].arrive + s'.flying[q] == s.ranks[q].arrive + s.flying[q] + if q == r then 0 else fired
    requires forall q | 0 <= q < c.size :: Passed(s'.ranks[r]) <= Triggered(s'.ranks[q])
    ensures SumsOk(c, s') && NobodyEarly(c, s')
  {
    assert s'.ranks == s.ranks[r := s'.ranks[r]];
    SumUpdate(s.ranks, r, s'.ranks[r]);
  }

  lemma GpuKeepsInv(c: Config, s: State, r: nat)
    requires Inv(c, s) && r < c.size && GpuEnabled(c, s.ranks[r])
    ensures Inv(c, Step(c, s, GpuStep(r)))
  {
    var s' := Step(c, s, GpuStep(r));
    GpuKeepsRank(c, s.ranks[r]);
    forall q | 0 <= q < c.size
      ensures Passed(s'.ranks[r]) <= Triggered(s'.ranks[q])
      ensures s'.ranks[q].arrive + s'.flying[q] == s.ranks[q].arrive + s.flying[q]
                + if q == r then 0 else Triggered(s'.ranks[r]) - Triggered(s.ranks[r])
    {
      if s.ranks[r].gpu.Poll? { CountMeansEveryone(c, s, r); }
      FiringReachesPeers(s.flying, c.size, r, q);
      assert Passed(s.ranks[r]) <= Triggered(s.ranks[q]);
    }
    SumsAfter(c, s, s', r);
  }

  lemma ProxyKeepsRank(c: Config, rk: Rank, x: nat, ok: bool)
    requires c.Valid() && RankOk(c, rk) && SlotsOk(c, rk) && ProxyEnabled(rk.win, x)
    ensures var rk' := rk.(win := ProxyNext(rk.win, x, ok));
            RankOk(c, rk') && SlotsOk(c, rk')
  {
    ProxyKeepsWindow(rk.win, if rk.gpu.Poll? || rk.gpu.Mark? then SlotOf(c, rk.epoch) else -1, x, ok);
  }

  lemma ProxyKeepsInv(c: Config, s: State, r: nat, x: nat, ok: bool)
    requires Inv(c, s) && r < c.size && ProxyEnabled(s.ranks[r].win, x)
    ensures Inv(c, Step(c, s, ProxyStep(r, x, ok)))
  {
    var s' := Step(c, s, ProxyStep(r, x, ok));
    ProxyKeepsRank(c, s.ranks[r], x, ok);
    forall q | 0 <= q < c.size ensures Passed(s'.ranks[r]) <= Triggered(s'.ranks[q]) {
      assert Passed(s.ranks[r]) <= Triggered(s.ranks[q]);
    }
    SumsAfter(c, s, s', r);
  }

  lemma DeliverKeepsInv(c: Config, s: State, r: nat)
    requires Inv(c, s) && r < c.size && s.flying[r] > 0
    ensures Inv(c, Step(c, s, Deliver(r)))
  {
    var s' := Step(c, s, Deliver(r));
    assert RankOk(c, s.ranks[r]) && SlotsOk(c, s.ranks[r]);
    forall q | 0 <= q < c.size ensures Passed(s'.ranks[r]) <= Triggered(s'.ranks[q]) {
      assert Passed(s.ranks[r]) <= Triggered(s.ranks[q]);
    }
    SumsAfter(c, s, s', r);
  }

  lemma StepKeepsInv(c: Config, s: State, ev: Event)
    requires Inv(c, s) && Enabled(c, s, ev)
    ensures Inv(c, Step(c, s, ev))
  {
    match ev
    case GpuStep(r) => GpuKeepsInv(c, s, r);
    case ProxyStep(r, x, ok) => ProxyKeepsInv(c, s, r, x, ok);
    case Deliver(r) => DeliverKeepsInv(c, s, r);
  }

  // ---------------------------------------------------------------- schedules

  ghost function Next(c: Config, s: State, ev: Event): State {
    if Shape(c, s) && Enabled(c, s, ev) then Step(c, s, ev) else s
  }

  ghost function Run(c: Config, schedule: seq<Event>): State {
    if schedule == [] then Init(c) else Next(c, Run(c, schedule[..|schedule| - 1]), schedule[|schedule| - 1])
  }

  lemma {:induction false} RunInv(c: Config, schedule: seq<Event>)
    requires c.Valid()
    ensures Inv(c, Run(c, schedule))
  {
    if schedule == [] {
      InitInv(c);
    } else {
      RunInv(c, schedule[..|schedule| - 1]);
      var s, ev := Run(c, schedule[..|schedule| - 1]), schedule[|schedule| - 1];
      if Enabled(c, s, ev) { StepKeepsInv(c, s, ev); }
    }
  }

  /** If any rank has passed an epoch then every rank has triggered it. */
  lemma CountingIsSafe(c: Config, schedule: seq<Event>, r: nat, q: nat)
    requires c.Valid() && r < c.size && q < c.size
    ensures var s := Run(c, schedule);
            |s.ranks| == c.size && Passed(s.ranks[r]) <= Triggered(s.ranks[q])
  {
    RunInv(c, schedule);
  }

  /** The counter a rank reports at the end of its kernel is exactly iters * (size - 1), and no
      addition towards it is left in flight. */
  lemma FinalArriveExact(c: Config, schedule: seq<Event>, r: nat)
    requires c.Valid() && r < c.size
    ensures var s := Run(c, schedule);
            |s.ranks| == |s.flying| == c.size &&
            (s.ranks[r].gpu.Finished? ==> s.ranks[r].arrive == c.iters * (c.size - 1) && s.flying[r] == 0)
  {
    RunInv(c, schedule);
    var s := Run(c, schedule);
    if s.ranks[r].gpu.Finished? { AllTriggeredAll(c, s, r); }
  }

  lemma AllTriggeredAll(c: Config, s: State, r: nat)
    requires Inv(c, s) && r < c.size && s.ranks[r].gpu.Finished?
    ensures s.ranks[r].arrive == c.iters * (c.size - 1) && s.flying[r] == 0
  {
    forall q | 0 <= q < c.size ensures Triggered(s.ranks[q]) == c.iters {
      FinishedCounts(c, s.ranks[r]);
      TriggeredBounded(c, s.ranks[q]);
      assert Passed(s.ranks[r]) <= Triggered(s.ranks[q]);
    }
    SumOfEqual(s.ranks, c.iters);
    FinishedCounts(c, s.ranks[r]);
    assert Times(c.size, c.iters) == Times(c.size - 1, c.iters) + c.iters;
  }

  lemma TriggeredBounded(c: Config, rk: Rank)
    requires c.Valid() && RankOk(c, rk)
    ensures Triggered(rk) <= c.iters
  {
  }

  lemma FinishedCounts(c: Config, rk: Rank)
    requires c.Valid() && RankOk(c, rk) && rk.gpu.Finished?
    ensures Passed(rk) == Triggered(rk) == c.iters
    ensures rk.arrive >= Times(c.size - 1, c.iters) == c.iters * (c.size - 1)
  {
    TimesIsProduct(c.size - 1, c.iters);
  }

  /** Between epochs, with every slot armed, the proxy has re-armed window + epochs times. */
  lemma RearmsCounted(c: Config, schedule: seq<Event>, r: nat)
    requires c.Valid() && r < c.size
    ensures var s := Run(c, schedule);
            |s.ranks| == c.size &&
            var rk := s.ranks[r];
            (rk.gpu.At? || rk.gpu.Trigger? || rk.gpu.Finished?)
            && (forall x | 0 <= x < |rk.win.slots| :: rk.win.slots[x].armed)
            ==> rk.win.totalRearms == c.window + rk.epoch
  {
    RunInv(c, schedule);
    var rk := Run(c, schedule).ranks[r];
    assert RankOk(c, rk) && SlotsOk(c, rk);
    if !rk.gpu.Poll? && !rk.gpu.Mark? && forall x | 0 <= x < |rk.win.slots| :: rk.win.slots[x].armed {
      TotalRearms(rk.win);
    }
  }

  // ---------------------------------------------------------------- refinement

  ghost function Abs(c: Config, s: State): A.Barrier
    requires Shape(c, s)
  {
    A.Barrier(seq(c.size, r requires 0 <= r < c.size => Triggered(s.ranks[r])),
              seq(c.size, r requires 0 <= r < c.size => Passed(s.ranks[r])))
  }

  /** What a kernel step does to the counts of entered and left epochs. */
  lemma GpuAbs(c: Config, s: State, r: nat)
    requires Inv(c, s) && r < c.size && GpuEnabled(c, s.ranks[r]) && Shape(c, Step(c, s, GpuStep(r)))
    ensures var b, b', pc := Abs(c, s), Abs(c, Step(c, s, GpuStep(r))), s.ranks[r].gpu;
            if pc.Trigger? then b' == b.(entered := b.entered[r := b.entered[r] + 1])
            else if pc.Poll? then b' == b.(left := b.left[r := b.left[r] + 1])
            else b' == b
  {
    assert RankOk(c, s.ranks[r]) && SlotsOk(c, s.ranks[r]);
    GpuKeepsRank(c, s.ranks[r]);
    var s' := Step(c, s, GpuStep(r));
    assert s'.ranks[r] == GpuNext(c, s.ranks[r]);
    assert forall q | 0 <= q < c.size && q != r :: s'.ranks[q] == s.ranks[q];
  }

  lemma GpuRefines(c: Config, s: State, r: nat)
    requires Inv(c, s) && r < c.size && GpuEnabled(c, s.ranks[r]) && Shape(c, Step(c, s, GpuStep(r)))
    ensures A.Move(c.size, Abs(c, s), Abs(c, Step(c, s, GpuStep(r))), r)
  {
    GpuAbs(c, s, r);
    assert RankOk(c, s.ranks[r]) && SlotsOk(c, s.ranks[r]);
    if s.ranks[r].gpu.Poll? { CountMeansEveryone(c, s, r); }
  }

  /** Triggering is entering, passing the count is leaving. */
  lemma StepRefines(c: Config, s: State, ev: Event)
    requires Inv(c, s) && Enabled(c, s, ev)
    ensures Inv(c, Step(c, s, ev))
    ensures A.Move(c.size, Abs(c, s), Abs(c, Step(c, s, ev)), ev.r)
  {
    StepKeepsInv(c, s, ev);
    if ev.GpuStep? {
      GpuRefines(c, s, ev.r);
    } else {
      OthersAreInvisible(c, s, ev);
    }
  }

  lemma OthersAreInvisible(c: Config, s: State, ev: Event)
    requires Shape(c, s) && Enabled(c, s, ev) && !ev.GpuStep? && Shape(c, Step(c, s, ev))
    ensures Abs(c, Step(c, s, ev)) == Abs(c, s)
  {
    var s' := Step(c, s, ev);
    assert forall r | 0 <= r < c.size ::
        Triggered(s'.ranks[r]) == Triggered(s.ranks[r]) && Passed(s'.ranks[r]) == Passed(s.ranks[r]);
  }
}
