/** How much work a run of the proxied barrier can do: every step that is not a spin and not a refused
    re-queue uses up some of a fixed amount. */
module ProxyWork {
  import opened Arithmetic
  import opened Sums
  import Dissemination
  import opened ArmedSlots
  import opened SlotWork
  import opened ProxyBarrier
  import P = ProxyProgress

  // ---------------------------------------------------------------- what is left to do

  /** Kernel steps of an epoch, with the network actions on what they send and the proxy actions on the
      slots they hand back. */
  function PerEpoch(c: Config): nat { 21 * c.Phases() + 12 }

  /** What is left of an epoch from the end of its b-th barrier on. */
  function After(c: Config, b: nat): int {
    if b == 0 then 14 * c.Phases() + 12 else if b == 1 then 7 * c.Phases() + 3 else 1
  }

  /** What is left from program counter g to the end of the epoch. */
  function Ahead(c: Config, g: Gpu): int {
    var n := c.Phases();
    match g
    case At(b, p) => 7 * (n - p) + After(c, b)
    case Trigger(b, p) => 7 * (n - p) - 1 + After(c, b)
    case Poll(b, p) => 7 * (n - p) - 3 + After(c, b)
    case Mark(b, p) => 7 * (n - p) - 4 + After(c, b)
    case WriteSource => 14 * n + 11
    case PutWait => 14 * n + 10
    case PutTrigger => 14 * n + 9
    case PutMark => 14 * n + 6
    case Verify => 7 * n + 2
    case Finished => 0
  }

  function KernelLeft(c: Config, rk: Rank): int {
    if rk.gpu.Finished? then 0 else Times(c.iters - rk.epoch - 1, PerEpoch(c)) + Ahead(c, rk.gpu)
  }

  /** Network actions until the message has been received. */
  function MsgLeft(msg: Msg): int { if msg.Put? then 2 else 1 }

  ghost function MsgsLeft(out: seq<Msg>): (xs: seq<int>)
    ensures |xs| == |out| && forall i | 0 <= i < |xs| :: xs[i] == MsgLeft(out[i])
  {
    seq(|out|, i requires 0 <= i < |out| => MsgLeft(out[i]))
  }

  ghost function ChannelsLeft(out: seq<seq<Msg>>): (xs: seq<int>)
    ensures |xs| == |out| && forall t | 0 <= t < |xs| :: xs[t] == Sum(MsgsLeft(out[t]))
  {
    seq(|out|, t requires 0 <= t < |out| => Sum(MsgsLeft(out[t])))
  }

  /** With the network's share of what has been sent and the proxy's of the slots handed back. */
  ghost function RankLeft(c: Config, rk: Rank): int {
    KernelLeft(c, rk) + Sum(SlotsLeft(rk.win)) + Sum(ChannelsLeft(rk.out))
  }

  ghost function RanksLeft(c: Config, s: State): (xs: seq<int>)
    ensures |xs| == |s| && forall r | 0 <= r < |s| :: xs[r] == RankLeft(c, s[r])
  {
    seq(|s|, r requires 0 <= r < |s| => RankLeft(c, s[r]))
  }

  // ---------------------------------------------------------------- parts

  /** What a kernel step leaves to the network and to the proxy. */
  function Leaves(g: Gpu): int { if g.PutTrigger? || Releases(g) then 2 else if g.Trigger? then 1 else 0 }

  lemma KernelDrops(c: Config, r: nat, rk: Rank)
    requires c.Valid() && r < c.size && RankOk(c, rk) && GpuEnabled(c, rk)
    ensures KernelLeft(c, GpuNext(c, r, rk)) == KernelLeft(c, rk) - 1 - Leaves(rk.gpu)
  {
  }

  lemma ChannelChange(out: seq<seq<Msg>>, t: nat, msgs: seq<Msg>)
    requires t < |out|
    ensures Sum(ChannelsLeft(out[t := msgs])) == Sum(ChannelsLeft(out)) - Sum(MsgsLeft(out[t])) + Sum(MsgsLeft(msgs))
  {
    SumOfUpdate(ChannelsLeft(out), t, Sum(MsgsLeft(msgs)));
    assert ChannelsLeft(out[t := msgs]) == ChannelsLeft(out)[t := Sum(MsgsLeft(msgs))];
  }

  lemma PostCosts(out: seq<seq<Msg>>, t: nat, msg: Msg)
    requires t < |out|
    ensures Sum(ChannelsLeft(Posted(out, t, msg))) == Sum(ChannelsLeft(out)) + MsgLeft(msg)
  {
    ChannelChange(out, t, out[t] + [msg]);
    SumAppend(MsgsLeft(out[t]), MsgLeft(msg));
    assert MsgsLeft(out[t] + [msg]) == MsgsLeft(out[t]) + [MsgLeft(msg)];
  }

  lemma TakeDrops(out: seq<seq<Msg>>, t: nat, i: nat)
    requires t < |out| && i < |out[t]| && !out[t][i].Put?
    ensures Sum(ChannelsLeft(out[t := Without(out[t], i)])) == Sum(ChannelsLeft(out)) - 1
  {
    ChannelChange(out, t, Without(out[t], i));
    SumRemove(MsgsLeft(out[t]), i);
    assert MsgsLeft(Without(out[t], i)) == MsgsLeft(out[t])[..i] + MsgsLeft(out[t])[i + 1..];
  }

  lemma ReadDrops(out: seq<seq<Msg>>, t: nat, i: nat, v: Value)
    requires t < |out| && i < |out[t]| && out[t][i].Put?
    ensures Sum(ChannelsLeft(out[t := out[t][i := PutRead(v)]])) == Sum(ChannelsLeft(out)) - 1
  {
    ChannelChange(out, t, out[t][i := PutRead(v)]);
    SumOfUpdate(MsgsLeft(out[t]), i, 1);
    assert MsgsLeft(out[t][i := PutRead(v)]) == MsgsLeft(out[t])[i := 1];
  }

  // ---------------------------------------------------------------- every step

  /** The proxy's attempt to queue work was refused. */
  predicate Refused(s: State, ev: Event) {
    ev.ProxyStep? && !ev.ok && ev.r < |s| && s[ev.r].win.proxy.Scan?
  }

  lemma GpuDrops(c: Config, r: nat, rk: Rank)
    requires c.Valid() && r < c.size && RankOk(c, rk) && GpuEnabled(c, rk)
    ensures RankLeft(c, GpuNext(c, r, rk)) == RankLeft(c, rk) - 1
  {
    KernelDrops(c, r, rk);
    GpuWindow(c, r, rk);
    GpuSends(c, r, rk);
    if Triggers(rk.gpu) { FireLeavesArmed(rk.win, UsedSlot(c, rk)); }
    if Releases(rk.gpu) {
      var x := UsedSlot(c, rk);
      assert SlotOk(rk.win.slots[x], true, rk.win.proxy == Hold(x));
      ReleaseCosts(rk.win, x);
    }
    if rk.gpu.Trigger? { PostCosts(rk.out, Dissemination.SendTo(c.size, rk.gpu.p, r), Add(rk.gpu.p)); }
    if rk.gpu.PutTrigger? {
      PutTargetIsPhaseZero(c, r);
      PostCosts(rk.out, Dissemination.SendTo(c.size, 0, r), Put);
    }
  }

  /** The rank whose share of the work a step uses up. */
  lemma RankDrops(c: Config, s: State, r: nat, rk': Rank)
    requires r < |s| && RankLeft(c, rk') == RankLeft(c, s[r]) - 1
    ensures Sum(RanksLeft(c, s[r := rk'])) == Sum(RanksLeft(c, s)) - 1
  {
    SumOfUpdate(RanksLeft(c, s), r, RankLeft(c, rk'));
    assert RanksLeft(c, s[r := rk']) == RanksLeft(c, s)[r := RankLeft(c, rk')];
  }

  lemma LandIsFree(c: Config, s: State, t: nat, rk: Rank, msg: Msg)
    requires t < |s| && s[t] == rk && Fits(c, rk) && !msg.Put? && (msg.Add? ==> msg.phase < c.Phases())
    ensures Sum(RanksLeft(c, s[t := Land(c, rk, msg)])) == Sum(RanksLeft(c, s))
  {
    var rk' := Land(c, rk, msg);
    assert rk'.win == rk.win && rk'.out == rk.out && KernelLeft(c, rk') == KernelLeft(c, rk);
    assert RanksLeft(c, s[t := rk']) == RanksLeft(c, s);
  }

  lemma GpuStepDrops(c: Config, s: State, r: nat)
    requires Inv(c, s) && Enabled(c, s, GpuStep(r))
    ensures Sum(RanksLeft(c, Step(c, s, GpuStep(r)))) == Sum(RanksLeft(c, s)) - 1
  {
    assert RankOk(c, s[r]);
    GpuDrops(c, r, s[r]);
    RankDrops(c, s, r, GpuNext(c, r, s[r]));
  }

  lemma ProxyStepDrops(c: Config, s: State, r: nat, x: nat, ok: bool)
    requires Inv(c, s) && Enabled(c, s, ProxyStep(r, x, ok)) && (s[r].win.proxy.Scan? ==> ok)
    ensures Sum(RanksLeft(c, Step(c, s, ProxyStep(r, x, ok)))) == Sum(RanksLeft(c, s)) - 1
  {
    assert RankOk(c, s[r]);
    ProxyDrops(s[r].win, ActiveSlot(c, s[r]), x, ok);
    RankDrops(c, s, r, s[r].(win := ProxyNext(s[r].win, x, ok)));
  }

  lemma ReadStepDrops(c: Config, s: State, r: nat, t: nat, i: nat)
    requires Inv(c, s) && Enabled(c, s, ReadSource(r, t, i))
    ensures Sum(RanksLeft(c, Step(c, s, ReadSource(r, t, i)))) == Sum(RanksLeft(c, s)) - 1
  {
    assert Fits(c, s[r]);
    ReadDrops(s[r].out, t, i, s[r].source);
    RankDrops(c, s, r, SourceRead(s[r], t, i));
  }

  lemma TakeStepDrops(c: Config, s: State, r: nat, t: nat, i: nat)
    requires r < |s| && t < |s[r].out| && i < |s[r].out[t]| && !s[r].out[t][i].Put?
    ensures Sum(RanksLeft(c, s[r := Taken(s[r], t, i)])) == Sum(RanksLeft(c, s)) - 1
  {
    TakeDrops(s[r].out, t, i);
    RankDrops(c, s, r, Taken(s[r], t, i));
  }

  lemma DeliverStepDrops(c: Config, s: State, r: nat, t: nat, i: nat)
    requires Inv(c, s) && Enabled(c, s, Deliver(r, t, i))
    ensures Sum(RanksLeft(c, Step(c, s, Deliver(r, t, i)))) == Sum(RanksLeft(c, s)) - 1
  {
    assert Fits(c, s[r]) && Fits(c, s[t]);
    var s1, msg := s[r := Taken(s[r], t, i)], s[r].out[t][i];
    TakeStepDrops(c, s, r, t, i);
    LandIsFree(c, s1, t, s[t], msg);
    assert Step(c, s, Deliver(r, t, i)) == s1[t := Land(c, s[t], msg)];
  }

  lemma StepDrops(c: Config, s: State, ev: Event)
    requires Inv(c, s) && Enabled(c, s, ev) && !Refused(s, ev)
    ensures Sum(RanksLeft(c, Step(c, s, ev))) == Sum(RanksLeft(c, s)) - 1
  {
    match ev
    case GpuStep(r) => GpuStepDrops(c, s, r);
    case ProxyStep(r, x, ok) => ProxyStepDrops(c, s, r, x, ok);
    case ReadSource(r, t, i) => ReadStepDrops(c, s, r, t, i);
    case Deliver(r, t, i) => DeliverStepDrops(c, s, r, t, i);
  }

  lemma LeftNonNegative(c: Config, s: State)
    requires Inv(c, s)
    ensures Sum(RanksLeft(c, s)) >= 0
  {
    forall r | 0 <= r < |s| ensures RanksLeft(c, s)[r] >= 0 {
      assert RankOk(c, s[r]);
      SumNonNegative(SlotsLeft(s[r].win));
      forall t | 0 <= t < |s[r].out| ensures ChannelsLeft(s[r].out)[t] >= 0 { SumNonNegative(MsgsLeft(s[r].out[t])); }
      SumNonNegative(ChannelsLeft(s[r].out));
    }
    SumNonNegative(RanksLeft(c, s));
  }

  /** How many events of a schedule are effective: not spins and not refused re-queues. */
  ghost function Effective(c: Config, schedule: seq<Event>): nat {
    if schedule == [] then 0
    else
      var s, ev := Run(c, schedule[..|schedule| - 1]), schedule[|schedule| - 1];
      Effective(c, schedule[..|schedule| - 1]) + if Shape(c, s) && Enabled(c, s, ev) && !Refused(s, ev) then 1 else 0
  }

  lemma RefusedRankIsFree(c: Config, rk: Rank, x: nat)
    requires rk.win.proxy.Scan? && ProxyEnabled(rk.win, x)
    ensures RankLeft(c, rk.(win := ProxyNext(rk.win, x, false))) == RankLeft(c, rk)
  {
    RefusalIsFree(rk.win, x);
  }

  /** A refused re-queue costs nothing. */
  lemma RefusedIsFree(c: Config, s: State, ev: Event)
    requires Inv(c, s) && Enabled(c, s, ev) && Refused(s, ev)
    ensures Sum(RanksLeft(c, Step(c, s, ev))) == Sum(RanksLeft(c, s))
  {
    var r, x := ev.r, ev.x;
    RefusedRankIsFree(c, s[r], x);
    SumOfUpdate(RanksLeft(c, s), r, RankLeft(c, s[r]));
    assert RanksLeft(c, Step(c, s, ev)) == RanksLeft(c, s)[r := RankLeft(c, s[r])];
  }

  /** The work of all epochs, and two proxy actions to arm each slot at first, on every rank. */
  function TotalWork(c: Config): nat { Times(c.size, Times(c.iters, PerEpoch(c)) + Times(TotalSlots(c), 2)) }

  lemma NothingSent(out: seq<seq<Msg>>)
    requires forall t | 0 <= t < |out| :: out[t] == []
    ensures Sum(ChannelsLeft(out)) == 0
  {
    forall t | 0 <= t < |out| ensures ChannelsLeft(out)[t] == 0 { assert MsgsLeft(out[t]) == []; }
    SumOfZeros(ChannelsLeft(out));
  }

  lemma FreshRankLeft(c: Config, r: nat)
    requires c.Valid() && r < c.size
    ensures RankLeft(c, Init(c)[r]) == Times(c.iters, PerEpoch(c)) + Times(TotalSlots(c), 2)
  {
    var rk := Init(c)[r];
    assert rk.win == InitWindow(TotalSlots(c)) && rk.epoch == 0;
    FreshLeft(TotalSlots(c));
    NothingSent(rk.out);
  }

  lemma EqualShares(c: Config, s: State, each: nat)
    requires forall r | 0 <= r < |s| :: RankLeft(c, s[r]) == each
    ensures Sum(RanksLeft(c, s)) == Times(|s|, each)
  {
    SumOfSame(RanksLeft(c, s), each);
  }

  lemma InitialWork(c: Config)
    requires c.Valid()
    ensures Sum(RanksLeft(c, Init(c))) == TotalWork(c)
  {
    var s, each := Init(c), Times(c.iters, PerEpoch(c)) + Times(TotalSlots(c), 2);
    forall r | 0 <= r < |s| ensures RankLeft(c, s[r]) == each { FreshRankLeft(c, r); }
    EqualShares(c, s, each);
  }

  lemma {:induction false} WorkIsEffective(c: Config, schedule: seq<Event>)
    requires c.Valid()
    ensures Effective(c, schedule) == TotalWork(c) - Sum(RanksLeft(c, Run(c, schedule)))
  {
    if schedule == [] {
      InitialWork(c);
    } else {
      WorkIsEffective(c, schedule[..|schedule| - 1]);
      RunInv(c, schedule[..|schedule| - 1]);
      var s, ev := Run(c, schedule[..|schedule| - 1]), schedule[|schedule| - 1];
      if Enabled(c, s, ev) {
        if Refused(s, ev) { RefusedIsFree(c, s, ev); } else { StepDrops(c, s, ev); }
      }
    }
  }

  /** When nothing can move, no message is under way either. */
  lemma StuckChannelsEmpty(c: Config, s: State, r: nat, t: nat)
    requires Inv(c, s) && P.Stuck(c, s) && r < c.size && t < c.size
    ensures s[r].out[t] == []
  {
    var out := s[r].out[t];
    assert ChannelOk(c, r, t, out);
    assert out != [] ==> Enabled(c, s, ReadSource(r, t, 0)) || Enabled(c, s, Deliver(r, t, 0));
  }

  lemma StuckHasNothingLeft(c: Config, schedule: seq<Event>)
    requires c.Valid() && P.Stuck(c, Run(c, schedule))
    ensures Sum(RanksLeft(c, Run(c, schedule))) == 0
  {
    var s := Run(c, schedule);
    RunInv(c, schedule);
    forall r | 0 <= r < c.size ensures RanksLeft(c, s)[r] == 0 {
      P.StuckMeansFinished(c, schedule, r);
      ArmedLeft(s[r].win);
      forall t | 0 <= t < c.size ensures s[r].out[t] == [] { StuckChannelsEmpty(c, s, r, t); }
      NothingSent(s[r].out);
    }
    SumOfZeros(RanksLeft(c, s));
  }

  lemma SomethingLeft(c: Config, s: State)
    requires Inv(c, s) && !P.Stuck(c, s)
    ensures Sum(RanksLeft(c, s)) > 0
  {
    var ev :| Enabled(c, s, ev) && !(ev.ProxyStep? && !ev.ok);
    StepDrops(c, s, ev);
    StepKeepsInv(c, s, ev);
    LeftNonNegative(c, Step(c, s, ev));
  }

  /** No schedule, whatever the network and the queue do, has more effective steps than that, and it
      has made them all exactly when nothing can move any more. */
  lemma RunsComplete(c: Config, schedule: seq<Event>)
    requires c.Valid()
    ensures Effective(c, schedule) <= TotalWork(c)
    ensures Effective(c, schedule) == TotalWork(c) <==> P.Stuck(c, Run(c, schedule))
  {
    RunInv(c, schedule);
    WorkIsEffective(c, schedule);
    LeftNonNegative(c, Run(c, schedule));
    if P.Stuck(c, Run(c, schedule)) { StuckHasNothingLeft(c, schedule); } else { SomethingLeft(c, Run(c, schedule)); }
  }
}
