/** The proxied dissemination barrier with a ring put: three barriers per epoch over cumulative
    per-phase counters, and between the first and the second one a put of a fresh value to the
    next rank, verified between the second and the third. Deferred work sits in a window of
    slots that a CPU proxy re-arms. */
module ProxyBarrier {
  import opened Dissemination
  import opened ArmedSlots
  import opened Arithmetic

  /** `ordered`: the network delivers the messages between two ranks in order. */
  datatype Config = Config(size: nat, window: nat, iters: nat, ordered: bool) {
    predicate Valid() { size >= 2 && window >= 1 }
    function Phases(): nat { Dissemination.Rounds(size) }
    function SlotsPerWindow(): nat { Phases() + 1 }
  }

  /** What a rank sends in an epoch. The sources pack the pair into one word. */
  datatype Value = Unset | Tagged(rank: nat, epoch: nat)

  /** An operation in flight. A put reads its source buffer only some time after it has fired. */
  datatype Msg = Add(phase: nat) | Put | PutRead(value: Value)

  datatype OpType = BarrierOp | PutOp

  datatype OpInfo = OpInfo(opType: OpType, phase: nat, target: nat)

  /** Program counter of the kernel; `b` is 0, 1 or 2 for the three barriers of an epoch.
      `At(b, p)` waits for the slot of phase p to be armed, or leaves the barrier at p = phases. */
  datatype Gpu =
    | At(b: nat, p: nat) | Trigger(b: nat, p: nat) | Poll(b: nat, p: nat) | Mark(b: nat, p: nat)
    | WriteSource | PutWait | PutTrigger | PutMark | Verify | Finished

  datatype Rank = Rank(
    gpu: Gpu,
    epoch: nat,
    win: Window,
    cnt: seq<nat>,            // phase counters
    source: Value,            // send buffer
    recv: Value,              // receive buffer
    errors: nat,
    out: seq<seq<Msg>>)       // fired operations not yet delivered, by target

  type State = seq<Rank>

  datatype Event =
    | GpuStep(r: nat)
    | ProxyStep(r: nat, x: nat, ok: bool)
    | ReadSource(r: nat, t: nat, i: nat)
    | Deliver(r: nat, t: nat, i: nat)

  // ---------------------------------------------------------------- slot layout

  /** window * slots per window. */
  function TotalSlots(c: Config): nat {
    Times(c.window, c.SlotsPerWindow())
  }

  /** The slot the kernel computes for phase `j` of an epoch; j = phases is the put slot. */
  function SlotOf(c: Config, epoch: nat, j: nat): (x: nat)
    requires c.Valid() && j < c.SlotsPerWindow()
    ensures x < TotalSlots(c) && x % c.SlotsPerWindow() == j
  {
    SlotInWindow(c, epoch % c.window, j);
    Times(epoch % c.window, c.SlotsPerWindow()) + j
  }

  lemma SlotInWindow(c: Config, w: nat, j: nat)
    requires w < c.window && j < c.SlotsPerWindow()
    ensures var x := Times(w, c.SlotsPerWindow()) + j;
            x < TotalSlots(c) && x % c.SlotsPerWindow() == j && x == w * c.SlotsPerWindow() + j
  {
    TimesIsProduct(w, c.SlotsPerWindow());
    TimesIsProduct(c.window, c.SlotsPerWindow());
    RowMajor(w, c.window, c.SlotsPerWindow(), j);
  }

  /** The operation the set-up code assigns to slot `x`. */
  function Layout(c: Config, r: nat, x: nat): OpInfo
    requires c.Valid() && r < c.size
  {
    var j := x % c.SlotsPerWindow();
    if j < c.Phases() then OpInfo(BarrierOp, j, SendTo(c.size, j, r))
    else OpInfo(PutOp, 0, if r + 1 < c.size then r + 1 else 0)
  }

  // ---------------------------------------------------------------- actions

  predicate GpuFits(c: Config, g: Gpu) {
    match g
    case At(b, p) => b <= 2 && p <= c.Phases()
    case Trigger(b, p) => b <= 2 && p < c.Phases()
    case Poll(b, p) => b <= 2 && p < c.Phases()
    case Mark(b, p) => b <= 2 && p < c.Phases()
    case _ => true
  }

  predicate Fits(c: Config, rk: Rank) {
    && GpuFits(c, rk.gpu)
    && |rk.win.slots| == TotalSlots(c)
    && |rk.cnt| == c.Phases()
    && |rk.out| == c.size
  }

  ghost predicate Shape(c: Config, s: State) {
    c.Valid() && |s| == c.size && forall r | 0 <= r < c.size :: Fits(c, s[r])
  }

  /** The barrier a rank is in or has last left, counted from 1 over all epochs. */
  function BarrierNo(rk: Rank): nat {
    match rk.gpu
    case At(b, _) => 3 * rk.epoch + b + 1
    case Trigger(b, _) => 3 * rk.epoch + b + 1
    case Poll(b, _) => 3 * rk.epoch + b + 1
    case Mark(b, _) => 3 * rk.epoch + b + 1
    case Verify => 3 * rk.epoch + 2
    case Finished => 3 * rk.epoch
    case _ => 3 * rk.epoch + 1
  }

  predicate GpuEnabled(c: Config, rk: Rank)
    requires c.Valid() && Fits(c, rk)
  {
    match rk.gpu
    case At(b, p) => p < c.Phases() ==> rk.win.slots[SlotOf(c, rk.epoch, p)].armed
    case Poll(b, p) => rk.cnt[p] >= 3 * rk.epoch + b + 1
    case PutWait => rk.win.slots[SlotOf(c, rk.epoch, c.Phases())].armed
    case Finished => false
    case _ => true
  }

  /** Writing the trigger of slot `x` fires its queued operation towards the slot's target. */
  function TriggerSlot(c: Config, r: nat, rk: Rank, x: nat): Rank
    requires c.Valid() && r < c.size && Fits(c, rk) && x < TotalSlots(c)
  {
    var info := Layout(c, r, x);
    var msg := if info.opType.BarrierOp? then Add(info.phase) else Put;
    var fired := rk.(win := FireAt(rk.win, x));
    if rk.win.slots[x].queued then fired.(out := rk.out[info.target := rk.out[info.target] + [msg]]) else fired
  }

  function Sender(c: Config, r: nat): (q: nat)
    requires c.Valid() && r < c.size
    ensures q < c.size
  {
    if r >= 1 then r - 1 else r - 1 + c.size
  }

  function GpuNext(c: Config, r: nat, rk: Rank): Rank
    requires c.Valid() && r < c.size && Fits(c, rk)
  {
    match rk.gpu
    case At(b, p) =>
      if p < c.Phases() then rk.(gpu := Trigger(b, p))
      else if b == 0 then rk.(gpu := WriteSource)
      else if b == 1 then rk.(gpu := Verify)
      else if rk.epoch + 1 < c.iters then rk.(gpu := At(0, 0), epoch := rk.epoch + 1)
      else rk.(gpu := Finished, epoch := rk.epoch + 1)
    case Trigger(b, p) => TriggerSlot(c, r, rk, SlotOf(c, rk.epoch, p)).(gpu := Poll(b, p))
    case Poll(b, p) => rk.(gpu := Mark(b, p))
    case Mark(b, p) => rk.(win := ReleaseAt(rk.win, SlotOf(c, rk.epoch, p)), gpu := At(b, p + 1))
    case WriteSource => rk.(source := Tagged(r, rk.epoch), gpu := PutWait)
    case PutWait => rk.(gpu := PutTrigger)
    case PutTrigger => TriggerSlot(c, r, rk, SlotOf(c, rk.epoch, c.Phases())).(gpu := PutMark)
    case PutMark => rk.(win := ReleaseAt(rk.win, SlotOf(c, rk.epoch, c.Phases())), gpu := At(1, 0))
    case Verify =>
      rk.(errors := if rk.recv == Tagged(Sender(c, r), rk.epoch) then rk.errors else rk.errors + 1,
          gpu := At(2, 0))
    case Finished => rk
  }

  function Land(c: Config, rk: Rank, msg: Msg): Rank
    requires Fits(c, rk) && !msg.Put? && (msg.Add? ==> msg.phase < c.Phases())
  {
    match msg
    case Add(p) => rk.(cnt := rk.cnt[p := rk.cnt[p] + 1])
    case PutRead(v) => rk.(recv := v)
  }

  function Without<T>(s: seq<T>, i: nat): seq<T>
    requires i < |s|
  {
    s[..i] + s[i + 1..]
  }

  function Taken(rk: Rank, t: nat, i: nat): Rank
    requires t < |rk.out| && i < |rk.out[t]|
  {
    rk.(out := rk.out[t := Without(rk.out[t], i)])
  }

  function SourceRead(rk: Rank, t: nat, i: nat): Rank
    requires t < |rk.out| && i < |rk.out[t]|
  {
    rk.(out := rk.out[t := rk.out[t][i := PutRead(rk.source)]])
  }

  predicate InFlight(c: Config, rk: Rank, t: nat, i: nat)
    requires Fits(c, rk)
  {
    t < c.size && i < |rk.out[t]|
  }

  ghost predicate Enabled(c: Config, s: State, ev: Event)
    requires Shape(c, s)
  {
    ev.r < c.size &&
    match ev
    case GpuStep(r) => GpuEnabled(c, s[r])
    case ProxyStep(r, x, _) => ProxyEnabled(s[r].win, x)
    case ReadSource(r, t, i) => InFlight(c, s[r], t, i) && s[r].out[t][i].Put?
    case Deliver(r, t, i) =>
      && InFlight(c, s[r], t, i) && !s[r].out[t][i].Put? && t != r
      && (s[r].out[t][i].Add? ==> s[r].out[t][i].phase < c.Phases())
      && (c.ordered ==> i == 0)
  }

  ghost function Step(c: Config, s: State, ev: Event): State
    requires Shape(c, s) && Enabled(c, s, ev)
  {
    match ev
    case GpuStep(r) => s[r := GpuNext(c, r, s[r])]
    case ProxyStep(r, x, ok) => s[r := s[r].(win := ProxyNext(s[r].win, x, ok))]
    case ReadSource(r, t, i) => s[r := SourceRead(s[r], t, i)]
    case Deliver(r, t, i) => s[r := Taken(s[r], t, i)][t := Land(c, s[t], s[r].out[t][i])]
  }

  ghost function Init(c: Config): State {
    seq(c.size, r => Rank(if c.iters > 0 then At(0, 0) else Finished, 0, InitWindow(TotalSlots(c)),
                          seq(c.Phases(), p => 0), Unset, Unset, 0, seq(c.size, t => [])))
  }

  // ---------------------------------------------------------------- invariant: one rank

  /** Number of phase-p triggers the kernel has written. */
  function Triggered(rk: Rank, p: nat): int {
    match rk.gpu
    case At(_, j) => if p < j then BarrierNo(rk) else BarrierNo(rk) - 1
    case Trigger(_, j) => if p < j then BarrierNo(rk) else BarrierNo(rk) - 1
    case Poll(_, j) => if p <= j then BarrierNo(rk) else BarrierNo(rk) - 1
    case Mark(_, j) => if p <= j then BarrierNo(rk) else BarrierNo(rk) - 1
    case _ => BarrierNo(rk)
  }

  /** Number of barriers whose phase-p threshold the kernel has seen reached. */
  function Seen(rk: Rank, p: nat): int {
    match rk.gpu
    case At(_, j) => if p < j then BarrierNo(rk) else BarrierNo(rk) - 1
    case Trigger(_, j) => if p < j then BarrierNo(rk) else BarrierNo(rk) - 1
    case Poll(_, j) => if p < j then BarrierNo(rk) else BarrierNo(rk) - 1
    case Mark(_, j) => if p <= j then BarrierNo(rk) else BarrierNo(rk) - 1
    case _ => BarrierNo(rk)
  }

  /** The slot the kernel has triggered and not marked yet, or -1. */
  function ActiveSlot(c: Config, rk: Rank): int
    requires c.Valid() && GpuFits(c, rk.gpu)
  {
    match rk.gpu
    case Poll(_, p) => SlotOf(c, rk.epoch, p)
    case Mark(_, p) => SlotOf(c, rk.epoch, p)
    case PutMark => SlotOf(c, rk.epoch, c.Phases())
    case _ => -1
  }

  ghost predicate RankOk(c: Config, rk: Rank)
    requires c.Valid()
  {
    && Fits(c, rk)
    && (if rk.gpu.Finished? then rk.epoch == c.iters else rk.epoch < c.iters)
    && WindowOk(rk.win, ActiveSlot(c, rk))
    && (rk.gpu.Trigger? ==> rk.win.slots[SlotOf(c, rk.epoch, rk.gpu.p)].armed)
    && (rk.gpu.PutTrigger? ==> rk.win.slots[SlotOf(c, rk.epoch, c.Phases())].armed)
  }

  // ---------------------------------------------------------------- invariant: one link

  /** The additions of phase p in flight on a channel. */
  ghost function Flying(out: seq<Msg>, p: nat): nat {
    multiset(out)[Add(p)]
  }

  /** Conservation on the channel from rank q to rank t: what has been counted and what is in
      flight make up what was triggered, and nothing else is in flight. */
  ghost predicate LinkOk(c: Config, q: nat, t: nat, sender: Rank, receiver: Rank, p: nat)
    requires c.Valid() && Fits(c, sender) && Fits(c, receiver) && q < c.size && t < c.size && p < c.Phases()
  {
    Flying(sender.out[t], p) == if t == SendTo(c.size, p, q) then Triggered(sender, p) - receiver.cnt[p] else 0
  }

  ghost predicate ChannelOk(c: Config, q: nat, t: nat, out: seq<Msg>) {
    && (forall i | 0 <= i < |out| && out[i].Add? :: out[i].phase < c.Phases())
    && (t == q ==> out == [])
  }

  ghost predicate SeenOk(c: Config, rk: Rank)
    requires Fits(c, rk)
  {
    forall p | 0 <= p < c.Phases() :: Seen(rk, p) <= rk.cnt[p]
  }

  ghost predicate Inv(c: Config, s: State) {
    && Shape(c, s)
    && (forall r | 0 <= r < c.size :: RankOk(c, s[r]) && SeenOk(c, s[r]))
    && (forall q, t | 0 <= q < c.size && 0 <= t < c.size :: ChannelOk(c, q, t, s[q].out[t]))
    && (forall q, t, p | 0 <= q < c.size && 0 <= t < c.size && 0 <= p < c.Phases() ::
          LinkOk(c, q, t, s[q], s[t], p))
  }

  lemma InitInv(c: Config)
    requires c.Valid()
    ensures Inv(c, Init(c))
  {
    InitWindowOk(TotalSlots(c));
  }

  // ---------------------------------------------------------------- every action keeps it

  lemma PutTargetIsPhaseZero(c: Config, r: nat)
    requires c.Valid() && r < c.size
    ensures c.Phases() > 0
    ensures SendTo(c.size, 0, r) == (if r + 1 < c.size then r + 1 else 0)
    ensures Layout(c, r, c.Phases()).target == SendTo(c.size, 0, r)
  {
    assert Pow2(0) == 1;
    assert c.Phases() > 0;
    assert c.Phases() % c.SlotsPerWindow() == c.Phases();
  }

  /** The slot a kernel step triggers or releases. */
  function UsedSlot(c: Config, rk: Rank): nat
    requires c.Valid() && GpuFits(c, rk.gpu)
  {
    match rk.gpu
    case Trigger(_, p) => SlotOf(c, rk.epoch, p)
    case Mark(_, p) => SlotOf(c, rk.epoch, p)
    case _ => SlotOf(c, rk.epoch, c.Phases())
  }

  predicate Triggers(g: Gpu) { g.Trigger? || g.PutTrigger? }

  predicate Releases(g: Gpu) { g.Mark? || g.PutMark? }

  lemma GpuWindow(c: Config, r: nat, rk: Rank)
    requires c.Valid() && r < c.size && Fits(c, rk)
    ensures GpuNext(c, r, rk).win ==
              if Triggers(rk.gpu) then FireAt(rk.win, UsedSlot(c, rk))
              else if Releases(rk.gpu) then ReleaseAt(rk.win, UsedSlot(c, rk))
              else rk.win
  {
  }

  lemma GpuKeepsShape(c: Config, r: nat, rk: Rank)
    requires c.Valid() && r < c.size && Fits(c, rk) && GpuEnabled(c, rk)
    requires if rk.gpu.Finished? then rk.epoch == c.iters else rk.epoch < c.iters
    ensures var rk' := GpuNext(c, r, rk);
            && Fits(c, rk')
            && (if rk'.gpu.Finished? then rk'.epoch == c.iters else rk'.epoch < c.iters)
            && ActiveSlot(c, rk') == (if Triggers(rk.gpu) then UsedSlot(c, rk) else if Releases(rk.gpu) then -1
                                      else ActiveSlot(c, rk))
  {
  }

  lemma GpuKeepsRank(c: Config, r: nat, rk: Rank)
    requires c.Valid() && r < c.size && RankOk(c, rk) && GpuEnabled(c, rk)
    ensures RankOk(c, GpuNext(c, r, rk))
  {
    GpuWindow(c, r, rk);
    GpuKeepsShape(c, r, rk);
    if Triggers(rk.gpu) { FireKeepsWindow(rk.win, UsedSlot(c, rk)); }
    else if Releases(rk.gpu) { ReleaseKeepsWindow(rk.win, UsedSlot(c, rk)); }
  }

  /** One more message towards rank t. */
  function Posted(out: seq<seq<Msg>>, t: nat, msg: Msg): seq<seq<Msg>>
    requires t < |out|
  {
    out[t := out[t] + [msg]]
  }

  /** A kernel step sends at most one operation: the one its index arithmetic expects. */
  lemma GpuSends(c: Config, r: nat, rk: Rank)
    requires c.Valid() && r < c.size && RankOk(c, rk) && GpuEnabled(c, rk)
    ensures var rk' := GpuNext(c, r, rk);
            && |rk'.out| == c.size && rk'.cnt == rk.cnt
            && rk'.out == (if rk.gpu.Trigger? then Posted(rk.out, SendTo(c.size, rk.gpu.p, r), Add(rk.gpu.p))
                           else if rk.gpu.PutTrigger? then Posted(rk.out, SendTo(c.size, 0, r), Put)
                           else rk.out)
  {
    PutTargetIsPhaseZero(c, r);
    match rk.gpu
    case Trigger(b, p) => FireKeepsWindow(rk.win, SlotOf(c, rk.epoch, p));
    case PutTrigger => FireKeepsWindow(rk.win, SlotOf(c, rk.epoch, c.Phases()));
    case _ =>
  }

  lemma GpuCounts(c: Config, r: nat, rk: Rank, p: nat)
    requires c.Valid() && r < c.size && RankOk(c, rk) && GpuEnabled(c, rk) && p < c.Phases()
    requires Seen(rk, p) <= rk.cnt[p]
    ensures var rk' := GpuNext(c, r, rk);
            && Seen(rk', p) <= rk.cnt[p]
            && Triggered(rk', p) == Triggered(rk, p) + if rk.gpu.Trigger? && rk.gpu.p == p then 1 else 0
  {
  }

  lemma GpuKeepsLinks(c: Config, r: nat, t: nat, rk: Rank, receiver: Rank, p: nat)
    requires c.Valid() && r < c.size && t < c.size && p < c.Phases()
    requires RankOk(c, rk) && GpuEnabled(c, rk) && Seen(rk, p) <= rk.cnt[p]
    requires Fits(c, receiver) && Fits(c, GpuNext(c, r, rk))
    requires LinkOk(c, r, t, rk, receiver, p) && ChannelOk(c, r, t, rk.out[t])
    ensures LinkOk(c, r, t, GpuNext(c, r, rk), receiver, p) && ChannelOk(c, r, t, GpuNext(c, r, rk).out[t])
  {
    GpuSends(c, r, rk);
    GpuCounts(c, r, rk, p);
  }

  lemma GpuKeepsInv(c: Config, s: State, r: nat)
    requires Inv(c, s) && r < c.size && GpuEnabled(c, s[r])
    ensures Inv(c, s[r := GpuNext(c, r, s[r])])
  {
    var rk' := GpuNext(c, r, s[r]);
    var s' := s[r := rk'];
    GpuKeepsRank(c, r, s[r]);
    GpuSends(c, r, s[r]);
    PutTargetIsPhaseZero(c, r);
    forall p | 0 <= p < c.Phases() ensures Seen(rk', p) <= rk'.cnt[p] { GpuCounts(c, r, s[r], p); }
    forall q, t, p | 0 <= q < c.size && 0 <= t < c.size && 0 <= p < c.Phases()
      ensures LinkOk(c, q, t, s'[q], s'[t], p)
    {
      assert LinkOk(c, q, t, s[q], s[t], p);
      if q == r { GpuKeepsLinks(c, r, t, s[r], s[t], p); }
    }
    forall q, t | 0 <= q < c.size && 0 <= t < c.size ensures ChannelOk(c, q, t, s'[q].out[t]) {
      assert ChannelOk(c, q, t, s[q].out[t]);
      if q == r { assert LinkOk(c, r, t, s[r], s[t], 0); GpuKeepsLinks(c, r, t, s[r], s[t], 0); }
    }
  }

  /** What conservation on a channel looks at. */
  lemma SameLink(c: Config, q: nat, t: nat, sender: Rank, receiver: Rank, sender': Rank, receiver': Rank, p: nat)
    requires c.Valid() && q < c.size && t < c.size && p < c.Phases()
    requires Fits(c, sender) && Fits(c, receiver) && Fits(c, sender') && Fits(c, receiver')
    requires LinkOk(c, q, t, sender, receiver, p)
    requires sender'.gpu == sender.gpu && sender'.epoch == sender.epoch && receiver'.cnt == receiver.cnt
    requires Flying(sender'.out[t], p) == Flying(sender.out[t], p)
    ensures LinkOk(c, q, t, sender', receiver', p)
  {
  }

  /** A step of one rank that neither triggers nor counts and keeps what is in flight. */
  lemma UpdateKeepsInv(c: Config, s: State, r: nat, rk': Rank)
    requires Inv(c, s) && r < c.size && RankOk(c, rk')
    requires rk'.gpu == s[r].gpu && rk'.epoch == s[r].epoch && rk'.cnt == s[r].cnt
    requires forall t | 0 <= t < c.size :: ChannelOk(c, r, t, rk'.out[t])
    requires forall t, p | 0 <= t < c.size && 0 <= p < c.Phases() :: Flying(rk'.out[t], p) == Flying(s[r].out[t], p)
    ensures Inv(c, s[r := rk'])
  {
    var s' := s[r := rk'];
    assert SeenOk(c, s[r]);
    forall q, t, p | 0 <= q < c.size && 0 <= t < c.size && 0 <= p < c.Phases()
      ensures LinkOk(c, q, t, s'[q], s'[t], p)
    {
      SameLink(c, q, t, s[q], s[t], s'[q], s'[t], p);
    }
    forall q, t | 0 <= q < c.size && 0 <= t < c.size ensures ChannelOk(c, q, t, s'[q].out[t]) {
      assert ChannelOk(c, q, t, s[q].out[t]);
    }
  }

  lemma ProxyKeepsInv(c: Config, s: State, r: nat, x: nat, ok: bool)
    requires Inv(c, s) && r < c.size && ProxyEnabled(s[r].win, x)
    ensures Inv(c, s[r := s[r].(win := ProxyNext(s[r].win, x, ok))])
  {
    ProxyKeepsWindow(s[r].win, ActiveSlot(c, s[r]), x, ok);
    forall t | 0 <= t < c.size ensures ChannelOk(c, r, t, s[r].out[t]) {}
    UpdateKeepsInv(c, s, r, s[r].(win := ProxyNext(s[r].win, x, ok)));
  }

  lemma ReadKeepsInv(c: Config, s: State, r: nat, t: nat, i: nat)
    requires Inv(c, s) && r < c.size && InFlight(c, s[r], t, i) && s[r].out[t][i].Put?
    ensures Inv(c, s[r := SourceRead(s[r], t, i)])
  {
    forall u | 0 <= u < c.size ensures ChannelOk(c, r, u, SourceRead(s[r], t, i).out[u]) {
      assert ChannelOk(c, r, u, s[r].out[u]);
    }
    UpdateKeepsInv(c, s, r, SourceRead(s[r], t, i));
  }

  lemma TakeOne<T>(s: seq<T>, i: nat)
    requires i < |s|
    ensures multiset(s) == multiset(Without(s, i)) + multiset{s[i]}
  {
    assert s == s[..i] + [s[i]] + s[i + 1..];
  }

  /** Only the phase channel of an addition carries it. */
  lemma AddHasItsChannel(c: Config, s: State, r: nat, t: nat, i: nat)
    requires Inv(c, s) && r < c.size && InFlight(c, s[r], t, i) && s[r].out[t][i].Add?
    ensures s[r].out[t][i].phase < c.Phases() && t == SendTo(c.size, s[r].out[t][i].phase, r)
  {
    var p := s[r].out[t][i].phase;
    assert ChannelOk(c, r, t, s[r].out[t]);
    assert LinkOk(c, r, t, s[r], s[t], p);
    assert Add(p) in multiset(s[r].out[t]);
  }

  lemma DeliverKeepsLink(c: Config, q: nat, u: nat, sender: Rank, sender': Rank, receiver: Rank, receiver': Rank,
                         p: nat, taken: bool, counted: bool)
    requires c.Valid() && Fits(c, sender) && Fits(c, sender') && Fits(c, receiver) && Fits(c, receiver')
    requires q < c.size && u < c.size && p < c.Phases()
    requires LinkOk(c, q, u, sender, receiver, p)
    requires sender'.gpu == sender.gpu && sender'.epoch == sender.epoch
    requires Flying(sender.out[u], p) == Flying(sender'.out[u], p) + if taken then 1 else 0
    requires receiver'.cnt[p] == receiver.cnt[p] + if counted then 1 else 0
    requires u == SendTo(c.size, p, q) ==> taken == counted
    requires u != SendTo(c.size, p, q) ==> !taken
    ensures LinkOk(c, q, u, sender', receiver', p)
  {
  }

  ghost predicate Deliverable(c: Config, s: State, r: nat, t: nat, i: nat)
    requires Shape(c, s)
  {
    && r < c.size && InFlight(c, s[r], t, i) && t != r
    && !s[r].out[t][i].Put?
    && (s[r].out[t][i].Add? ==> s[r].out[t][i].phase < c.Phases())
  }

  lemma TakenKeepsRank(c: Config, rk: Rank, r: nat, t: nat, i: nat)
    requires c.Valid() && RankOk(c, rk) && SeenOk(c, rk) && t < c.size && i < |rk.out[t]| && ChannelOk(c, r, t, rk.out[t])
    ensures RankOk(c, Taken(rk, t, i)) && SeenOk(c, Taken(rk, t, i)) && ChannelOk(c, r, t, Taken(rk, t, i).out[t])
  {
    var rk' := Taken(rk, t, i);
    assert ActiveSlot(c, rk') == ActiveSlot(c, rk);
  }

  lemma LandKeepsRank(c: Config, rk: Rank, msg: Msg)
    requires c.Valid() && RankOk(c, rk) && SeenOk(c, rk) && !msg.Put? && (msg.Add? ==> msg.phase < c.Phases())
    ensures RankOk(c, Land(c, rk, msg)) && SeenOk(c, Land(c, rk, msg))
  {
    var rk' := Land(c, rk, msg);
    assert ActiveSlot(c, rk') == ActiveSlot(c, rk);
    forall p | 0 <= p < c.Phases() ensures Seen(rk', p) <= rk'.cnt[p] { assert Seen(rk, p) <= rk.cnt[p]; }
  }

  lemma DeliverKeepsRanks(c: Config, s: State, r: nat, t: nat, i: nat)
    requires Inv(c, s) && Deliverable(c, s, r, t, i)
    ensures var sr', st' := Taken(s[r], t, i), Land(c, s[t], s[r].out[t][i]);
            && RankOk(c, sr') && RankOk(c, st') && SeenOk(c, st') && SeenOk(c, sr')
            && ChannelOk(c, r, t, sr'.out[t])
  {
    assert ChannelOk(c, r, t, s[r].out[t]);
    TakenKeepsRank(c, s[r], r, t, i);
    LandKeepsRank(c, s[t], s[r].out[t][i]);
  }

  lemma DeliverKeepsLinks(c: Config, s: State, r: nat, t: nat, i: nat, q: nat, u: nat, p: nat)
    requires Inv(c, s) && Deliverable(c, s, r, t, i) && q < c.size && u < c.size && p < c.Phases()
    ensures var s' := s[r := Taken(s[r], t, i)][t := Land(c, s[t], s[r].out[t][i])];
            Fits(c, s'[q]) && Fits(c, s'[u]) && LinkOk(c, q, u, s'[q], s'[u], p)
  {
    var msg := s[r].out[t][i];
    var s' := s[r := Taken(s[r], t, i)][t := Land(c, s[t], msg)];
    TakeOne(s[r].out[t], i);
    if msg.Add? { AddHasItsChannel(c, s, r, t, i); }
    assert LinkOk(c, q, u, s[q], s[u], p);
    if msg == Add(p) { PeersInverse(c.size, p, q); PeersInverse(c.size, p, r); }
    DeliverKeepsLink(c, q, u, s[q], s'[q], s[u], s'[u], p, msg == Add(p) && q == r && u == t, msg == Add(p) && u == t);
  }

  lemma DeliverKeepsInv(c: Config, s: State, r: nat, t: nat, i: nat)
    requires Inv(c, s) && Deliverable(c, s, r, t, i)
    ensures Inv(c, s[r := Taken(s[r], t, i)][t := Land(c, s[t], s[r].out[t][i])])
  {
    var s' := s[r := Taken(s[r], t, i)][t := Land(c, s[t], s[r].out[t][i])];
    DeliverKeepsRanks(c, s, r, t, i);
    forall q | 0 <= q < c.size ensures RankOk(c, s'[q]) && SeenOk(c, s'[q]) {
      assert RankOk(c, s[q]) && SeenOk(c, s[q]);
    }
    forall q, u | 0 <= q < c.size && 0 <= u < c.size ensures ChannelOk(c, q, u, s'[q].out[u]) {
      assert ChannelOk(c, q, u, s[q].out[u]);
    }
    forall q, u, p | 0 <= q < c.size && 0 <= u < c.size && 0 <= p < c.Phases()
      ensures LinkOk(c, q, u, s'[q], s'[u], p)
    {
      DeliverKeepsLinks(c, s, r, t, i, q, u, p);
    }
  }

  lemma StepKeepsInv(c: Config, s: State, ev: Event)
    requires Inv(c, s) && Enabled(c, s, ev)
    ensures Inv(c, Step(c, s, ev))
  {
    match ev
    case GpuStep(r) => GpuKeepsInv(c, s, r);
    case ProxyStep(r, x, ok) => ProxyKeepsInv(c, s, r, x, ok);
    case ReadSource(r, t, i) => ReadKeepsInv(c, s, r, t, i);
    case Deliver(r, t, i) => DeliverKeepsInv(c, s, r, t, i);
  }

  // ---------------------------------------------------------------- schedules

  ghost function Next(c: Config, s: State, ev: Event): State {
    if Shape(c, s) && Enabled(c, s, ev) then Step(c, s, ev) else s
  }

  ghost function Run(c: Config, schedule: seq<Event>): State {
    if schedule == [] then Init(c) else Next(c, Run(c, schedule[..|schedule| - 1]), schedule[|schedule| - 1])
  }

  lemma {:induction false} RunInv(c: Config, schedule: seq<Event>)
    requires c.Valid()
    ensures Inv(c, Run(c, schedule))
  {
    if schedule == [] {
      InitInv(c);
    } else {
      RunInv(c, schedule[..|schedule| - 1]);
      var s, ev := Run(c, schedule[..|schedule| - 1]), schedule[|schedule| - 1];
      if Enabled(c, s, ev) { StepKeepsInv(c, s, ev); }
    }
  }
}
