/** What the proxied barrier guarantees on every schedule: barrier safety with any window and
    unordered delivery, refinement of the abstract barrier, and, when the network keeps the order
    between two ranks, that every verification reads the value its sender prepared. */
module ProxySafety {
  import opened Dissemination
  import opened ArmedSlots
  import opened ProxyBarrier
  import A = AbstractBarrier

  function Position(c: Config, rk: Rank): Pos {
    match rk.gpu
    case At(_, p) => Pos(BarrierNo(rk), p)
    case Trigger(_, p) => Pos(BarrierNo(rk), p)
    case Poll(_, p) => Pos(BarrierNo(rk), p)
    case Mark(_, p) => Pos(BarrierNo(rk), p + 1)
    case _ => Pos(BarrierNo(rk), c.Phases())
  }

  ghost function Positions(c: Config, s: State): seq<Pos> {
    seq(|s|, r requires 0 <= r < |s| => Position(c, s[r]))
  }

  /** The phase counter of a rank, its sender's triggers and what is still in flight. */
  lemma CounterConservation(c: Config, s: State, q: nat, p: nat)
    requires Inv(c, s) && q < c.size && p < c.Phases()
    ensures var t := SendTo(c.size, p, q);
            && s[t].cnt[p] + Flying(s[q].out[t], p) == Triggered(s[q], p)
            && Seen(s[t], p) <= s[t].cnt[p]
  {
    var t := SendTo(c.size, p, q);
    assert LinkOk(c, q, t, s[q], s[t], p);
    assert SeenOk(c, s[t]);
  }

  lemma CountersAreCausal(c: Config, s: State)
    requires Inv(c, s)
    ensures Causal(c.size, Positions(c, s))
  {
    var pos := Positions(c, s);
    forall r, e: nat, k | 0 <= r < c.size && 1 <= k <= c.Phases()
      ensures CausalAt(c.size, pos, r, e, k)
    {
      CounterConservation(c, s, RecvFrom(c.size, k - 1, r), k - 1);
    }
  }

  /** Number of barriers a rank has left. */
  function Left(c: Config, rk: Rank): int {
    match rk.gpu
    case At(_, p) => if p == c.Phases() then BarrierNo(rk) else BarrierNo(rk) - 1
    case Trigger(_, _) => BarrierNo(rk) - 1
    case Poll(_, _) => BarrierNo(rk) - 1
    case Mark(_, _) => BarrierNo(rk) - 1
    case _ => BarrierNo(rk)
  }

  lemma NoEarlyLeave(c: Config, s: State, r: nat, e: nat)
    requires Inv(c, s) && r < c.size && Reached(Position(c, s[r]), e, c.Phases())
    ensures forall q | 0 <= q < c.size :: BarrierNo(s[q]) >= e
  {
    CountersAreCausal(c, s);
    AllHaveEntered(c.size, Positions(c, s), e, r);
    forall q | 0 <= q < c.size ensures BarrierNo(s[q]) >= e {
      assert Reached(Positions(c, s)[q], e, 0);
    }
  }

  /** No rank leaves barrier `e` before all have entered it, whatever the window, the schedule and
      the order of delivery. */
  lemma BarrierSafety(c: Config, schedule: seq<Event>, r: nat, e: nat)
    requires c.Valid()
    ensures var s := Run(c, schedule);
            |s| == c.size && (r < c.size && Left(c, s[r]) >= e ==> forall q | 0 <= q < c.size :: BarrierNo(s[q]) >= e)
  {
    RunInv(c, schedule);
    var s := Run(c, schedule);
    if r < c.size && Left(c, s[r]) >= e { NoEarlyLeave(c, s, r, e); }
  }

  // ---------------------------------------------------------------- refinement

  ghost function Abs(c: Config, s: State): A.Barrier
    requires Inv(c, s)
  {
    A.Barrier(seq(c.size, r requires 0 <= r < c.size => BarrierNo(s[r])),
              seq(c.size, r requires 0 <= r < c.size => (assert RankOk(c, s[r]); Left(c, s[r]) as nat)))
  }

  /** What a kernel step does to the number of barriers entered and left. */
  lemma GpuMoves(c: Config, r: nat, rk: Rank)
    requires c.Valid() && r < c.size && RankOk(c, rk) && GpuEnabled(c, rk)
    ensures var rk' := GpuNext(c, r, rk);
            || (BarrierNo(rk') == BarrierNo(rk) && Left(c, rk') == Left(c, rk))
            || (BarrierNo(rk') == BarrierNo(rk) + 1 && Left(c, rk') == Left(c, rk) == BarrierNo(rk))
            || (BarrierNo(rk') == BarrierNo(rk) == Left(c, rk') == Left(c, rk) + 1
                && Position(c, rk) == Pos(BarrierNo(rk), c.Phases()))
  {
    PutTargetIsPhaseZero(c, r);
  }

  lemma GpuRefines(c: Config, s: State, r: nat, rk': Rank)
    requires Inv(c, s) && r < c.size && GpuEnabled(c, s[r]) && rk' == GpuNext(c, r, s[r])
    requires Inv(c, s[r := rk'])
    ensures A.Move(c.size, Abs(c, s), Abs(c, s[r := rk']), r)
  {
    var b, b' := Abs(c, s), Abs(c, s[r := rk']);
    assert RankOk(c, s[r]);
    GpuMoves(c, r, s[r]);
    if BarrierNo(rk') == BarrierNo(s[r]) + 1 {
      assert b' == b.(entered := b.entered[r := b.entered[r] + 1]);
      assert A.Enter(c.size, b, b', r);
    } else if Left(c, rk') == Left(c, s[r]) + 1 {
      NoEarlyLeave(c, s, r, BarrierNo(s[r]));
      assert b' == b.(left := b.left[r := b.left[r] + 1]);
      assert A.Leave(c.size, b, b', r);
    } else {
      assert b' == b;
    }
  }

  /** Every action is an abstract move of its rank, or invisible. */
  lemma StepRefines(c: Config, s: State, ev: Event)
    requires Inv(c, s) && Enabled(c, s, ev)
    ensures Inv(c, Step(c, s, ev))
    ensures A.Move(c.size, Abs(c, s), Abs(c, Step(c, s, ev)), ev.r)
  {
    StepKeepsInv(c, s, ev);
    if ev.GpuStep? {
      GpuRefines(c, s, ev.r, GpuNext(c, ev.r, s[ev.r]));
    } else {
      OtherStepsKeepPc(c, s, ev);
      SamePcSameAbs(c, s, Step(c, s, ev));
    }
  }

  lemma SamePcSameAbs(c: Config, s: State, s': State)
    requires Inv(c, s) && Inv(c, s')
    requires forall r | 0 <= r < c.size :: s'[r].gpu == s[r].gpu && s'[r].epoch == s[r].epoch
    ensures Abs(c, s') == Abs(c, s)
  {
  }

  lemma OtherStepsKeepPc(c: Config, s: State, ev: Event)
    requires Shape(c, s) && Enabled(c, s, ev) && !ev.GpuStep?
    ensures |Step(c, s, ev)| == c.size
    ensures forall r | 0 <= r < c.size ::
              Step(c, s, ev)[r].gpu == s[r].gpu && Step(c, s, ev)[r].epoch == s[r].epoch
  {
  }

  // ---------------------------------------------------------------- the ring put

  /** Number of puts the kernel has triggered. */
  function PutsTriggered(rk: Rank): nat {
    match rk.gpu
    case At(b, _) => if b == 0 then rk.epoch else rk.epoch + 1
    case Trigger(b, _) => if b == 0 then rk.epoch else rk.epoch + 1
    case Poll(b, _) => if b == 0 then rk.epoch else rk.epoch + 1
    case Mark(b, _) => if b == 0 then rk.epoch else rk.epoch + 1
    case PutMark => rk.epoch + 1
    case Verify => rk.epoch + 1
    case _ => rk.epoch
  }

  /** Messages sent to the next rank so far: in each epoch an addition, the put, two additions. */
  function Sent(rk: Rank): int {
    Triggered(rk, 0) + PutsTriggered(rk)
  }

  /** How many of the first `m` messages are puts. */
  function PutsAmong(m: nat): nat {
    (m + 2) / 4
  }

  /** Message number `m` from rank q to the next one is what it should be, and a put not read
      yet finds its value still in the source buffer. */
  predicate MsgOk(q: nat, source: Value, m: nat, msg: Msg) {
    if m % 4 == 1 then
      (msg.Put? && source == Tagged(q, m / 4)) || msg == PutRead(Tagged(q, m / 4))
    else msg == Add(0)
  }

  ghost predicate RingOk(c: Config, q: nat, sender: Rank, receiver: Rank)
    requires c.Valid() && q < c.size && Fits(c, sender) && Fits(c, receiver) && c.Phases() > 0
  {
    var out := sender.out[SendTo(c.size, 0, q)];
    var d := Sent(sender) - |out|;
    && d >= 0
    && (forall i | 0 <= i < |out| :: MsgOk(q, sender.source, d + i, out[i]))
    && receiver.cnt[0] == d - PutsAmong(d)
    && receiver.recv == (if PutsAmong(d) == 0 then Unset else Tagged(q, PutsAmong(d) - 1))
  }

  /** Other channels carry no puts. */
  predicate NoPuts(out: seq<Msg>) {
    forall i | 0 <= i < |out| :: out[i].Add?
  }

  ghost predicate SelfOk(c: Config, r: nat, rk: Rank) {
    && (rk.gpu.PutWait? || rk.gpu.PutTrigger? ==> rk.source == Tagged(r, rk.epoch))
    && rk.errors == 0
  }

  ghost predicate RingInv(c: Config, s: State)
    requires Shape(c, s)
  {
    && c.Phases() > 0
    && (forall r | 0 <= r < c.size :: SelfOk(c, r, s[r]))
    && (forall q | 0 <= q < c.size :: RingOk(c, q, s[q], s[SendTo(c.size, 0, q)]))
    && (forall q, t | 0 <= q < c.size && 0 <= t < c.size && t != SendTo(c.size, 0, q) :: NoPuts(s[q].out[t]))
  }

  ghost predicate OrderedInv(c: Config, s: State) {
    Inv(c, s) && c.ordered && RingInv(c, s)
  }

  lemma OrderedInit(c: Config)
    requires c.Valid() && c.ordered
    ensures OrderedInv(c, Init(c))
  {
    InitInv(c);
    PutTargetIsPhaseZero(c, 0);
  }

  /** When a rank is about to overwrite its send buffer, its last put has been delivered. */
  lemma SourceIsFree(c: Config, s: State, r: nat)
    requires OrderedInv(c, s) && r < c.size && s[r].gpu.WriteSource?
    ensures var out := s[r].out[SendTo(c.size, 0, r)];
            forall i | 0 <= i < |out| :: out[i] == Add(0)
  {
    var t := SendTo(c.size, 0, r);
    NoEarlyLeave(c, s, r, BarrierNo(s[r]));
    CounterConservation(c, s, r, 0);
    assert RingOk(c, r, s[r], s[t]);
    assert RankOk(c, s[t]);
    assert Seen(s[t], 0) >= 3 * s[r].epoch;
    var out := s[r].out[t];
    forall i | 0 <= i < |out| ensures out[i] == Add(0) {
      assert MsgOk(r, s[r].source, Sent(s[r]) - |out| + i, out[i]);
    }
  }

  /** A verification in epoch e reads exactly the value the previous rank prepared for epoch e:
      it has arrived and has not been overwritten. */
  lemma VerificationReadsFreshValue(c: Config, s: State, r: nat)
    requires OrderedInv(c, s) && r < c.size && s[r].gpu.Verify?
    ensures s[r].recv == Tagged(Sender(c, r), s[r].epoch)
  {
    var q := RecvFrom(c.size, 0, r);
    assert Pow2(0) == 1;
    assert q == Sender(c, r);
    CounterConservation(c, s, q, 0);
    assert RingOk(c, q, s[q], s[r]);
    assert RankOk(c, s[r]) && RankOk(c, s[q]);
    if Left(c, s[q]) >= 3 * s[r].epoch + 4 { NoEarlyLeave(c, s, q, 3 * s[r].epoch + 4); }
  }

  // ---------------------------------------------------------------- every action keeps it

  /** A kernel step sends to the successor when it triggers phase 0 or the put, and only then. */
  predicate SendsToNext(g: Gpu) { (g.Trigger? && g.p == 0) || g.PutTrigger? }

  lemma SentCounts(c: Config, q: nat, rk: Rank)
    requires c.Valid() && q < c.size && RankOk(c, rk) && GpuEnabled(c, rk) && c.Phases() > 0
    ensures Sent(GpuNext(c, q, rk)) == Sent(rk) + if SendsToNext(rk.gpu) then 1 else 0
    ensures rk.gpu.WriteSource? || GpuNext(c, q, rk).source == rk.source
  {
  }

  /** The put is message 4 * epoch + 1 to the successor, the additions are the others. */
  lemma SentNumbers(c: Config, rk: Rank)
    requires c.Valid() && Fits(c, rk) && c.Phases() > 0
    ensures SendsToNext(rk.gpu) ==> Sent(rk) >= 0
    ensures rk.gpu.PutTrigger? ==> Sent(rk) == 4 * rk.epoch + 1
    ensures rk.gpu.Trigger? && rk.gpu.p == 0 ==> Sent(rk) == 4 * rk.epoch + if rk.gpu.b == 0 then 0 else rk.gpu.b + 1
  {
  }

  /** The next message a rank sends to its successor has the kind its number demands. */
  lemma GpuSendsNext(c: Config, q: nat, rk: Rank)
    requires c.Valid() && q < c.size && RankOk(c, rk) && GpuEnabled(c, rk) && c.Phases() > 0
    requires rk.gpu.PutTrigger? ==> rk.source == Tagged(q, rk.epoch)
    ensures var t, rk' := SendTo(c.size, 0, q), GpuNext(c, q, rk);
            && |rk'.out| == c.size
            && (if SendsToNext(rk.gpu) then
                  exists msg :: rk'.out[t] == rk.out[t] + [msg] && MsgOk(q, rk.source, Sent(rk), msg)
                else rk'.out[t] == rk.out[t])
  {
    GpuSends(c, q, rk);
    SentNumbers(c, rk);
    if rk.gpu.Trigger? && rk.gpu.p > 0 { TargetsDistinct(c.size, 0, rk.gpu.p, q); }
    if SendsToNext(rk.gpu) { assert MsgOk(q, rk.source, Sent(rk), if rk.gpu.PutTrigger? then Put else Add(0)); }
  }

  /** The messages of a channel with one more at its end. */
  lemma ChannelGrows(q: nat, source: Value, d: nat, out: seq<Msg>, msg: Msg)
    requires forall i | 0 <= i < |out| :: MsgOk(q, source, d + i, out[i])
    requires MsgOk(q, source, d + |out|, msg)
    ensures forall i | 0 <= i < |out + [msg]| :: MsgOk(q, source, d + i, (out + [msg])[i])
  {
  }

  lemma GpuKeepsRing(c: Config, s: State, q: nat, rk': Rank)
    requires OrderedInv(c, s) && q < c.size && GpuEnabled(c, s[q]) && rk' == GpuNext(c, q, s[q]) && Fits(c, rk')
    ensures RingOk(c, q, rk', s[SendTo(c.size, 0, q)])
  {
    var t, rk := SendTo(c.size, 0, q), s[q];
    assert RankOk(c, rk) && SelfOk(c, q, rk) && RingOk(c, q, rk, s[t]);
    GpuSendsNext(c, q, rk);
    SentCounts(c, q, rk);
    if rk.gpu.WriteSource? { SourceIsFree(c, s, q); }
    RingSends(c, q, rk, rk', s[t]);
  }

  lemma RingSends(c: Config, q: nat, rk: Rank, rk': Rank, receiver: Rank)
    requires c.Valid() && q < c.size && c.Phases() > 0 && Fits(c, rk) && Fits(c, rk') && Fits(c, receiver)
    requires RingOk(c, q, rk, receiver)
    requires Sent(rk') == Sent(rk) + if SendsToNext(rk.gpu) then 1 else 0
    requires rk.gpu.WriteSource? || rk'.source == rk.source
    requires var t := SendTo(c.size, 0, q);
             if SendsToNext(rk.gpu) then
               exists msg :: rk'.out[t] == rk.out[t] + [msg] && MsgOk(q, rk.source, Sent(rk), msg)
             else rk'.out[t] == rk.out[t]
    requires rk.gpu.WriteSource? ==>
               var out := rk.out[SendTo(c.size, 0, q)]; forall i | 0 <= i < |out| :: out[i] == Add(0)
    ensures RingOk(c, q, rk', receiver)
  {
    var t := SendTo(c.size, 0, q);
    var out := rk.out[t];
    var d: nat := Sent(rk) - |out|;
    if rk.gpu.WriteSource? {
      forall i | 0 <= i < |out| ensures MsgOk(q, rk'.source, d + i, out[i]) {
        assert MsgOk(q, rk.source, d + i, out[i]);
      }
    } else if SendsToNext(rk.gpu) {
      var msg :| rk'.out[t] == out + [msg] && MsgOk(q, rk.source, Sent(rk), msg);
      ChannelGrows(q, rk.source, d, out, msg);
    }
  }

  lemma GpuKeepsSelf(c: Config, s: State, r: nat)
    requires OrderedInv(c, s) && r < c.size && GpuEnabled(c, s[r])
    ensures SelfOk(c, r, GpuNext(c, r, s[r])) && GpuNext(c, r, s[r]).recv == s[r].recv
  {
    assert SelfOk(c, r, s[r]);
    if s[r].gpu.Verify? { VerificationReadsFreshValue(c, s, r); }
  }

  lemma GpuKeepsNoPuts(c: Config, r: nat, rk: Rank, t: nat)
    requires c.Valid() && r < c.size && RankOk(c, rk) && GpuEnabled(c, rk) && c.Phases() > 0
    requires t < c.size && t != SendTo(c.size, 0, r) && NoPuts(rk.out[t])
    ensures |GpuNext(c, r, rk).out| == c.size && NoPuts(GpuNext(c, r, rk).out[t])
  {
    GpuSends(c, r, rk);
  }

  lemma GpuKeepsRings(c: Config, s: State, r: nat, rk': Rank, q: nat)
    requires OrderedInv(c, s) && r < c.size && GpuEnabled(c, s[r]) && rk' == GpuNext(c, r, s[r]) && Fits(c, rk')
    requires q < c.size
    ensures var s' := s[r := rk'];
            SelfOk(c, q, s'[q]) && RingOk(c, q, s'[q], s'[SendTo(c.size, 0, q)])
  {
    var u := SendTo(c.size, 0, q);
    assert SelfOk(c, q, s[q]) && RingOk(c, q, s[q], s[u]);
    GpuKeepsSelf(c, s, r);
    GpuSends(c, r, s[r]);
    if q == r {
      GpuKeepsRing(c, s, r, rk');
    } else {
      SameRing(c, q, s[q], s[u], s[q], s[r := rk'][u]);
    }
  }

  lemma GpuKeepsRingInv(c: Config, s: State, r: nat)
    requires OrderedInv(c, s) && r < c.size && GpuEnabled(c, s[r]) && Shape(c, s[r := GpuNext(c, r, s[r])])
    ensures RingInv(c, s[r := GpuNext(c, r, s[r])])
  {
    var rk' := GpuNext(c, r, s[r]);
    var s' := s[r := rk'];
    forall q | 0 <= q < c.size ensures SelfOk(c, q, s'[q]) && RingOk(c, q, s'[q], s'[SendTo(c.size, 0, q)]) {
      GpuKeepsRings(c, s, r, rk', q);
    }
    forall q, t | 0 <= q < c.size && 0 <= t < c.size && t != SendTo(c.size, 0, q) ensures NoPuts(s'[q].out[t]) {
      assert NoPuts(s[q].out[t]);
      if q == r { GpuKeepsNoPuts(c, r, s[r], t); }
    }
  }

  lemma GpuKeepsOrdered(c: Config, s: State, r: nat)
    requires OrderedInv(c, s) && r < c.size && GpuEnabled(c, s[r])
    ensures OrderedInv(c, s[r := GpuNext(c, r, s[r])])
  {
    GpuKeepsInv(c, s, r);
    GpuKeepsRingInv(c, s, r);
  }

  /** What the ring invariant of a link looks at. */
  lemma SameRing(c: Config, q: nat, sender: Rank, receiver: Rank, sender': Rank, receiver': Rank)
    requires c.Valid() && q < c.size && c.Phases() > 0
    requires Fits(c, sender) && Fits(c, receiver) && Fits(c, sender') && Fits(c, receiver')
    requires RingOk(c, q, sender, receiver)
    requires sender'.gpu == sender.gpu && sender'.epoch == sender.epoch && sender'.source == sender.source
    requires sender'.out[SendTo(c.size, 0, q)] == sender.out[SendTo(c.size, 0, q)]
    requires receiver'.cnt[0] == receiver.cnt[0] && receiver'.recv == receiver.recv
    ensures RingOk(c, q, sender', receiver')
  {
    assert Sent(sender') == Sent(sender);
  }

  lemma PutsAmongNext(d: nat)
    ensures PutsAmong(d + 1) == if d % 4 == 1 then PutsAmong(d) + 1 else PutsAmong(d)
    ensures d % 4 == 1 ==> PutsAmong(d) == d / 4
  {
  }

  /** The head of the channel to the next rank is received with the effect its number demands. */
  lemma RingDelivers(c: Config, q: nat, sender: Rank, receiver: Rank, sender': Rank, receiver': Rank)
    requires c.Valid() && q < c.size && c.Phases() > 0
    requires Fits(c, sender) && Fits(c, receiver) && Fits(c, sender') && Fits(c, receiver')
    requires RingOk(c, q, sender, receiver)
    requires sender'.gpu == sender.gpu && sender'.epoch == sender.epoch && sender'.source == sender.source
    requires var out, out' := sender.out[SendTo(c.size, 0, q)], sender'.out[SendTo(c.size, 0, q)];
             && |out| > 0 && !out[0].Put? && out' == out[1..]
             && (out[0].Add? ==> out[0].phase < c.Phases())
             && receiver' == Land(c, receiver, out[0])
    ensures RingOk(c, q, sender', receiver')
  {
    var out := sender.out[SendTo(c.size, 0, q)];
    var d := Sent(sender) - |out|;
    assert Sent(sender') == Sent(sender);
    assert MsgOk(q, sender.source, d + 0, out[0]);
    PutsAmongNext(d);
    forall i | 0 <= i < |out| - 1 ensures MsgOk(q, sender.source, d + 1 + i, out[1..][i]) {
      assert MsgOk(q, sender.source, d + (i + 1), out[i + 1]);
    }
  }

  lemma DeliverKeepsRing(c: Config, s: State, r: nat, t: nat, q: nat)
    requires Shape(c, s) && RingInv(c, s) && Deliverable(c, s, r, t, 0) && q < c.size
    requires s[r].out[t][0].Add? ==> t == SendTo(c.size, s[r].out[t][0].phase, r)
    ensures var s' := s[r := Taken(s[r], t, 0)][t := Land(c, s[t], s[r].out[t][0])];
            var u := SendTo(c.size, 0, q);
            Fits(c, s'[q]) && Fits(c, s'[u]) && RingOk(c, q, s'[q], s'[u])
  {
    var u := SendTo(c.size, 0, q);
    var msg := s[r].out[t][0];
    var s' := s[r := Taken(s[r], t, 0)][t := Land(c, s[t], msg)];
    assert RingOk(c, q, s[q], s[u]);
    if q == r && u == t {
      assert Without(s[r].out[t], 0) == s[r].out[t][1..];
      RingDelivers(c, q, s[q], s[u], s'[q], s'[u]);
    } else {
      if u == t {
        // another channel into the same receiver: an addition of a later phase
        PeersInverse(c.size, 0, q);
        PeersInverse(c.size, 0, r);
        assert NoPuts(s[r].out[t]);
        assert msg.phase != 0;
      }
      SameRing(c, q, s[q], s[u], s'[q], s'[u]);
    }
  }

  lemma DeliverKeepsRingInv(c: Config, s: State, r: nat, t: nat)
    requires Shape(c, s) && RingInv(c, s) && Deliverable(c, s, r, t, 0)
    requires s[r].out[t][0].Add? ==> t == SendTo(c.size, s[r].out[t][0].phase, r)
    requires Shape(c, s[r := Taken(s[r], t, 0)][t := Land(c, s[t], s[r].out[t][0])])
    ensures RingInv(c, s[r := Taken(s[r], t, 0)][t := Land(c, s[t], s[r].out[t][0])])
  {
    var s' := s[r := Taken(s[r], t, 0)][t := Land(c, s[t], s[r].out[t][0])];
    forall q | 0 <= q < c.size ensures SelfOk(c, q, s'[q]) { assert SelfOk(c, q, s[q]); }
    forall q | 0 <= q < c.size ensures RingOk(c, q, s'[q], s'[SendTo(c.size, 0, q)]) {
      DeliverKeepsRing(c, s, r, t, q);
    }
    forall q, u | 0 <= q < c.size && 0 <= u < c.size && u != SendTo(c.size, 0, q) ensures NoPuts(s'[q].out[u]) {
      assert NoPuts(s[q].out[u]);
    }
  }

  lemma DeliverKeepsOrdered(c: Config, s: State, r: nat, t: nat)
    requires OrderedInv(c, s) && Deliverable(c, s, r, t, 0)
    ensures OrderedInv(c, s[r := Taken(s[r], t, 0)][t := Land(c, s[t], s[r].out[t][0])])
  {
    DeliverKeepsInv(c, s, r, t, 0);
    if s[r].out[t][0].Add? { AddHasItsChannel(c, s, r, t, 0); }
    DeliverKeepsRingInv(c, s, r, t);
  }

  lemma ReadKeepsChannel(c: Config, q: nat, sender: Rank, receiver: Rank, i: nat)
    requires c.Valid() && q < c.size && c.Phases() > 0 && Fits(c, sender) && Fits(c, receiver)
    requires RingOk(c, q, sender, receiver)
    requires var out := sender.out[SendTo(c.size, 0, q)]; i < |out| && out[i].Put?
    ensures RingOk(c, q, SourceRead(sender, SendTo(c.size, 0, q), i), receiver)
  {
    var u := SendTo(c.size, 0, q);
    var sender' := SourceRead(sender, u, i);
    var d := Sent(sender) - |sender.out[u]|;
    assert Sent(sender') == Sent(sender);
    forall m | 0 <= m < |sender'.out[u]| ensures MsgOk(q, sender'.source, d + m, sender'.out[u][m]) {
      assert MsgOk(q, sender.source, d + m, sender.out[u][m]);
    }
  }

  lemma ReadKeepsRing(c: Config, s: State, r: nat, t: nat, i: nat, q: nat)
    requires Shape(c, s) && RingInv(c, s) && r < c.size && InFlight(c, s[r], t, i) && s[r].out[t][i].Put?
    requires q < c.size
    ensures var s' := s[r := SourceRead(s[r], t, i)];
            RingOk(c, q, s'[q], s'[SendTo(c.size, 0, q)])
  {
    var s' := s[r := SourceRead(s[r], t, i)];
    var u := SendTo(c.size, 0, q);
    assert RingOk(c, q, s[q], s[u]);
    if q == r && u == t {
      ReadKeepsChannel(c, q, s[q], s[u], i);
    } else {
      SameRing(c, q, s[q], s[u], s'[q], s'[u]);
    }
  }

  lemma ReadKeepsOrdered(c: Config, s: State, r: nat, t: nat, i: nat)
    requires OrderedInv(c, s) && r < c.size && InFlight(c, s[r], t, i) && s[r].out[t][i].Put?
    ensures OrderedInv(c, s[r := SourceRead(s[r], t, i)])
  {
    var s' := s[r := SourceRead(s[r], t, i)];
    ReadKeepsInv(c, s, r, t, i);
    assert t == SendTo(c.size, 0, r) || NoPuts(s[r].out[t]);
    forall q | 0 <= q < c.size ensures SelfOk(c, q, s'[q]) && RingOk(c, q, s'[q], s'[SendTo(c.size, 0, q)]) {
      assert SelfOk(c, q, s[q]);
      ReadKeepsRing(c, s, r, t, i, q);
    }
    forall q, u | 0 <= q < c.size && 0 <= u < c.size && u != SendTo(c.size, 0, q) ensures NoPuts(s'[q].out[u]) {
      assert NoPuts(s[q].out[u]);
    }
  }

  lemma ProxyKeepsOrdered(c: Config, s: State, r: nat, x: nat, ok: bool)
    requires OrderedInv(c, s) && r < c.size && ProxyEnabled(s[r].win, x)
    ensures OrderedInv(c, s[r := s[r].(win := ProxyNext(s[r].win, x, ok))])
  {
    var s' := s[r := s[r].(win := ProxyNext(s[r].win, x, ok))];
    ProxyKeepsInv(c, s, r, x, ok);
    forall q | 0 <= q < c.size ensures SelfOk(c, q, s'[q]) && RingOk(c, q, s'[q], s'[SendTo(c.size, 0, q)]) {
      var u := SendTo(c.size, 0, q);
      assert SelfOk(c, q, s[q]) && RingOk(c, q, s[q], s[u]);
      SameRing(c, q, s[q], s[u], s'[q], s'[u]);
    }
    forall q, u | 0 <= q < c.size && 0 <= u < c.size && u != SendTo(c.size, 0, q) ensures NoPuts(s'[q].out[u]) {
      assert NoPuts(s[q].out[u]);
    }
  }

  lemma StepKeepsOrdered(c: Config, s: State, ev: Event)
    requires OrderedInv(c, s) && Enabled(c, s, ev)
    ensures OrderedInv(c, Step(c, s, ev))
  {
    match ev
    case GpuStep(r) => GpuKeepsOrdered(c, s, r);
    case ProxyStep(r, x, ok) => ProxyKeepsOrdered(c, s, r, x, ok);
    case ReadSource(r, t, i) => ReadKeepsOrdered(c, s, r, t, i);
    case Deliver(r, t, i) => DeliverKeepsOrdered(c, s, r, t);
  }

  lemma {:induction false} RunOrdered(c: Config, schedule: seq<Event>)
    requires c.Valid() && c.ordered
    ensures OrderedInv(c, Run(c, schedule))
  {
    if schedule == [] {
      OrderedInit(c);
    } else {
      RunOrdered(c, schedule[..|schedule| - 1]);
      var s, ev := Run(c, schedule[..|schedule| - 1]), schedule[|schedule| - 1];
      if Enabled(c, s, ev) { StepKeepsOrdered(c, s, ev); }
    }
  }

  /** With in-order delivery between two ranks no verification ever fails, for every number of
      ranks and epochs, every window and every schedule, failed re-queues included. */
  lemma EveryVerificationPasses(c: Config, schedule: seq<Event>, r: nat)
    requires c.Valid() && c.ordered && r < c.size
    ensures |Run(c, schedule)| == c.size && Run(c, schedule)[r].errors == 0
  {
    RunOrdered(c, schedule);
    assert SelfOk(c, r, Run(c, schedule)[r]);
  }
}
