/** Calling the message-passing barrier again after a call that gave up. The caller cannot see that
    it did, the receive of the failed call stays posted, and from then on the rank is one call
    ahead of the others: its next call completes with their first one. */
module FabricRecall {
  import opened Dissemination
  import opened FabricBarrier
  import opened FabricProgress

  /** Every rank that is back from its last call without an error finds that all ranks have made as many
      calls. Every prefix of a schedule is a schedule, so this is said of each return. */
  ghost predicate Safe(c: Config, s: State) {
    |s| == c.size && forall r, q | 0 <= r < c.size && 0 <= q < c.size :: s[r].pc.Outside? ==> s[q].bar >= s[r].bar
  }

  lemma NoRecallIsSafe(c: Config, schedule: seq<Event>)
    requires c.Valid() && NoRecall(c, schedule)
    ensures Safe(c, Run(c, schedule))
  {
    var s := Run(c, schedule);
    RunInv(c, schedule);
    forall r, q | 0 <= r < c.size && 0 <= q < c.size ensures s[r].pc.Outside? ==> s[q].bar >= s[r].bar {
      BarrierSafety(c, schedule, r, s[r].bar);
    }
  }

  // ---------------------------------------------------------------- one rank gives up

  /** Rank 0 enters, posts its receive and finds no room twice. */
  function GiveUpFirst(): seq<Event> { [Cpu(0, true), Cpu(0, true), Cpu(0, true), Cpu(0, true)] }

  lemma RoundsPositive(c: Config)
    requires c.size >= 2
    ensures c.Rounds() >= 1
  {
    assert Pow2(0) == 1;
  }

  /** One more action of rank r at the end of a schedule. */
  lemma CpuMoves(c: Config, schedule: seq<Event>, s: State, r: nat, full: bool)
    requires c.Valid() && s == Run(c, schedule) && r < |s| && CpuEnabled(c, s[r])
    ensures r < c.size && Fits(c, s[r]) && Run(c, schedule + [Cpu(r, full)]) == s[r := CpuNext(c, r, s[r], full)]
  {
    RunShape(c, schedule);
    Extend(c, schedule, Cpu(r, full));
  }

  lemma RankZeroMoves(c: Config, schedule: seq<Event>, s: State, x: Rank)
    requires c.Valid() && 0 < |s| && s[0 := x] == Run(c, schedule) && CpuEnabled(c, x)
    ensures Fits(c, x) && Run(c, schedule + [Cpu(0, true)]) == s[0 := CpuNext(c, 0, x, true)]
  {
    CpuMoves(c, schedule, s[0 := x], 0, true);
    assert s[0 := x][0 := CpuNext(c, 0, x, true)] == s[0 := CpuNext(c, 0, x, true)];
  }

  /** For every number of ranks: the call returns although no other rank has made its own. */
  lemma FailedCallReturnsEarly(c: Config) returns (rk: Rank)
    requires c.size >= 2 && c.calls >= 1
    ensures |Init(c)| == c.size && Run(c, GiveUpFirst()) == Init(c)[0 := rk]
    ensures rk == Init(c)[0].(pc := Failed(0), bar := 1, recvs := [0], errors := 1)
  {
    RoundsPositive(c);
    var ev, s := Cpu(0, true), Init(c);
    rk := s[0].(pc := Failed(0), bar := 1, recvs := [0], errors := 1);
    assert s[0 := s[0]] == s == Run(c, []);
    assert s[0].recvs + [0] == [0];
    RankZeroMoves(c, [], s, s[0]);
    RankZeroMoves(c, [] + [ev], s, s[0].(pc := AtRound(0), bar := 1));
    RankZeroMoves(c, ([] + [ev]) + [ev], s, s[0].(pc := Inject(0), bar := 1, recvs := [0]));
    RankZeroMoves(c, (([] + [ev]) + [ev]) + [ev], s, s[0].(pc := Retry(0), bar := 1, recvs := [0]));
    assert ((([] + [ev]) + [ev]) + [ev]) + [ev] == GiveUpFirst();
  }

  /** The next call of that rank takes, for its second barrier, a message of the first. */
  lemma StaleReceiveTakesOtherMessage(c: Config) returns (schedule: seq<Event>)
    requires c.size >= 2 && c.calls >= 2
    ensures var s := Run(c, schedule);
            && c.Rounds() > 0 && Shape(c, s) && Enabled(c, s, Match(0, 0)) && s[0].bar == 2
            && s[RecvFrom(c.size, 0, 0)].out[0][0] == Token(1, 0)
  {
    RoundsPositive(c);
    var rk := FailedCallReturnsEarly(c);
    var q := RecvFrom(c.size, 0, 0);
    var s0 := Run(c, GiveUpFirst());
    CpuMoves(c, GiveUpFirst(), s0, 0, false);
    var h1, s1 := GiveUpFirst() + [Cpu(0, false)], s0[0 := CpuNext(c, 0, rk, false)];
    CpuMoves(c, h1, s1, q, false);
    var q1 := CpuNext(c, q, s1[q], false);
    var h2, s2 := h1 + [Cpu(q, false)], s1[q := q1];
    CpuMoves(c, h2, s2, q, false);
    var q2 := CpuNext(c, q, q1, false);
    var h3, s3 := h2 + [Cpu(q, false)], s2[q := q2];
    CpuMoves(c, h3, s3, q, false);
    schedule := h3 + [Cpu(q, false)];
    RunShape(c, schedule);
    assert Run(c, schedule)[0].recvs == [0];
  }

  // ---------------------------------------------------------------- one call ahead

  /** `l` is `s` with rank 0 one failed call ahead, the failed call's receive in front of its own. */
  ghost predicate Ahead(c: Config, s: State, l: State) {
    && c.size >= 2 && |s| == |l| == c.size
    && (forall r, t | 0 <= r < c.size && 0 <= t < c.size ::
          |s[r].out| == |l[r].out| == c.size && |l[r].out[t]| == |s[r].out[t]|)
    && (forall r | 1 <= r < c.size ::
          l[r].pc == s[r].pc && l[r].bar == s[r].bar && l[r].recvs == s[r].recvs && l[r].cq == s[r].cq)
    && l[0].pc == (if s[0].pc.Outside? && s[0].bar == 0 then Failed(0) else s[0].pc)
    && l[0].bar == s[0].bar + 1 && l[0].recvs == [0] + s[0].recvs && l[0].cq == s[0].cq
  }

  /** Steps without a give-up keep the rank one call ahead. */
  lemma AheadStays(c: Config, b: Config, s: State, l: State, ev: Event)
    requires c.calls == 1 && b == Config(c.size, b.calls) && b.calls >= 2
    requires Inv(c, s) && Shape(b, l) && Ahead(c, s, l) && (forall r | 0 <= r < c.size :: Unspoiled(s[r]))
    requires Enabled(c, s, ev) && !GivesUp(s, ev)
    ensures Enabled(b, l, ev) && Ahead(c, Step(c, s, ev), Step(b, l, ev))
  {
    if ev.Cpu? { CpuStaysAhead(c, b, s, l, ev.r, ev.full); } else { MatchStaysAhead(c, b, s, l, ev.r, ev.k); }
  }

  /** How rank r of the late run relates to rank r of the other. */
  predicate RankAhead(c: Config, r: nat, x: Rank, y: Rank) {
    && |x.out| == |y.out| == c.size && (forall t | 0 <= t < c.size :: |y.out[t]| == |x.out[t]|)
    && y.cq == x.cq
    && if r == 0 then
         && y.pc == (if x.pc.Outside? && x.bar == 0 then Failed(0) else x.pc)
         && y.bar == x.bar + 1 && y.recvs == [0] + x.recvs
       else y.pc == x.pc && y.bar == x.bar && y.recvs == x.recvs
  }

  lemma RankStaysAhead(c: Config, b: Config, r: nat, x: Rank, y: Rank, full: bool)
    requires c.calls == 1 && b == Config(c.size, b.calls) && b.calls >= 2 && r < c.size
    requires RankOk(c, x) && Unspoiled(x) && Fits(b, y) && RankAhead(c, r, x, y)
    requires CpuEnabled(c, x) && !(x.pc.Retry? && full)
    ensures CpuEnabled(b, y) && RankAhead(c, r, CpuNext(c, r, x, full), CpuNext(b, r, y, full))
  {
  }

  lemma CpuStaysAhead(c: Config, b: Config, s: State, l: State, r: nat, full: bool)
    requires c.calls == 1 && b == Config(c.size, b.calls) && b.calls >= 2
    requires Inv(c, s) && Shape(b, l) && Ahead(c, s, l) && r < c.size && Unspoiled(s[r])
    requires CpuEnabled(c, s[r]) && !(s[r].pc.Retry? && full)
    ensures CpuEnabled(b, l[r]) && Ahead(c, Step(c, s, Cpu(r, full)), Step(b, l, Cpu(r, full)))
  {
    assert RankOk(c, s[r]) && RankAhead(c, r, s[r], l[r]);
    RankStaysAhead(c, b, r, s[r], l[r], full);
  }

  lemma MatchStaysAhead(c: Config, b: Config, s: State, l: State, r: nat, k: nat)
    requires b == Config(c.size, b.calls)
    requires Inv(c, s) && Shape(b, l) && Ahead(c, s, l) && Enabled(c, s, Match(r, k))
    ensures Enabled(b, l, Match(r, k)) && Ahead(c, Step(c, s, Match(r, k)), Step(b, l, Match(r, k)))
  {
    MatchIsCurrent(c, s, r, k);
    var q := RecvFrom(c.size, k, r);
    assert |l[q].out[r]| == |s[q].out[r]|;
    assert l[r].recvs == if r == 0 then [0, k] else [k];
    WithoutFirst(k);
  }

  lemma WithoutFirst(k: nat)
    ensures Without([0, k], k) == [0] && Without([k], k) == []
  {
    assert [0, k][1..] == [k];
  }

  /** A good run of one call on every rank, made after rank 0 has given up once. */
  lemma {:induction false} RunAhead(c: Config, b: Config, schedule: seq<Event>)
    returns (late: seq<Event>, s: State, l: State)
    requires c.size >= 2 && c.calls == 1 && b == Config(c.size, b.calls) && b.calls >= 2
    requires NoBadRefusal(c, schedule)
    ensures s == Run(c, schedule) && l == Run(b, GiveUpFirst() + late) && Ahead(c, s, l)
  {
    if schedule == [] {
      var rk := FailedCallReturnsEarly(b);
      late, s := [], Init(c);
      assert GiveUpFirst() + late == GiveUpFirst();
      l := Run(b, GiveUpFirst());
    } else {
      var front, ev := schedule[..|schedule| - 1], schedule[|schedule| - 1];
      var before, s0, l0 := RunAhead(c, b, front);
      GoodRun(c, front);
      RunShape(b, GiveUpFirst() + before);
      late, s, l := OneMoreAhead(c, b, s0, l0, before, ev);
    }
  }

  lemma OneMoreAhead(c: Config, b: Config, s0: State, l0: State, before: seq<Event>, ev: Event)
    returns (late: seq<Event>, s: State, l: State)
    requires c.calls == 1 && b == Config(c.size, b.calls) && b.calls >= 2
    requires Inv(c, s0) && Shape(b, l0) && Ahead(c, s0, l0) && (forall r | 0 <= r < c.size :: Unspoiled(s0[r]))
    requires l0 == Run(b, GiveUpFirst() + before) && !GivesUp(s0, ev)
    ensures s == Next(c, s0, ev) && l == Run(b, GiveUpFirst() + late) && Ahead(c, s, l)
  {
    if Enabled(c, s0, ev) {
      late, s, l := before + [ev], Step(c, s0, ev), Step(b, l0, ev);
      AheadStays(c, b, s0, l0, ev);
      Extend(b, GiveUpFirst() + before, ev);
      assert GiveUpFirst() + late == (GiveUpFirst() + before) + [ev];
    } else {
      late, s, l := before, s0, l0;
    }
  }

  /** For every number of ranks and two or more calls each: a run with one failed call, after which the
      rank's next call returns without an error while all others have made one call only. */
  lemma RecallReturnsEarly(b: Config) returns (schedule: seq<Event>)
    requires b.size >= 2 && b.calls >= 2
    ensures var l := Run(b, schedule);
            && |l| == b.size && l[0].pc.Outside? && l[0].bar == 2
            && forall r | 1 <= r < b.size :: l[r].pc.Outside? && l[r].bar == 1
  {
    var c := Config(b.size, 1);
    var whole := CanFinish(c, []);
    var late, s, l := RunAhead(c, b, whole);
    schedule := GiveUpFirst() + late;
  }

  // ---------------------------------------------------------------- exactly when

  lemma {:induction false} FewCallsNoRecall(c: Config, schedule: seq<Event>)
    requires c.Valid() && (c.size == 1 || c.calls <= 1)
    ensures NoRecall(c, schedule) && Inv(c, Run(c, schedule))
  {
    if schedule != [] {
      FewCallsNoRecall(c, schedule[..|schedule| - 1]);
      var s, ev := Run(c, schedule[..|schedule| - 1]), schedule[|schedule| - 1];
      if Enabled(c, s, ev) { assert RankOk(c, s[ev.r]); }
    }
    RunInv(c, schedule);
  }

  /** Whether the second try of a send may be refused decides: every schedule is safe if it may not, and
      if it may, only with a single rank or with no second call to follow. */
  lemma GiveUpDecides(c: Config, mayGiveUp: bool)
    requires c.Valid()
    ensures (forall schedule | mayGiveUp || NoGiveUp(c, schedule) :: Safe(c, Run(c, schedule)))
            <==> !mayGiveUp || c.size == 1 || c.calls <= 1
  {
    if !mayGiveUp || c.size == 1 || c.calls <= 1 {
      forall schedule | mayGiveUp || NoGiveUp(c, schedule) ensures Safe(c, Run(c, schedule)) {
        if mayGiveUp { FewCallsNoRecall(c, schedule); } else { NoGiveUpNoRecall(c, schedule); }
        NoRecallIsSafe(c, schedule);
      }
    } else {
      var schedule := RecallReturnsEarly(c);
      var l := Run(c, schedule);
      assert l[0].pc.Outside? && l[1].bar < l[0].bar;
    }
  }
}
