/** Progress of the message-passing barrier: how much work a run can do, which refusals of the send
    queue spoil it, and that a run without them can always be finished. */
module FabricProgress {
  import opened Arithmetic
  import opened Sums
  import opened Dissemination
  import opened FabricBarrier

  // ---------------------------------------------------------------- refusals that spoil a run

  /** The first try of a send finds no room while a completion is waiting: draining drops it. */
  predicate LosesCompletion(s: State, ev: Event) {
    ev.Cpu? && ev.full && ev.r < |s| && s[ev.r].pc.Inject? && s[ev.r].cq > 0
  }

  /** A completion is dropped in one way only: the first try to send finds no room while the round's
      message has already met its receive. */
  lemma LossExactly(c: Config, s: State, ev: Event, r: nat)
    requires Inv(c, s) && Enabled(c, s, ev) && r < c.size
    ensures |Step(c, s, ev)| == c.size
    ensures Step(c, s, ev)[r].lost > s[r].lost <==> LosesCompletion(s, ev) && ev.r == r
    ensures LosesCompletion(s, ev) <==> ev == Cpu(ev.r, true) && s[ev.r].pc.Inject? && s[ev.r].recvs == []
  {
    assert RankOk(c, s[r]) && RankOk(c, s[ev.r]);
  }

  ghost predicate NoBadRefusal(c: Config, schedule: seq<Event>) {
    schedule == [] ||
    (var s, ev := Run(c, schedule[..|schedule| - 1]), schedule[|schedule| - 1];
     NoBadRefusal(c, schedule[..|schedule| - 1]) && !GivesUp(s, ev) && !LosesCompletion(s, ev))
  }

  predicate Unspoiled(rk: Rank) { rk.lost == 0 && !rk.pc.Failed? && rk.errors == 0 }

  lemma StepStaysUnspoiled(c: Config, s: State, ev: Event, r: nat)
    requires Shape(c, s) && Enabled(c, s, ev) && r < c.size && Unspoiled(s[r])
    requires !GivesUp(s, ev) && !LosesCompletion(s, ev)
    ensures |Step(c, s, ev)| == c.size && Unspoiled(Step(c, s, ev)[r])
  {
  }

  lemma {:induction false} GoodRun(c: Config, schedule: seq<Event>)
    requires c.Valid() && NoBadRefusal(c, schedule)
    ensures NoGiveUp(c, schedule) && NoRecall(c, schedule) && Inv(c, Run(c, schedule))
    ensures forall r | 0 <= r < c.size :: Unspoiled(Run(c, schedule)[r])
  {
    if schedule == [] {
      RunInv(c, schedule);
    } else {
      GoodRun(c, schedule[..|schedule| - 1]);
      NoGiveUpNoRecall(c, schedule);
      RunInv(c, schedule);
      var s, ev := Run(c, schedule[..|schedule| - 1]), schedule[|schedule| - 1];
      if Enabled(c, s, ev) {
        forall r | 0 <= r < c.size ensures Unspoiled(Step(c, s, ev)[r]) { StepStaysUnspoiled(c, s, ev, r); }
      }
    }
  }

  // ---------------------------------------------------------------- a dropped completion is missed for ever

  /** A rank in a call with no receive left to be met and no completion left to be read. */
  predicate Deprived(rk: Rank) { rk.recvs == [] && rk.cq == 0 && (rk.pc.Retry? || rk.pc.Waiting?) }

  lemma StaysDeprived(c: Config, s: State, ev: Event, r: nat)
    requires Shape(c, s) && Enabled(c, s, ev) && r < c.size && Deprived(s[r])
    ensures |Step(c, s, ev)| == c.size
    ensures var rk' := Step(c, s, ev)[r];
            if GivesUp(s, ev) && ev.r == r then rk'.errors == s[r].errors + 1
            else Deprived(rk') && rk'.bar == s[r].bar && rk'.errors == s[r].errors
  {
  }

  lemma ErrorsStay(c: Config, s: State, ev: Event, r: nat)
    requires Shape(c, s) && Enabled(c, s, ev) && r < c.size
    ensures |Step(c, s, ev)| == c.size && Step(c, s, ev)[r].errors >= s[r].errors
  {
  }

  lemma Extend(c: Config, schedule: seq<Event>, ev: Event)
    ensures Run(c, schedule + [ev]) == Next(c, Run(c, schedule), ev)
  {
    assert (schedule + [ev])[..|schedule|] == schedule;
  }

  /** Whatever happens afterwards, calls after failed calls included: a call that has dropped its
      completion never returns without an error. */
  lemma {:induction false} LossIsForever(c: Config, schedule: seq<Event>, more: seq<Event>, r: nat)
    requires c.Valid() && NoRecall(c, schedule) && r < c.size && |Run(c, schedule)| == c.size
    requires Run(c, schedule)[r].lost > 0 && !Run(c, schedule)[r].pc.Failed?
    ensures |Run(c, schedule + more)| == c.size
    ensures var rk, rk' := Run(c, schedule)[r], Run(c, schedule + more)[r];
            rk'.errors > rk.errors || (rk'.bar == rk.bar && rk'.errors == rk.errors && Deprived(rk'))
  {
    RunShape(c, schedule + more);
    if more == [] {
      assert schedule + more == schedule;
      RunInv(c, schedule);
      assert RankOk(c, Run(c, schedule)[r]);
    } else {
      var front, ev := more[..|more| - 1], more[|more| - 1];
      LossIsForever(c, schedule, front, r);
      RunShape(c, schedule + front);
      assert schedule + more == (schedule + front) + [ev];
      Extend(c, schedule + front, ev);
      var s := Run(c, schedule + front);
      if Enabled(c, s, ev) {
        ErrorsStay(c, s, ev, r);
        if Deprived(s[r]) { StaysDeprived(c, s, ev, r); }
      }
    }
  }

  // ---------------------------------------------------------------- stuck runs

  ghost predicate Quiescent(c: Config, s: State)
    requires Shape(c, s)
  {
    forall ev :: !Enabled(c, s, ev)
  }

  /** Every rank has made all its calls and none has failed. */
  ghost predicate EveryCallCompleted(c: Config, s: State) {
    |s| == c.size && forall r | 0 <= r < c.size :: s[r].pc.Outside? && s[r].bar == c.calls && s[r].errors == 0
  }

  /** Some call has failed, or misses a completion for ever. */
  ghost predicate Spoiled(c: Config, s: State) {
    |s| == c.size && exists r: nat :: r < c.size && (s[r].errors > 0 || Deprived(s[r]))
  }

  lemma SpoiledStays(c: Config, s: State, ev: Event)
    requires Shape(c, s) && Enabled(c, s, ev) && Spoiled(c, s)
    ensures Spoiled(c, Step(c, s, ev))
  {
    var r: nat :| r < c.size && (s[r].errors > 0 || Deprived(s[r]));
    ErrorsStay(c, s, ev, r);
    if Deprived(s[r]) { StaysDeprived(c, s, ev, r); }
    assert Step(c, s, ev)[r].errors > 0 || Deprived(Step(c, s, ev)[r]);
  }

  lemma BadRefusalSpoils(c: Config, s: State, ev: Event)
    requires Inv(c, s) && Enabled(c, s, ev) && (GivesUp(s, ev) || LosesCompletion(s, ev))
    ensures Spoiled(c, Step(c, s, ev))
  {
    assert RankOk(c, s[ev.r]);
    var rk' := Step(c, s, ev)[ev.r];
    assert rk'.errors > 0 || Deprived(rk');
  }

  lemma BadRefusalsAreEnabled(c: Config, s: State, ev: Event)
    requires Shape(c, s) && (GivesUp(s, ev) || LosesCompletion(s, ev))
    ensures Enabled(c, s, ev)
  {
  }

  lemma {:induction false} BadRefusalIsRemembered(c: Config, schedule: seq<Event>)
    requires c.Valid() && !NoBadRefusal(c, schedule)
    ensures Spoiled(c, Run(c, schedule))
  {
    var front, ev := schedule[..|schedule| - 1], schedule[|schedule| - 1];
    var s := Run(c, front);
    RunShape(c, front);
    if NoBadRefusal(c, front) {
      GoodRun(c, front);
      BadRefusalsAreEnabled(c, s, ev);
      BadRefusalSpoils(c, s, ev);
    } else {
      BadRefusalIsRemembered(c, front);
      if Enabled(c, s, ev) { SpoiledStays(c, s, ev); }
    }
  }

  lemma StuckRank(c: Config, s: State, r: nat)
    requires Inv(c, s) && Quiescent(c, s) && r < c.size && Unspoiled(s[r])
    ensures (s[r].pc.Outside? && s[r].bar == c.calls) || (s[r].pc.Waiting? && s[r].cq == 0)
  {
    assert !Enabled(c, s, Cpu(r, false));
    assert RankOk(c, s[r]);
  }

  lemma {:induction false} NobodyWaits(c: Config, s: State, r: nat)
    requires Inv(c, s) && Quiescent(c, s) && r < c.size
    requires forall q | 0 <= q < c.size :: Unspoiled(s[q])
    ensures !s[r].pc.Waiting?
    decreases s[r].bar, if s[r].pc.Waiting? then s[r].pc.k else 0
  {
    if s[r].pc.Waiting? {
      var k := s[r].pc.k;
      var q := RecvFrom(c.size, k, r);
      StuckRank(c, s, r);
      StuckRank(c, s, q);
      assert RankOk(c, s[r]) && RankOk(c, s[q]);
      assert !Enabled(c, s, Match(r, k));
      assert LinkOk(s[q], s[r], s[q].out[r], k);
      NobodyWaits(c, s, q);
      assert false;
    }
  }

  lemma UnspoiledQuiescentIsDone(c: Config, s: State)
    requires Inv(c, s) && Quiescent(c, s) && forall r | 0 <= r < c.size :: Unspoiled(s[r])
    ensures EveryCallCompleted(c, s)
  {
    forall r | 0 <= r < c.size ensures s[r].pc.Outside? && s[r].bar == c.calls {
      StuckRank(c, s, r);
      NobodyWaits(c, s, r);
    }
  }

  /** When nothing can move any more, every call of every rank has completed exactly if no second try of
      a send was refused, and no first try while the round's message had already arrived. */
  lemma QuiescentDoneIff(c: Config, schedule: seq<Event>)
    requires c.Valid() && Shape(c, Run(c, schedule)) && Quiescent(c, Run(c, schedule))
    ensures EveryCallCompleted(c, Run(c, schedule)) <==> NoBadRefusal(c, schedule)
  {
    if NoBadRefusal(c, schedule) {
      GoodRun(c, schedule);
      UnspoiledQuiescentIsDone(c, Run(c, schedule));
    } else {
      BadRefusalIsRemembered(c, schedule);
    }
  }

  // ---------------------------------------------------------------- bounded work

  /** Steps of a call before round k: the entry, and five a round with both tries of the send. */
  function Before(n: nat, bar: nat, k: nat): int { Times(bar - 1, 5 * n + 2) + 1 + 5 * k }

  /** How far a rank has come; `Failed` is the end of its road unless it calls again. */
  function RankWork(n: nat, rk: Rank): int {
    var met := if rk.recvs == [] then 1 else 0;
    match rk.pc
    case Outside => Times(rk.bar, 5 * n + 2)
    case AtRound(k) => Before(n, rk.bar, k)
    case Inject(k) => Before(n, rk.bar, k) + 1 + met
    case Retry(k) => Before(n, rk.bar, k) + 2 + met
    case Waiting(k) => Before(n, rk.bar, k) + 3 + met
    case Failed(k) => Before(n, rk.bar, k) + 3 + met
  }

  ghost function Works(c: Config, s: State): (w: seq<int>)
    ensures |w| == |s| && forall r | 0 <= r < |s| :: w[r] == RankWork(c.Rounds(), s[r])
  {
    seq(|s|, r requires 0 <= r < |s| => RankWork(c.Rounds(), s[r]))
  }

  lemma CpuWorks(c: Config, r: nat, rk: Rank, full: bool)
    requires r < c.size && RankOk(c, rk) && CpuEnabled(c, rk) && !rk.pc.Failed?
    ensures RankWork(c.Rounds(), CpuNext(c, r, rk, full)) >= RankWork(c.Rounds(), rk) + 1
  {
  }

  lemma StepWorks(c: Config, s: State, ev: Event)
    requires Inv(c, s) && Enabled(c, s, ev) && !Recalls(s, ev)
    ensures |Step(c, s, ev)| == c.size
    ensures Sum(Works(c, Step(c, s, ev))) >= Sum(Works(c, s)) + 1
  {
    var s', r := Step(c, s, ev), ev.r;
    assert RankOk(c, s[r]);
    if ev.Cpu? { CpuWorks(c, r, s[r], ev.full); } else { MatchIsCurrent(c, s, r, ev.k); }
    assert forall q | 0 <= q < c.size && q != r :: RankWork(c.Rounds(), s'[q]) == RankWork(c.Rounds(), s[q]);
    SumOfUpdate(Works(c, s), r, RankWork(c.Rounds(), s'[r]));
    assert Works(c, s') == Works(c, s)[r := RankWork(c.Rounds(), s'[r])];
  }

  function TotalWork(c: Config): nat { Times(c.size, Times(c.calls, 5 * c.Rounds() + 2)) }

  lemma RankWorkBounded(c: Config, rk: Rank)
    requires RankOk(c, rk)
    ensures RankWork(c.Rounds(), rk) <= Times(c.calls, 5 * c.Rounds() + 2)
  {
    TimesMonotone(rk.bar, c.calls, 5 * c.Rounds() + 2);
  }

  lemma WorkBounded(c: Config, s: State)
    requires Inv(c, s)
    ensures Sum(Works(c, s)) <= TotalWork(c)
  {
    forall r | 0 <= r < c.size ensures Works(c, s)[r] <= Times(c.calls, 5 * c.Rounds() + 2) {
      RankWorkBounded(c, s[r]);
    }
    SumBounded(Works(c, s), Times(c.calls, 5 * c.Rounds() + 2));
  }

  /** How many events of a schedule are effective, that is, not spins. */
  ghost function Effective(c: Config, schedule: seq<Event>): nat {
    if schedule == [] then 0
    else
      var s, ev := Run(c, schedule[..|schedule| - 1]), schedule[|schedule| - 1];
      Effective(c, schedule[..|schedule| - 1]) + if Shape(c, s) && Enabled(c, s, ev) then 1 else 0
  }

  /** No schedule does more than five steps a round and two a call, on every rank. */
  lemma {:induction false} EffectiveBounded(c: Config, schedule: seq<Event>)
    requires c.Valid() && NoRecall(c, schedule)
    ensures Effective(c, schedule) <= Sum(Works(c, Run(c, schedule))) <= TotalWork(c)
  {
    RunInv(c, schedule);
    WorkBounded(c, Run(c, schedule));
    if schedule == [] {
      SumOfZeros(Works(c, Init(c)));
    } else {
      EffectiveBounded(c, schedule[..|schedule| - 1]);
      RunInv(c, schedule[..|schedule| - 1]);
      var s, ev := Run(c, schedule[..|schedule| - 1]), schedule[|schedule| - 1];
      if Enabled(c, s, ev) { StepWorks(c, s, ev); }
    }
  }

  lemma KeepsGood(c: Config, schedule: seq<Event>, ev: Event)
    requires NoBadRefusal(c, schedule)
    requires !GivesUp(Run(c, schedule), ev) && !LosesCompletion(Run(c, schedule), ev)
    ensures NoBadRefusal(c, schedule + [ev])
  {
    var longer := schedule + [ev];
    assert longer[..|longer| - 1] == schedule && longer[|longer| - 1] == ev;
  }

  lemma StepCosts(c: Config, s: State, ev: Event)
    requires Inv(c, s) && Enabled(c, s, ev) && !Recalls(s, ev)
    ensures Sum(Works(c, s)) < Sum(Works(c, Step(c, s, ev))) <= TotalWork(c)
  {
    StepWorks(c, s, ev);
    StepKeepsInv(c, s, ev);
    WorkBounded(c, Step(c, s, ev));
  }

  /** A run without a bad refusal that is not over can go on without one. */
  lemma GoOn(c: Config, schedule: seq<Event>, some: Event) returns (ev: Event)
    requires c.Valid() && NoBadRefusal(c, schedule)
    requires Inv(c, Run(c, schedule)) && Enabled(c, Run(c, schedule), some)
    ensures NoBadRefusal(c, schedule + [ev])
    ensures Sum(Works(c, Run(c, schedule))) < Sum(Works(c, Run(c, schedule + [ev]))) <= TotalWork(c)
  {
    var s := Run(c, schedule);
    ev := if some.Cpu? then Cpu(some.r, false) else some;
    GoodRun(c, schedule);
    assert Enabled(c, s, ev) && !Recalls(s, ev);
    Extend(c, schedule, ev);
    KeepsGood(c, schedule, ev);
    StepCosts(c, s, ev);
  }

  /** A run without a bad refusal can always be finished without one. */
  lemma {:induction false} CanFinish(c: Config, schedule: seq<Event>) returns (longer: seq<Event>)
    requires c.Valid() && NoBadRefusal(c, schedule)
    ensures NoBadRefusal(c, longer) && EveryCallCompleted(c, Run(c, longer))
    decreases TotalWork(c) - Sum(Works(c, Run(c, schedule)))
  {
    GoodRun(c, schedule);
    if some :| Enabled(c, Run(c, schedule), some) {
      var ev := GoOn(c, schedule, some);
      longer := CanFinish(c, schedule + [ev]);
    } else {
      UnspoiledQuiescentIsDone(c, Run(c, schedule));
      longer := schedule;
    }
  }
}
