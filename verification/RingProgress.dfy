/** Progress of the ring multiply: no run has more than a fixed number of actions. */
module RingProgress {
  import opened Arithmetic
  import S = Sums
  import opened RingMultiply

  function StripeCells(c: Config): set<(nat, nat)> {
    set k: nat, j: nat | 0 <= k < c.n && 0 <= j < c.ns :: (k, j)
  }

  function Products(c: Config): set<(nat, nat, nat)> {
    set i: nat, k: nat, j: nat | 0 <= i < c.ns && 0 <= k < c.n && 0 <= j < c.ns :: (i, k, j)
  }

  /** Actions of one step: an element put and pulled, a product added, the barrier entered and left. */
  function PerStep(c: Config): nat { 2 * |StripeCells(c)| + |Products(c)| + 2 }

  function Done(c: Config, rk: Rank): int {
    Times(rk.step, PerStep(c)) + |rk.pushed| + |rk.pulled| + |rk.added| + if rk.atBarrier then 1 else 0
  }

  predicate Within(c: Config, rk: Rank) {
    && rk.pushed <= StripeCells(c) && rk.pulled <= StripeCells(c) && rk.added <= Products(c)
    && rk.step <= c.npes && (rk.atBarrier ==> rk.step < c.npes)
    && (rk.step == c.npes ==> rk.pushed == {} && rk.pulled == {} && rk.added == {})
  }

  ghost predicate AllWithin(c: Config, s: State) {
    |s| == c.npes && forall r | 0 <= r < c.npes :: Within(c, s[r])
  }

  lemma DoneBounded(c: Config, rk: Rank)
    requires Within(c, rk)
    ensures Done(c, rk) <= Times(c.npes, PerStep(c))
    ensures |rk.pushed| + |rk.pulled| + |rk.added| + 2 <= PerStep(c)
  {
    S.SubsetSize(rk.pushed, StripeCells(c));
    S.SubsetSize(rk.pulled, StripeCells(c));
    S.SubsetSize(rk.added, Products(c));
    if rk.step < c.npes { TimesMonotone(rk.step + 1, c.npes, PerStep(c)); }
  }

  ghost function Dones(c: Config, s: State): (xs: seq<int>)
    ensures |xs| == |s| && forall r | 0 <= r < |s| :: xs[r] == Done(c, s[r])
  {
    seq(|s|, r requires 0 <= r < |s| => Done(c, s[r]))
  }

  lemma LeaveWorks(c: Config, s: State, r: nat)
    requires Shape(c, s) && AllWithin(c, s) && Enabled(c, s, Leave(r))
    ensures var s' := Step(c, s, Leave(r));
            |s'| == c.npes && Within(c, s'[r]) && Done(c, s'[r]) >= Done(c, s[r]) + 1
  {
    assert Within(c, s[r]);
    DoneBounded(c, s[r]);
    assert Times(s[r].step + 1, PerStep(c)) == Times(s[r].step, PerStep(c)) + PerStep(c);
  }

  /** What of a rank its progress depends on. */
  predicate SameProgress(rk: Rank, rk': Rank, pushed: set<(nat, nat)>, pulled: set<(nat, nat)>,
                         added: set<(nat, nat, nat)>) {
    && rk'.step == rk.step && rk'.atBarrier == rk.atBarrier
    && rk'.pushed == rk.pushed + pushed && rk'.pulled == rk.pulled + pulled && rk'.added == rk.added + added
  }

  lemma PushChanges(c: Config, s: State, r: nat, k: nat, j: nat)
    requires Shape(c, s) && Enabled(c, s, Push(r, k, j))
    ensures |Step(c, s, Push(r, k, j))| == c.npes && SameProgress(s[r], Step(c, s, Push(r, k, j))[r], {(k, j)}, {}, {})
  {
  }

  lemma PullChanges(c: Config, s: State, r: nat, k: nat, j: nat)
    requires Shape(c, s) && Enabled(c, s, Pull(r, k, j))
    ensures |Step(c, s, Pull(r, k, j))| == c.npes && SameProgress(s[r], Step(c, s, Pull(r, k, j))[r], {}, {(k, j)}, {})
  {
  }

  lemma AddChanges(c: Config, s: State, r: nat, i: nat, k: nat, j: nat)
    requires Shape(c, s) && Enabled(c, s, Add(r, i, k, j))
    ensures |Step(c, s, Add(r, i, k, j))| == c.npes
    ensures SameProgress(s[r], Step(c, s, Add(r, i, k, j))[r], {}, {}, {(i, k, j)})
  {
  }

  /** What an action does to the progress of its rank. */
  predicate Works(c: Config, rk: Rank, rk': Rank) { Within(c, rk') && Done(c, rk') >= Done(c, rk) + 1 }

  lemma PushWorks(c: Config, s: State, ev: Event)
    requires Shape(c, s) && AllWithin(c, s) && Enabled(c, s, ev) && ev.Push?
    ensures |Step(c, s, ev)| == c.npes && Works(c, s[ev.r], Step(c, s, ev)[ev.r])
  {
    assert Within(c, s[ev.r]);
    PushChanges(c, s, ev.r, ev.k, ev.j);
    GainsOne(c, s[ev.r], Step(c, s, ev)[ev.r], {(ev.k, ev.j)}, {}, {});
  }

  lemma PullWorks(c: Config, s: State, ev: Event)
    requires Shape(c, s) && AllWithin(c, s) && Enabled(c, s, ev) && ev.Pull?
    ensures |Step(c, s, ev)| == c.npes && Works(c, s[ev.r], Step(c, s, ev)[ev.r])
  {
    assert Within(c, s[ev.r]);
    PullChanges(c, s, ev.r, ev.k, ev.j);
    GainsOne(c, s[ev.r], Step(c, s, ev)[ev.r], {}, {(ev.k, ev.j)}, {});
  }

  lemma AddWorks(c: Config, s: State, ev: Event)
    requires Shape(c, s) && AllWithin(c, s) && Enabled(c, s, ev) && ev.Add?
    ensures |Step(c, s, ev)| == c.npes && Works(c, s[ev.r], Step(c, s, ev)[ev.r])
  {
    assert Within(c, s[ev.r]);
    AddChanges(c, s, ev.r, ev.i, ev.k, ev.j);
    GainsOne(c, s[ev.r], Step(c, s, ev)[ev.r], {}, {}, {(ev.i, ev.k, ev.j)});
  }

  /** An action adds one to what its rank has done, and keeps the others where they are. */
  lemma RankWorks(c: Config, s: State, ev: Event)
    requires Shape(c, s) && AllWithin(c, s) && Enabled(c, s, ev)
    ensures |Step(c, s, ev)| == c.npes && Works(c, s[ev.r], Step(c, s, ev)[ev.r])
  {
    if ev.Push? { PushWorks(c, s, ev); }
    else if ev.Pull? { PullWorks(c, s, ev); }
    else if ev.Add? { AddWorks(c, s, ev); }
    else if ev.Leave? { LeaveWorks(c, s, ev.r); }
    else { assert Within(c, s[ev.r]); ArriveWorks(c, s[ev.r], Step(c, s, ev)[ev.r]); }
  }

  /** New elements count, once they are new. */
  lemma GainsOne(c: Config, rk: Rank, rk': Rank, pushed: set<(nat, nat)>, pulled: set<(nat, nat)>,
                 added: set<(nat, nat, nat)>)
    requires Within(c, rk) && rk.step < c.npes && SameProgress(rk, rk', pushed, pulled, added)
    requires pushed <= StripeCells(c) - rk.pushed && pulled <= StripeCells(c) - rk.pulled
    requires added <= Products(c) - rk.added && |pushed| + |pulled| + |added| == 1
    ensures Within(c, rk') && Done(c, rk') == Done(c, rk) + 1
  {
  }

  lemma ArriveWorks(c: Config, rk: Rank, rk': Rank)
    requires Within(c, rk) && rk.step < c.npes && !rk.atBarrier && rk' == rk.(atBarrier := true)
    ensures Within(c, rk') && Done(c, rk') == Done(c, rk) + 1
  {
  }

  lemma OthersStay(c: Config, s: State, ev: Event, q: nat)
    requires Shape(c, s) && AllWithin(c, s) && Enabled(c, s, ev) && q < c.npes && q != ev.r
    ensures var s' := Step(c, s, ev);
            |s'| == c.npes && Within(c, s'[q]) && Done(c, s'[q]) == Done(c, s[q])
  {
    assert Within(c, s[q]);
  }

  lemma StepWorks(c: Config, s: State, ev: Event)
    requires Shape(c, s) && AllWithin(c, s) && Enabled(c, s, ev)
    ensures AllWithin(c, Step(c, s, ev)) && S.Sum(Dones(c, Step(c, s, ev))) >= S.Sum(Dones(c, s)) + 1
  {
    var s' := Step(c, s, ev);
    RankWorks(c, s, ev);
    forall q | 0 <= q < c.npes ensures Within(c, s'[q]) && (q != ev.r ==> Done(c, s'[q]) == Done(c, s[q])) {
      if q != ev.r { OthersStay(c, s, ev, q); }
    }
    OneRankWorks(c, s, s', ev.r);
  }

  lemma OneRankWorks(c: Config, s: State, s': State, r: nat)
    requires r < |s| == |s'| && Done(c, s'[r]) >= Done(c, s[r]) + 1
    requires forall q | 0 <= q < |s| && q != r :: Done(c, s'[q]) == Done(c, s[q])
    ensures S.Sum(Dones(c, s')) >= S.Sum(Dones(c, s)) + 1
  {
    S.SumOfUpdate(Dones(c, s), r, Done(c, s'[r]));
    assert Dones(c, s') == Dones(c, s)[r := Done(c, s'[r])];
  }

  function TotalWork(c: Config): nat { Times(c.npes, Times(c.npes, PerStep(c))) }

  /** How many events of a schedule are effective. */
  ghost function Effective(c: Config, schedule: seq<Event>): nat
    requires Valid(c)
  {
    if schedule == [] then 0
    else
      var s, ev := Run(c, schedule[..|schedule| - 1]), schedule[|schedule| - 1];
      Effective(c, schedule[..|schedule| - 1]) + if Shape(c, s) && Enabled(c, s, ev) then 1 else 0
  }

  lemma AllBounded(c: Config, s: State)
    requires AllWithin(c, s)
    ensures S.Sum(Dones(c, s)) <= TotalWork(c)
  {
    forall r | 0 <= r < c.npes ensures Dones(c, s)[r] <= Times(c.npes, PerStep(c)) { DoneBounded(c, s[r]); }
    S.SumBounded(Dones(c, s), Times(c.npes, PerStep(c)));
  }

  /** No schedule has more effective actions than ranks times steps times actions of a step; with
      SomethingToDo, every run that is carried on comes to its end. */
  lemma {:induction false} EffectiveBounded(c: Config, schedule: seq<Event>)
    requires Valid(c)
    ensures AllWithin(c, Run(c, schedule)) && Effective(c, schedule) <= S.Sum(Dones(c, Run(c, schedule)))
    ensures Effective(c, schedule) <= TotalWork(c)
  {
    if schedule == [] {
      S.SumOfZeros(Dones(c, Init(c)));
    } else {
      EffectiveBounded(c, schedule[..|schedule| - 1]);
      var g := RunPaced(c, schedule[..|schedule| - 1]);
      var s, ev := Run(c, schedule[..|schedule| - 1]), schedule[|schedule| - 1];
      if Enabled(c, s, ev) { StepWorks(c, s, ev); }
    }
    AllBounded(c, Run(c, schedule));
  }
}
