/** Progress of the Jacobi solver: no run has more than a fixed number of actions. */
module JacobiProgress {
  import opened Arithmetic
  import S = Sums
  import opened Jacobi

  function OwnCells<V>(c: Config<V>): set<(nat, nat)> {
    set iy: nat, ix: nat | 0 <= iy <= c.chunk && 0 <= ix < c.nx && Own(c, iy, ix) :: (iy, ix)
  }

  predicate IsColumn<V>(c: Config<V>, ix: nat) { ix < c.nx }

  function Columns<V>(c: Config<V>): set<nat> { set ix: nat | 0 <= ix < c.nx && IsColumn(c, ix) }

  /** Actions of one step: cells, blocks, the elements of two puts, the barrier entered and left. */
  function PerStep<V>(c: Config<V>): nat { |OwnCells(c)| + |AllBlocks(c)| + 2 * |Columns(c)| + 2 }

  function Done<V>(c: Config<V>, rk: Rank<V>): int {
    Times(rk.step, PerStep(c)) + |rk.written| + |rk.done| + |rk.up| + |rk.down| + if rk.atBarrier then 1 else 0
  }

  predicate Within<V>(c: Config<V>, rk: Rank<V>) {
    && rk.written <= OwnCells(c) && rk.done <= AllBlocks(c) && rk.up <= Columns(c) && rk.down <= Columns(c)
    && rk.step <= c.Steps() && (rk.atBarrier ==> rk.step < c.Steps())
    && (rk.step == c.Steps() ==> rk.written == {} && rk.done == {} && rk.up == {} && rk.down == {})
  }

  ghost predicate AllWithin<V>(c: Config<V>, s: State<V>) {
    |s| == c.size && forall r | 0 <= r < c.size :: Within(c, s[r])
  }

  lemma DoneBounded<V>(c: Config<V>, rk: Rank<V>)
    requires Within(c, rk)
    ensures Done(c, rk) <= Times(c.Steps(), PerStep(c))
    ensures |rk.written| + |rk.done| + |rk.up| + |rk.down| + 2 <= PerStep(c)
  {
    S.SubsetSize(rk.written, OwnCells(c));
    S.SubsetSize(rk.done, AllBlocks(c));
    S.SubsetSize(rk.up, Columns(c));
    S.SubsetSize(rk.down, Columns(c));
    if rk.step < c.Steps() { TimesMonotone(rk.step + 1, c.Steps(), PerStep(c)); }
  }

  ghost function Dones<V>(c: Config<V>, s: State<V>): (xs: seq<int>)
    ensures |xs| == |s| && forall r | 0 <= r < |s| :: xs[r] == Done(c, s[r])
  {
    seq(|s|, r requires 0 <= r < |s| => Done(c, s[r]))
  }

  lemma LeaveWorks<V>(c: Config<V>, s: State<V>, r: nat)
    requires Shape(c, s) && AllWithin(c, s) && Enabled(c, s, Leave(r))
    ensures var s' := Step(c, s, Leave(r));
            |s'| == c.size && Within(c, s'[r]) && Done(c, s'[r]) >= Done(c, s[r]) + 1
  {
    assert Within(c, s[r]);
    DoneBounded(c, s[r]);
    assert Times(s[r].step + 1, PerStep(c)) == Times(s[r].step, PerStep(c)) + PerStep(c);
  }

  /** What of a rank its progress depends on. */
  predicate SameProgress<V>(rk: Rank<V>, rk': Rank<V>, written: set<(nat, nat)>, done: set<(nat, nat)>,
                            up: set<nat>, down: set<nat>) {
    && rk'.step == rk.step && rk'.atBarrier == rk.atBarrier
    && rk'.written == rk.written + written && rk'.done == rk.done + done
    && rk'.up == rk.up + up && rk'.down == rk.down + down
  }

  lemma CellChanges<V>(c: Config<V>, s: State<V>, r: nat, iy: nat, ix: nat)
    requires Shape(c, s) && Enabled(c, s, Cell(r, iy, ix))
    ensures |Step(c, s, Cell(r, iy, ix))| == c.size
    ensures SameProgress(s[r], Step(c, s, Cell(r, iy, ix))[r], {(iy, ix)}, {}, {}, {})
  {
  }

  lemma BlockChanges<V>(c: Config<V>, s: State<V>, r: nat, bi: nat, bj: nat)
    requires Shape(c, s) && Enabled(c, s, Block(r, bi, bj))
    ensures |Step(c, s, Block(r, bi, bj))| == c.size
    ensures SameProgress(s[r], Step(c, s, Block(r, bi, bj))[r], {}, {(bi, bj)}, {}, {})
  {
  }

  lemma PutUpChanges<V>(c: Config<V>, s: State<V>, r: nat, ix: nat)
    requires Shape(c, s) && Enabled(c, s, PutUp(r, ix))
    ensures |Step(c, s, PutUp(r, ix))| == c.size && SameProgress(s[r], Step(c, s, PutUp(r, ix))[r], {}, {}, {ix}, {})
  {
  }

  lemma PutDownChanges<V>(c: Config<V>, s: State<V>, r: nat, ix: nat)
    requires Shape(c, s) && Enabled(c, s, PutDown(r, ix))
    ensures |Step(c, s, PutDown(r, ix))| == c.size && SameProgress(s[r], Step(c, s, PutDown(r, ix))[r], {}, {}, {}, {ix})
  {
  }

  /** What an action does to the progress of its rank. */
  predicate Works<V>(c: Config<V>, rk: Rank<V>, rk': Rank<V>) { Within(c, rk') && Done(c, rk') >= Done(c, rk) + 1 }

  lemma CellWorks<V>(c: Config<V>, s: State<V>, ev: Event)
    requires Shape(c, s) && AllWithin(c, s) && Enabled(c, s, ev) && ev.Cell?
    ensures |Step(c, s, ev)| == c.size && Works(c, s[ev.r], Step(c, s, ev)[ev.r])
  {
    assert Within(c, s[ev.r]);
    CellChanges(c, s, ev.r, ev.iy, ev.ix);
    GainsOne(c, s[ev.r], Step(c, s, ev)[ev.r], {(ev.iy, ev.ix)}, {}, {}, {});
  }

  lemma BlockWorks<V>(c: Config<V>, s: State<V>, ev: Event)
    requires Shape(c, s) && AllWithin(c, s) && Enabled(c, s, ev) && ev.Block?
    ensures |Step(c, s, ev)| == c.size && Works(c, s[ev.r], Step(c, s, ev)[ev.r])
  {
    assert Within(c, s[ev.r]);
    BlockChanges(c, s, ev.r, ev.bi, ev.bj);
    GainsOne(c, s[ev.r], Step(c, s, ev)[ev.r], {}, {(ev.bi, ev.bj)}, {}, {});
  }

  lemma PutUpWorks<V>(c: Config<V>, s: State<V>, ev: Event)
    requires Shape(c, s) && AllWithin(c, s) && Enabled(c, s, ev) && ev.PutUp?
    ensures |Step(c, s, ev)| == c.size && Works(c, s[ev.r], Step(c, s, ev)[ev.r])
  {
    assert Within(c, s[ev.r]);
    PutUpChanges(c, s, ev.r, ev.ix);
    GainsOne(c, s[ev.r], Step(c, s, ev)[ev.r], {}, {}, {ev.ix}, {});
  }

  lemma PutDownWorks<V>(c: Config<V>, s: State<V>, ev: Event)
    requires Shape(c, s) && AllWithin(c, s) && Enabled(c, s, ev) && ev.PutDown?
    ensures |Step(c, s, ev)| == c.size && Works(c, s[ev.r], Step(c, s, ev)[ev.r])
  {
    assert Within(c, s[ev.r]);
    PutDownChanges(c, s, ev.r, ev.ix);
    GainsOne(c, s[ev.r], Step(c, s, ev)[ev.r], {}, {}, {}, {ev.ix});
  }

  /** An action adds one to what its rank has done, and keeps the others where they are. */
  lemma RankWorks<V>(c: Config<V>, s: State<V>, ev: Event)
    requires Shape(c, s) && AllWithin(c, s) && Enabled(c, s, ev)
    ensures |Step(c, s, ev)| == c.size && Works(c, s[ev.r], Step(c, s, ev)[ev.r])
  {
    if ev.Cell? { CellWorks(c, s, ev); }
    else if ev.Block? { BlockWorks(c, s, ev); }
    else if ev.PutUp? { PutUpWorks(c, s, ev); }
    else if ev.PutDown? { PutDownWorks(c, s, ev); }
    else if ev.Leave? { LeaveWorks(c, s, ev.r); }
    else { assert Within(c, s[ev.r]); ArriveWorks(c, s[ev.r], Step(c, s, ev)[ev.r]); }
  }

  /** New elements count, once they are new. */
  lemma GainsOne<V>(c: Config<V>, rk: Rank<V>, rk': Rank<V>, written: set<(nat, nat)>, done: set<(nat, nat)>,
                    up: set<nat>, down: set<nat>)
    requires Within(c, rk) && rk.step < c.Steps() && SameProgress(rk, rk', written, done, up, down)
    requires written <= OwnCells(c) - rk.written && done <= AllBlocks(c) - rk.done
    requires up <= Columns(c) - rk.up && down <= Columns(c) - rk.down
    requires |written| + |done| + |up| + |down| == 1
    ensures Within(c, rk') && Done(c, rk') == Done(c, rk) + 1
  {
  }

  lemma ArriveWorks<V>(c: Config<V>, rk: Rank<V>, rk': Rank<V>)
    requires Within(c, rk) && rk.step < c.Steps() && !rk.atBarrier && rk' == rk.(atBarrier := true)
    ensures Within(c, rk') && Done(c, rk') == Done(c, rk) + 1
  {
  }

  lemma OthersStay<V>(c: Config<V>, s: State<V>, ev: Event, q: nat)
    requires Shape(c, s) && AllWithin(c, s) && Enabled(c, s, ev) && q < c.size && q != ev.r
    ensures var s' := Step(c, s, ev);
            |s'| == c.size && Within(c, s'[q]) && Done(c, s'[q]) == Done(c, s[q])
  {
    assert Within(c, s[q]);
  }

  lemma StepWorks<V>(c: Config<V>, s: State<V>, ev: Event)
    requires Shape(c, s) && AllWithin(c, s) && Enabled(c, s, ev)
    ensures AllWithin(c, Step(c, s, ev)) && S.Sum(Dones(c, Step(c, s, ev))) >= S.Sum(Dones(c, s)) + 1
  {
    var s' := Step(c, s, ev);
    RankWorks(c, s, ev);
    forall q | 0 <= q < c.size ensures Within(c, s'[q]) && (q != ev.r ==> Done(c, s'[q]) == Done(c, s[q])) {
      if q != ev.r { OthersStay(c, s, ev, q); }
    }
    OneRankWorks(c, s, s', ev.r);
  }

  lemma OneRankWorks<V>(c: Config<V>, s: State<V>, s': State<V>, r: nat)
    requires r < |s| == |s'| && Done(c, s'[r]) >= Done(c, s[r]) + 1
    requires forall q | 0 <= q < |s| && q != r :: Done(c, s'[q]) == Done(c, s[q])
    ensures S.Sum(Dones(c, s')) >= S.Sum(Dones(c, s)) + 1
  {
    S.SumOfUpdate(Dones(c, s), r, Done(c, s'[r]));
    assert Dones(c, s') == Dones(c, s)[r := Done(c, s'[r])];
  }

  /** How many events of a schedule are effective. */
  ghost function Effective<V>(c: Config<V>, schedule: seq<Event>): nat {
    if schedule == [] then 0
    else
      var s, ev := Run(c, schedule[..|schedule| - 1]), schedule[|schedule| - 1];
      Effective(c, schedule[..|schedule| - 1]) + if Shape(c, s) && Enabled(c, s, ev) then 1 else 0
  }

  lemma AllBounded<V>(c: Config<V>, s: State<V>)
    requires AllWithin(c, s)
    ensures S.Sum(Dones(c, s)) <= Times(c.size, Times(c.Steps(), PerStep(c)))
  {
    forall r | 0 <= r < c.size ensures Dones(c, s)[r] <= Times(c.Steps(), PerStep(c)) { DoneBounded(c, s[r]); }
    S.SumBounded(Dones(c, s), Times(c.Steps(), PerStep(c)));
  }

  /** No schedule has more effective actions than ranks times steps times actions of a step; with
      SomethingToDo, every run that is carried on comes to its end. */
  lemma {:induction false} EffectiveBounded<V>(c: Config<V>, schedule: seq<Event>)
    requires c.Valid()
    ensures AllWithin(c, Run(c, schedule)) && Effective(c, schedule) <= S.Sum(Dones(c, Run(c, schedule)))
    ensures Effective(c, schedule) <= Times(c.size, Times(c.Steps(), PerStep(c)))
  {
    if schedule == [] {
      S.SumOfZeros(Dones(c, Init(c)));
    } else {
      EffectiveBounded(c, schedule[..|schedule| - 1]);
      var g := RunInv(c, schedule[..|schedule| - 1]);
      var s, ev := Run(c, schedule[..|schedule| - 1]), schedule[|schedule| - 1];
      if Enabled(c, s, ev) { StepWorks(c, s, ev); }
    }
    AllBounded(c, Run(c, schedule));
  }
}
