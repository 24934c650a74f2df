/** Why the library keeps two signal slots per round. With one slot a rank that runs ahead can
    overwrite a signal its peer has not yet seen, and the peer polls for it forever: for every number
    of ranks but 2^n - 1, where the dissemination pattern itself keeps a sender from lapping. */
module SignalOneSlot {
  import opened Arithmetic
  import opened Dissemination
  import opened Schedules
  import opened SignalBarrier
  import opened SignalSafety
  import opened SignalProgress
  import BitMask

  /** A rank whose cell has gone past the number it polls for. */
  ghost predicate Overrun(c: Config, s: State, r: nat)
    requires Shape(c, s) && r < c.size
  {
    && s[r].gpu.Polling?
    && s[r].sig[s[r].gpu.k][s[r].expected % c.slots] > s[r].expected
  }

  lemma LandingRises(c: Config, s: State, q: nat, k: nat, i: nat)
    requires Inv(c, s) && Shape(c, s) && Enabled(c, s, NicStep(q, k, i)) && s[q].ops[k][i].stage.Fetched?
    ensures s[q].ops[k][i].peer == SendTo(c.size, k, q)
    ensures s[q].ops[k][i].stage.value > s[SendTo(c.size, k, q)].sig[k][s[q].ops[k][i].slot]
  {
    var r := SendTo(c.size, k, q);
    NicKeepsRound(c, q, s[q], k, i);
    assert RoundOk(c, q, s[q], k) && OpOk(c, q, s[q], k, i) && LinkOk(c, s[q], s[r], k);
  }

  /** Once overrun, a rank polls in vain on every schedule: cells only rise. */
  lemma OverrunIsForever(c: Config, s: State, r: nat, ev: Event)
    requires Inv(c, s) && Shape(c, s) && r < c.size && Overrun(c, s, r) && Enabled(c, s, ev)
    ensures Inv(c, Step(c, s, ev)) && Shape(c, Step(c, s, ev))
    ensures Overrun(c, Step(c, s, ev), r) && Step(c, s, ev)[r].expected == s[r].expected
  {
    StepKeepsInv(c, s, ev);
    InvShape(c, Step(c, s, ev));
    if ev.NicStep? {
      NicTouches(c, s[ev.r], ev.k, ev.i);
      if s[ev.r].ops[ev.k][ev.i].stage.Fetched? { LandingRises(c, s, ev.r, ev.k, ev.i); }
    }
  }

  lemma {:induction false} NeverRecovers(c: Config, schedule: seq<Event>, rest: seq<Event>, r: nat)
    requires c.Valid() && r < c.size && Shape(c, Run(c, schedule)) && Overrun(c, Run(c, schedule), r)
    ensures Shape(c, Run(c, schedule + rest)) && Overrun(c, Run(c, schedule + rest), r)
    ensures Run(c, schedule + rest)[r].expected == Run(c, schedule)[r].expected
  {
    if rest == [] {
      assert schedule + rest == schedule;
    } else {
      var m := |rest| - 1;
      NeverRecovers(c, schedule, rest[..m], r);
      RunInv(c, schedule + rest[..m]);
      RunInv(c, schedule + rest);
      RunSplits(c, schedule, rest);
      NextKeepsOverrun(c, Run(c, schedule + rest[..m]), r, rest[m]);
    }
  }

  lemma RunSplits(c: Config, schedule: seq<Event>, rest: seq<Event>)
    requires rest != []
    ensures Run(c, schedule + rest) == Next(c, Run(c, schedule + rest[..|rest| - 1]), rest[|rest| - 1])
  {
    FrontOf(schedule, rest);
  }

  lemma NextKeepsOverrun(c: Config, s: State, r: nat, ev: Event)
    requires Inv(c, s) && Shape(c, s) && Shape(c, Next(c, s, ev)) && r < c.size && Overrun(c, s, r)
    ensures Overrun(c, Next(c, s, ev), r) && Next(c, s, ev)[r].expected == s[r].expected
  {
    if Enabled(c, s, ev) { OverrunIsForever(c, s, r, ev); }
  }

  // ---------------------------------------------------------------- holding one poll back

  /** The step by which rank v would see the signal of round k of its first barrier. */
  predicate Held(s: State, v: nat, k: nat, ev: Event) {
    ev == GpuStep(v) && v < |s| && s[v].gpu == Polling(k) && s[v].expected == 1
  }

  lemma StaysUnseen(c: Config, s: State, v: nat, k: nat, ev: Event)
    requires Inv(c, s) && Shape(c, s) && Enabled(c, s, ev) && v < c.size && k < c.Rounds()
    requires Seen(s[v], k) == 0 && !Held(s, v, k, ev)
    ensures |Step(c, s, ev)| == c.size && Seen(Step(c, s, ev)[v], k) == 0
  {
    assert RankOk(c, v, s[v]);
    if ev.NicStep? { NicTouches(c, s[ev.r], ev.k, ev.i); }
  }

  /** Nothing but that step can move. */
  ghost predicate Rested(c: Config, s: State, v: nat, k: nat) {
    && Inv(c, s) && Shape(c, s) && c.slots == 1 && c.target >= 2 && v < c.size && k < c.Rounds()
    && Seen(s[v], k) == 0 && forall ev :: Enabled(c, s, ev) ==> Held(s, v, k, ev)
  }

  lemma OneMore(c: Config, schedule: seq<Event>, ev: Event)
    requires c.Valid() && c.target >= 1 && Shape(c, Run(c, schedule)) && Enabled(c, Run(c, schedule), ev)
    ensures Run(c, schedule + [ev]) == Step(c, Run(c, schedule), ev)
    ensures Effective(c, schedule) < Effective(c, schedule + [ev]) <= TotalWork(c)
  {
    var longer := schedule + [ev];
    assert longer[..|longer| - 1] == schedule;
    EffectiveBounded(c, longer);
  }

  /** Drives the system without that step, until nothing else can move. */
  lemma {:induction false} Drive(c: Config, schedule: seq<Event>, v: nat, k: nat) returns (longer: seq<Event>)
    requires c.Valid() && c.slots == 1 && c.target >= 2 && v < c.size && k < c.Rounds()
    requires |Run(c, schedule)| == c.size && Seen(Run(c, schedule)[v], k) == 0
    ensures Rested(c, Run(c, longer), v, k)
    decreases TotalWork(c) - Effective(c, schedule)
  {
    RunInv(c, schedule);
    EffectiveBounded(c, schedule);
    if ev :| Enabled(c, Run(c, schedule), ev) && !Held(Run(c, schedule), v, k, ev) {
      OneMore(c, schedule, ev);
      StaysUnseen(c, Run(c, schedule), v, k, ev);
      longer := Drive(c, schedule + [ev], v, k);
    } else {
      longer := schedule;
    }
  }

  // ---------------------------------------------------------------- who waits for whom at rest

  lemma RestedRank(c: Config, s: State, v: nat, k: nat, r: nat)
    requires Rested(c, s, v, k) && r < c.size
    ensures Calm(c, s[r]) && (s[r].gpu.Polling? || (s[r].gpu.Outside? && s[r].expected == c.target))
  {
    assert !Enabled(c, s, CpuStep(r));
    forall j, i ensures !NicEnabled(c, s[r], j, i) { assert !Enabled(c, s, NicStep(r, j, i)); }
    assert Enabled(c, s, GpuStep(r)) ==> Held(s, v, k, GpuStep(r));
    if !s[r].gpu.Polling? { GpuSettled(c, r, s[r]); }
  }

  ghost predicate NoneOverrun(c: Config, s: State)
    requires Shape(c, s)
  {
    forall r: nat :: r < c.size ==> !Overrun(c, s, r)
  }

  /** Any other rank that polls waits for a sender that is behind it. */
  lemma WaitsForSlower(c: Config, s: State, v: nat, k: nat, r: nat)
    requires Rested(c, s, v, k) && NoneOverrun(c, s) && r < c.size && s[r].gpu.Polling?
    requires !Held(s, v, k, GpuStep(r))
    ensures var e, j, q := s[r].expected, s[r].gpu.k, RecvFrom(c.size, s[r].gpu.k, r);
            s[q].gpu.Polling? && 1 <= s[q].expected && (s[q].expected < e || (s[q].expected == e && s[q].gpu.k < j))
  {
    var e, j := s[r].expected, s[r].gpu.k;
    var q := RecvFrom(c.size, j, r);
    assert !Enabled(c, s, GpuStep(r)) && !Overrun(c, s, r);
    assert LinkOk(c, s[q], s[r], j);
    assert s[r].sig[j][0] == CellAfter(Landed(s[q].ops[j]), 0, 1);
    RestedRank(c, s, v, k, q);
    assert RankOk(c, q, s[q]) && RankOk(c, r, s[r]);
    if Triggered(s[q], j) >= e { TriggeredHasLanded(c, q, s[q], j, e); }
  }

  /** So every such rank leads back to v, by powers of two: below 2^k within barrier 2, and from 2^(k + 1)
      on within barrier 1. */
  ghost predicate LeadsBack(c: Config, s: State, v: nat, k: nat, r: nat, w: nat, near: nat, far: nat)
    requires r < |s| && s[r].gpu.Polling?
  {
    && r + Times(w, c.size) == v + near + far && far % Pow2(k + 1) == 0
    && (s[r].expected == 1 ==> near == 0 && s[r].gpu.k >= k && far <= Pow2(s[r].gpu.k + 1) - Pow2(k + 1))
    && (s[r].expected == 2 ==> near < Pow2(s[r].gpu.k + 1) && far <= Pow2(c.Rounds()) - Pow2(k + 1))
  }

  lemma ModAdd(a: nat, b: nat, m: nat)
    requires m > 0 && a % m == 0 && b % m == 0
    ensures (a + b) % m == 0
  {
    assert a == a / m * m && b == b / m * m;
    MulDistributes(a / m, b / m, m);
    DivisionUnique(a + b, m, a / m + b / m, 0);
  }

  lemma {:induction false} Pow2Multiple(j: nat, k: nat)
    requires j <= k
    ensures Pow2(k) % Pow2(j) == 0
    decreases k
  {
    if j == k { DivisionUnique(Pow2(k), Pow2(j), 1, 0); }
    else {
      Pow2Multiple(j, k - 1);
      ModAdd(Pow2(k - 1), Pow2(k - 1), Pow2(j));
    }
  }

  /** One link more, in the number of wraps and the distance. */
  lemma StepBack(size: nat, j: nat, r: nat, v: nat, w: nat, d: nat) returns (w': nat)
    requires r < size && j < Rounds(size) && RecvFrom(size, j, r) + Times(w, size) == v + d
    ensures r + Times(w', size) == v + d + Pow2(j)
  {
    RoundFits(size, j);
    w' := if Pow2(j) <= r then w else w + 1;
  }

  /** The link from r to its sender q, in the barrier both are in. */
  lemma LinkWithin(c: Config, s: State, v: nat, k: nat, r: nat, q: nat, w0: nat, near0: nat, far0: nat)
      returns (w: nat, near: nat, far: nat)
    requires r < c.size == |s| && s[r].gpu.Polling? && s[r].gpu.k < c.Rounds() && q == RecvFrom(c.size, s[r].gpu.k, r)
    requires s[q].gpu.Polling? && s[q].gpu.k < s[r].gpu.k && s[q].expected == s[r].expected
    requires LeadsBack(c, s, v, k, q, w0, near0, far0) && 1 <= s[r].expected <= 2
    ensures LeadsBack(c, s, v, k, r, w, near, far)
  {
    var j := s[r].gpu.k;
    w := StepBack(c.size, j, r, v, w0, near0 + far0);
    Pow2Monotone(s[q].gpu.k + 1, j);
    if s[r].expected == 1 {
      near, far := 0, far0 + Pow2(j);
      Pow2Multiple(k + 1, j);
      ModAdd(far0, Pow2(j), Pow2(k + 1));
    } else {
      near, far := near0 + Pow2(j), far0;
    }
  }

  /** The link to a sender that is still in barrier 1. */
  lemma LinkDown(c: Config, s: State, v: nat, k: nat, r: nat, q: nat, w0: nat, near0: nat, far0: nat)
      returns (w: nat, near: nat, far: nat)
    requires r < c.size == |s| && s[r].gpu.Polling? && s[r].gpu.k < c.Rounds() && q == RecvFrom(c.size, s[r].gpu.k, r)
    requires s[q].gpu.Polling? && s[q].gpu.k < c.Rounds() && s[q].expected == 1 && s[r].expected == 2
    requires LeadsBack(c, s, v, k, q, w0, near0, far0)
    ensures LeadsBack(c, s, v, k, r, w, near, far)
  {
    w := StepBack(c.size, s[r].gpu.k, r, v, w0, near0 + far0);
    Pow2Monotone(s[q].gpu.k + 1, c.Rounds());
    near, far := Pow2(s[r].gpu.k), far0;
  }

  lemma {:induction false} Chain(c: Config, s: State, v: nat, k: nat, r: nat) returns (w: nat, near: nat, far: nat)
    requires Rested(c, s, v, k) && NoneOverrun(c, s) && r < c.size && s[r].gpu.Polling?
    requires s[r].expected == 1 || (s[r].expected == 2 && s[r].gpu.k < k)
    ensures LeadsBack(c, s, v, k, r, w, near, far)
    decreases s[r].expected, s[r].gpu.k
  {
    if Held(s, v, k, GpuStep(r)) {
      w, near, far := 0, 0, 0;
    } else {
      var q := RecvFrom(c.size, s[r].gpu.k, r);
      WaitsForSlower(c, s, v, k, r);
      w, near, far := Chain(c, s, v, k, q);
      if s[q].expected == s[r].expected { w, near, far := LinkWithin(c, s, v, k, r, q, w, near, far); }
      else { w, near, far := LinkDown(c, s, v, k, r, q, w, near, far); }
    }
  }

  lemma OnlyOnce(size: nat, w: nat, total: nat)
    requires Times(w, size) == total && 0 < total < Pow2(Rounds(size)) && size >= 2
    ensures total == size
  {
    if w >= 2 { TimesMonotone(2, w, size); }
    assert Times(2, size) == Times(1, size) + size;
    assert Rounds(size) > 0 && Pow2(Rounds(size)) == 2 * Pow2(Rounds(size) - 1);
  }

  lemma HighBit(size: nat, k: nat, near: nat, far: nat)
    requires size == Pow2(k) + near + far && near < Pow2(k) && far % Pow2(k + 1) == 0
    ensures size % Pow2(k + 1) >= Pow2(k)
  {
    var m := Pow2(k + 1);
    assert far == far / m * m;
    DivisionUnique(size, m, far / m, Pow2(k) + near);
  }

  /** A chain from the sender of v back to v would go once around all ranks, and the digit k of their
      number would be one. */
  lemma OnceAround(c: Config, s: State, v: nat, k: nat, q: nat, w: nat, near: nat, far: nat)
    requires v < c.size == |s| && k < c.Rounds() && q == RecvFrom(c.size, k, v)
    requires s[q].gpu.Polling? && s[q].gpu.k < c.Rounds() && LeadsBack(c, s, v, k, q, w, near, far)
    requires s[q].expected == 1 || (s[q].expected == 2 && s[q].gpu.k < k)
    ensures c.size % Pow2(k + 1) >= Pow2(k)
  {
    if s[q].expected == 2 { Pow2Monotone(s[q].gpu.k + 1, k); }
    Pow2Monotone(s[q].gpu.k + 1, c.Rounds());
    var w' := BackToSelf(c.size, k, v, w, near + far);
    OnlyOnce(c.size, w', Pow2(k) + near + far);
    HighBit(c.size, k, near, far);
  }

  /** So the sender of v is none of the ranks that wait for v. */
  lemma SenderIsAhead(c: Config, s: State, v: nat, k: nat)
    requires Rested(c, s, v, k) && NoneOverrun(c, s) && c.size % Pow2(k + 1) < Pow2(k)
    ensures Triggered(s[RecvFrom(c.size, k, v)], k) >= 2
  {
    var q := RecvFrom(c.size, k, v);
    RestedRank(c, s, v, k, q);
    assert RankOk(c, q, s[q]);
    if Triggered(s[q], k) < 2 {
      var w, near, far := Chain(c, s, v, k, q);
      OnceAround(c, s, v, k, q, w, near, far);
    }
  }

  lemma BackToSelf(size: nat, k: nat, v: nat, w: nat, d: nat) returns (w': nat)
    requires v < size && k < Rounds(size) && RecvFrom(size, k, v) + Times(w, size) == v + d
    ensures Times(w', size) == Pow2(k) + d
  {
    RoundFits(size, k);
    w' := if Pow2(k) <= v then w else w + 1;
  }

  /** At rest some signal has been overwritten unread: that of v, if none before. */
  lemma RestedIsOverrun(c: Config, s: State, v: nat, k: nat) returns (r: nat)
    requires Rested(c, s, v, k) && c.size % Pow2(k + 1) < Pow2(k)
    ensures r < c.size && Overrun(c, s, r)
  {
    if r0: nat :| r0 < c.size && Overrun(c, s, r0) {
      r := r0;
    } else {
      r := v;
      RestedRank(c, s, v, k, v);
      assert RankOk(c, v, s[v]);
      var w, near, far := Chain(c, s, v, k, v);
      var q := RecvFrom(c.size, k, v);
      SenderIsAhead(c, s, v, k);
      RestedRank(c, s, v, k, q);
      TriggeredHasLanded(c, q, s[q], k, 2);
      assert LinkOk(c, s[q], s[v], k);
      assert s[v].sig[k][0] == CellAfter(Landed(s[q].ops[k]), 0, 1);
    }
  }

  // ---------------------------------------------------------------- exactly when

  /** A number that is not 2^n - 1 has a zero among its binary digits. */
  lemma {:induction false} ZeroDigit(size: nat) returns (k: nat)
    requires size >= 1 && !IsPowerOfTwo(size + 1)
    ensures k < Rounds(size) && size % Pow2(k + 1) < Pow2(k)
    decreases size
  {
    assert Pow2(0) == 1 && Pow2(1) == 2;
    if size % 2 == 0 {
      k := 0;
    } else {
      if m: nat :| size / 2 + 1 == Pow2(m) { assert size + 1 == Pow2(m + 1); }
      var k' := ZeroDigit(size / 2);
      k := k' + 1;
      BitMask.HalfModulo(size, Pow2(k'+ 1), Pow2(k + 1));
      RoundFits(size / 2, k');
      if Rounds(size) <= k { Pow2Monotone(Rounds(size), k); }
    }
  }

  /** With one slot, for every number of ranks but 2^n - 1: a run after which some rank never leaves the
      barrier it is in, whatever happens next. */
  lemma OneSlotSticks(c: Config) returns (schedule: seq<Event>, r: nat)
    requires c.Valid() && !EnoughSlots(c)
    ensures r < c.size && |Run(c, schedule)| == c.size
    ensures forall rest :: |Run(c, schedule + rest)| == c.size
    ensures forall rest :: Left(Run(c, schedule + rest)[r]) == Left(Run(c, schedule)[r]) < c.target
  {
    assert Pow2(1) == 2;
    var k := ZeroDigit(c.size);
    assert Run(c, []) == Init(c);
    schedule := Drive(c, [], 0, k);
    r := RestedIsOverrun(c, Run(c, schedule), 0, k);
    forall rest
      ensures |Run(c, schedule + rest)| == c.size
      ensures Left(Run(c, schedule + rest)[r]) == Left(Run(c, schedule)[r]) < c.target
    {
      NeverRecovers(c, schedule, rest, r);
      RunInv(c, schedule);
      assert RankOk(c, r, Run(c, schedule)[r]);
    }
  }

  /** Every run can be carried on until nothing moves. */
  lemma {:induction false} Settle(c: Config, schedule: seq<Event>) returns (more: seq<Event>)
    requires c.Valid() && c.target >= 1
    ensures Shape(c, Run(c, schedule + more)) && Quiescent(c, Run(c, schedule + more))
    decreases TotalWork(c) - Effective(c, schedule)
  {
    RunInv(c, schedule);
    EffectiveBounded(c, schedule);
    if ev :| Enabled(c, Run(c, schedule), ev) {
      OneMore(c, schedule, ev);
      var rest := Settle(c, schedule + [ev]);
      more := [ev] + rest;
      Joined(schedule, ev, rest);
    } else {
      more := [];
      Joined(schedule, GpuStep(0), more);
    }
  }

  /** Every run that comes to rest has taken every rank through all its barriers exactly if there are two
      slots, or 2^n - 1 ranks, or just one barrier. */
  lemma SlotsDecide(c: Config)
    requires c.Valid() && c.target >= 1
    ensures (forall schedule | Shape(c, Run(c, schedule)) && Quiescent(c, Run(c, schedule)) ::
               AllDone(c, Run(c, schedule)))
            <==> EnoughSlots(c)
  {
    if EnoughSlots(c) {
      forall schedule | Shape(c, Run(c, schedule)) && Quiescent(c, Run(c, schedule))
        ensures AllDone(c, Run(c, schedule))
      {
        RunInv(c, schedule);
        QuiescentIffDone(c, Run(c, schedule));
      }
    } else {
      var schedule, r := OneSlotSticks(c);
      var more := Settle(c, schedule);
      assert Left(Run(c, schedule + more)[r]) < c.target;
    }
  }
}
