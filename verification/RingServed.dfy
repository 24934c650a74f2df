/** Which ways of serving the edges of the ring make the product right: exactly those that serve every
    edge, and no element is ever written twice exactly if none serves an edge twice. */
module RingServed {
  import S = Sums
  import opened RingMultiply
  import P = RingProgress

  /** Every rank that has made all its steps holds the product. */
  ghost predicate AlwaysRight(c: Config)
    requires Valid(c)
  {
    forall schedule, r, block: nat, i: nat, j: nat |
      0 <= r < c.npes && InC(c, block, i, j) && Run(c, schedule)[r].step == c.npes ::
      HoldsEntry(c, Run(c, schedule)[r], r, block, i, j)
  }

  ghost predicate HoldsEntry(c: Config, rk: Rank, r: nat, block: nat, i: nat, j: nat)
    requires Valid(c) && r < c.npes && InC(c, block, i, j)
  {
    (block, i, j) in rk.c && rk.c[(block, i, j)] == Dot(c.a[r], c.b[block], i, j, c.n)
  }

  // ---------------------------------------------------------------- every run can be finished

  lemma Extend(c: Config, schedule: seq<Event>, ev: Event)
    requires Valid(c)
    ensures Run(c, schedule + [ev]) == Next(c, Run(c, schedule), ev)
  {
    assert (schedule + [ev])[..|schedule|] == schedule;
  }

  /** Work done so far, never more than there is. */
  ghost function Progress(c: Config, schedule: seq<Event>): int
    requires Valid(c)
  {
    S.Sum(P.Dones(c, Run(c, schedule)))
  }

  lemma GoOn(c: Config, schedule: seq<Event>, r: nat) returns (longer: seq<Event>)
    requires Valid(c) && r < c.npes && Run(c, schedule)[r].step < c.npes
    ensures Progress(c, schedule) < Progress(c, longer) <= P.TotalWork(c)
  {
    var ev := SomethingToDo(c, schedule, r);
    longer := schedule + [ev];
    P.EffectiveBounded(c, schedule);
    P.EffectiveBounded(c, longer);
    P.StepWorks(c, Run(c, schedule), ev);
    P.AllBounded(c, Run(c, longer));
    Extend(c, schedule, ev);
  }

  lemma {:induction false} CanFinish(c: Config, schedule: seq<Event>) returns (longer: seq<Event>)
    requires Valid(c)
    ensures forall r | 0 <= r < c.npes :: Run(c, longer)[r].step == c.npes
    decreases P.TotalWork(c) - Progress(c, schedule)
  {
    P.EffectiveBounded(c, schedule);
    if r: nat :| r < c.npes && Run(c, schedule)[r].step < c.npes {
      var more := GoOn(c, schedule, r);
      longer := CanFinish(c, more);
    } else {
      forall r | 0 <= r < c.npes ensures Run(c, schedule)[r].step == c.npes {
        assert P.Within(c, Run(c, schedule)[r]);
      }
      longer := schedule;
    }
  }

  // ---------------------------------------------------------------- an edge served by nobody

  /** Rank r has its own stripe in both buffers, that stripe is zero, and so is its C. */
  ghost predicate Starved(c: Config, rk: Rank, r: nat)
    requires Valid(c) && r < c.npes
  {
    && rk.b == [c.b[r], c.b[r]]
    && (forall k: nat, j: nat :: InB(c, k, j) ==> c.b[r][(k, j)] == 0)
    && forall block: nat, i: nat, j: nat :: InC(c, block, i, j) ==> (block, i, j) in rk.c && rk.c[(block, i, j)] == 0
  }

  lemma StaysStarved(c: Config, s: State, ev: Event, r: nat)
    requires Shape(c, s) && Enabled(c, s, ev) && r < c.npes && Starved(c, s[r], r)
    requires !Pushed(c, r) && !Pulled(c, r)
    ensures |Step(c, s, ev)| == c.npes && Starved(c, Step(c, s, ev)[r], r)
  {
    if ev.Push? { assert Right(c, Left(c, ev.r)) == ev.r; }
  }

  lemma {:induction false} AlwaysStarved(c: Config, schedule: seq<Event>, r: nat)
    requires Valid(c) && r < c.npes && !Pushed(c, r) && !Pulled(c, r)
    requires forall k: nat, j: nat :: InB(c, k, j) ==> c.b[r][(k, j)] == 0
    ensures Starved(c, Run(c, schedule)[r], r)
  {
    if schedule == [] {
      assert Init(c)[r].c == ZeroC(c);
      assert forall block: nat, i: nat, j: nat :: InC(c, block, i, j) ==> (block, i, j) in Cells(c);
    } else {
      AlwaysStarved(c, schedule[..|schedule| - 1], r);
      var g := RunPaced(c, schedule[..|schedule| - 1]);
      var s, ev := Run(c, schedule[..|schedule| - 1]), schedule[|schedule| - 1];
      if Enabled(c, s, ev) { StaysStarved(c, s, ev, r); }
    }
  }

  function Pairs(rows: nat, cols: nat): set<(nat, nat)> {
    set x: nat, y: nat | 0 <= x < rows && 0 <= y < cols :: (x, y)
  }

  function Constant(rows: nat, cols: nat, v: int): Matrix { map key | key in Pairs(rows, cols) :: v }

  /** The same ring with ones everywhere but in the stripe of B of rank r, which is zero. */
  function ZeroAt(c: Config, r: nat): Config {
    c.(a := seq(c.npes, q => Constant(c.ns, c.n, 1)),
       b := seq(c.npes, q => Constant(c.n, c.ns, if q == r then 0 else 1)))
  }

  lemma ConstantHolds(rows: nat, cols: nat, v: int, x: nat, y: nat)
    ensures (x, y) in Constant(rows, cols, v) <==> x < rows && y < cols
    ensures x < rows && y < cols ==> Constant(rows, cols, v)[(x, y)] == v
  {
  }

  lemma ZeroAtIsValid(c: Config, r: nat)
    requires Valid(c)
    ensures Valid(ZeroAt(c, r))
  {
    var d := ZeroAt(c, r);
    forall q | 0 <= q < c.npes ensures IsStripe(d, d.b[q]) {
      forall k: nat, j: nat ensures (k, j) in d.b[q] <==> InB(d, k, j) {
        ConstantHolds(c.n, c.ns, if q == r then 0 else 1, k, j);
      }
    }
  }

  lemma {:induction false} DotOfOnes(a: Matrix, b: Matrix, i: nat, j: nat, m: nat)
    requires forall k: nat | k < m :: (i, k) in a && (k, j) in b && a[(i, k)] == 1 && b[(k, j)] == 1
    ensures Dot(a, b, i, j, m) == m
  {
    if m > 0 { DotOfOnes(a, b, i, j, m - 1); }
  }

  /** A ring with an edge that nobody serves gives a wrong product for some matrices, in a finished run. */
  lemma UnservedEdgeIsWrong(c: Config, r: nat) returns (d: Config)
    requires Valid(c) && r < c.npes && !Pushed(c, r) && !Pulled(c, r) && c.n > 0 && c.ns > 0
    ensures Valid(d) && d == c.(a := d.a, b := d.b) && !AlwaysRight(d)
  {
    d := ZeroAt(c, r);
    ZeroAtIsValid(c, r);
    var schedule := CanFinish(d, []);
    forall k: nat, j: nat | InB(d, k, j) ensures d.b[r][(k, j)] == 0 { ConstantHolds(c.n, c.ns, 0, k, j); }
    AlwaysStarved(d, schedule, r);
    var block := Right(d, r);
    assert InC(d, block, 0, 0);
    forall k: nat | k < d.n
      ensures (0, k) in d.a[r] && (k, 0) in d.b[block] && d.a[r][(0, k)] == 1 && d.b[block][(k, 0)] == 1
    {
      ConstantHolds(c.ns, c.n, 1, 0, k);
      ConstantHolds(c.n, c.ns, 1, k, 0);
    }
    DotOfOnes(d.a[r], d.b[block], 0, 0, d.n);
    assert !HoldsEntry(d, Run(d, schedule)[r], r, block, 0, 0);
  }

  // ---------------------------------------------------------------- exactly when

  /** Who serves an edge does not depend on the matrices. */
  lemma FedDependsOnRing(c: Config, d: Config)
    requires Valid(c) && Valid(d) && d == c.(a := d.a, b := d.b) && Fed(c)
    ensures Fed(d)
  {
    forall r | 0 <= r < c.npes ensures Pushed(d, r) == Pushed(c, r) && Pulled(d, r) == Pulled(c, r) {
      assert Right(d, r) == Right(c, r) && Left(d, Right(d, r)) == Left(c, Right(c, r));
    }
  }

  /** The product is right for all matrices and in all interleavings exactly when every edge is served,
      once or twice. */
  lemma ProductRightIff(c: Config)
    requires Valid(c)
    ensures (forall d | Valid(d) && d == c.(a := d.a, b := d.b) :: AlwaysRight(d)) <==> Fed(c)
  {
    if Fed(c) {
      forall d | Valid(d) && d == c.(a := d.a, b := d.b) ensures AlwaysRight(d) {
        FedDependsOnRing(c, d);
        FedIsRight(d);
      }
    } else {
      var r :| 0 <= r < c.npes && !Pushed(c, r) && !Pulled(c, r);
      var d := UnservedEdgeIsWrong(c, r);
    }
  }

  lemma FedIsRight(c: Config)
    requires Valid(c) && Fed(c)
    ensures AlwaysRight(c)
  {
    forall schedule, r, block: nat, i: nat, j: nat |
      0 <= r < c.npes && InC(c, block, i, j) && Run(c, schedule)[r].step == c.npes
      ensures HoldsEntry(c, Run(c, schedule)[r], r, block, i, j)
    {
      ProductIsRight(c, schedule, r, block, i, j);
    }
  }

  /** Two different transfers that can both happen next write the same element. */
  ghost predicate DoubleWrite(c: Config, s: State, a: Event, b: Event) {
    && Shape(c, s) && a != b && (a.Push? || a.Pull?) && (b.Push? || b.Pull?) && Enabled(c, s, a) && Enabled(c, s, b)
    && Writes(c, s, a) == Writes(c, s, b) && a.k == b.k && a.j == b.j
  }

  /** That never happens exactly when no edge is served twice. */
  lemma NoDoubleWriteIff(c: Config)
    requires Valid(c)
    ensures (forall schedule, a, b :: !DoubleWrite(c, Run(c, schedule), a, b)) <==> FedOnce(c)
  {
    if FedOnce(c) {
      forall schedule, a, b ensures !DoubleWrite(c, Run(c, schedule), a, b) {
        if DoubleWrite(c, Run(c, schedule), a, b) { NoDoubleWrite(c, schedule, a, b); }
      }
    } else {
      var r :| 0 <= r < c.npes && Pushed(c, r) && Pulled(c, r);
      InitInv(c);
      assert Left(c, Right(c, r)) == r;
      assert DoubleWrite(c, Run(c, []), Push(Right(c, r), 0, 0), Pull(r, 0, 0));
    }
  }
}
