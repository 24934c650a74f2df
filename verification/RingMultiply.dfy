/** The ring matrix multiply: every rank keeps a row stripe of A, multiplies it with one column
    stripe of B per step, and in the same step hands that stripe to its left neighbour, by a
    remote put or by letting the neighbour pull it when both sit on one node. B is double
    buffered; a barrier ends each step. Puts, pulls and the atomic additions of the kernel are
    interleaved element by element, in any order. */
module RingMultiply {
  import opened Arithmetic

  /** A stripe of A has indices (i, k), a stripe of B (k, j), with i, j < ns and k < n. */
  type Matrix = map<(nat, nat), int>

  /** `hosts` are the host names, `ipc` each rank's switch for same-node copies. */
  datatype Config = Config(npes: nat, n: nat, ns: nat, a: seq<Matrix>, b: seq<Matrix>,
                           hosts: seq<nat>, ipc: seq<bool>)

  predicate InB(c: Config, k: nat, j: nat) { k < c.n && j < c.ns }

  predicate InC(c: Config, block: nat, i: nat, j: nat) { block < c.npes && i < c.ns && j < c.ns }

  ghost predicate IsStripe(c: Config, m: Matrix) {
    forall k: nat, j: nat :: (k, j) in m <==> InB(c, k, j)
  }

  ghost predicate Valid(c: Config) {
    && c.npes >= 2
    && |c.a| == |c.b| == |c.hosts| == |c.ipc| == c.npes
    && (forall r | 0 <= r < c.npes :: IsStripe(c, c.b[r]))
    && (forall r, i: nat, k: nat | 0 <= r < c.npes && i < c.ns && k < c.n :: (i, k) in c.a[r])
  }

  // ---------------------------------------------------------------- ring and locality

  function Right(c: Config, r: nat): (q: nat)
    requires r < c.npes
    ensures q < c.npes
  {
    if r + 1 < c.npes then r + 1 else 0
  }

  function Left(c: Config, r: nat): (q: nat)
    requires r < c.npes
    ensures q < c.npes && Right(c, q) == r
  {
    if r > 0 then r - 1 else c.npes - 1
  }

  predicate LeftIsLocal(c: Config, r: nat)
    requires r < c.npes && |c.hosts| == |c.ipc| == c.npes
  {
    c.ipc[r] && c.hosts[Left(c, r)] == c.hosts[r]
  }

  predicate RightIsLocal(c: Config, r: nat)
    requires r < c.npes && |c.hosts| == |c.ipc| == c.npes
  {
    c.ipc[r] && c.hosts[Right(c, r)] == c.hosts[r]
  }

  /** The edge into rank r is served by its right neighbour's put, or by its own pull. */
  predicate Pushed(c: Config, r: nat)
    requires r < c.npes && |c.hosts| == |c.ipc| == c.npes
  {
    !LeftIsLocal(c, Right(c, r))
  }

  predicate Pulled(c: Config, r: nat)
    requires r < c.npes && |c.hosts| == |c.ipc| == c.npes
  {
    RightIsLocal(c, r)
  }

  /** Neighbours on one host agree on the switch. */
  predicate SwitchAgrees(c: Config, r: nat)
    requires r < c.npes && |c.hosts| == |c.ipc| == c.npes
  {
    c.hosts[r] == c.hosts[Right(c, r)] ==> c.ipc[r] == c.ipc[Right(c, r)]
  }

  /** An edge is served exactly once, by push or by pull, exactly when the two ends agree. */
  lemma EdgeServedOnceIff(c: Config, r: nat)
    requires c.npes >= 2 && r < c.npes && |c.hosts| == |c.ipc| == c.npes
    ensures Pushed(c, r) != Pulled(c, r) <==> SwitchAgrees(c, r)
  {
    assert Left(c, Right(c, r)) == r;
  }

  /** Every edge is served, by push or by pull or by both, or there is nothing to carry. */
  ghost predicate Fed(c: Config) {
    && |c.hosts| == |c.ipc| == c.npes
    && (c.n == 0 || c.ns == 0 || forall r | 0 <= r < c.npes :: Pushed(c, r) || Pulled(c, r))
  }

  /** No edge is served twice, or there is nothing to carry. */
  ghost predicate FedOnce(c: Config) {
    && |c.hosts| == |c.ipc| == c.npes
    && (c.n == 0 || c.ns == 0 || forall r | 0 <= r < c.npes :: !(Pushed(c, r) && Pulled(c, r)))
  }

  ghost predicate Agreement(c: Config) {
    |c.hosts| == |c.ipc| == c.npes && forall r | 0 <= r < c.npes :: SwitchAgrees(c, r)
  }

  /** Neighbours that agree serve every edge, and none twice. */
  lemma AgreementServes(c: Config)
    requires c.npes >= 2 && Agreement(c)
    ensures Fed(c) && FedOnce(c)
  {
    forall r | 0 <= r < c.npes ensures Pushed(c, r) != Pulled(c, r) {
      assert SwitchAgrees(c, r);
      EdgeServedOnceIff(c, r);
    }
  }

  /** The stripe of B that rank r holds at step s. */
  function StripeAt(c: Config, r: nat, s: nat): (q: nat)
    requires r < c.npes
    ensures q < c.npes
  {
    if s == 0 then r else Right(c, StripeAt(c, r, s - 1))
  }

  lemma {:induction false} StripeMoves(c: Config, r: nat, s: nat)
    requires r < c.npes
    ensures StripeAt(c, Right(c, r), s) == StripeAt(c, r, s + 1)
  {
    if s > 0 { StripeMoves(c, r, s - 1); }
  }

  lemma {:induction false} StripeClosed(c: Config, r: nat, s: nat)
    requires r < c.npes && s < c.npes
    ensures StripeAt(c, r, s) == if r + s < c.npes then r + s else r + s - c.npes
  {
    if s > 0 { StripeClosed(c, r, s - 1); }
  }

  /** The step in which rank r multiplies with stripe `block`. */
  function StepOf(c: Config, r: nat, block: nat): (s: nat)
    requires r < c.npes && block < c.npes
    ensures s < c.npes && StripeAt(c, r, s) == block
  {
    var s := if r <= block then block - r else block + c.npes - r;
    StripeClosed(c, r, s);
    s
  }

  // ---------------------------------------------------------------- state and actions

  /** `step`: barriers passed; `atBarrier`: this step's work is done. The sets record the elements
      put, pulled and added in this step. C is indexed by column block, row and column. */
  datatype Rank = Rank(step: nat, atBarrier: bool, b: seq<Matrix>, c: map<(nat, nat, nat), int>,
                       pushed: set<(nat, nat)>, pulled: set<(nat, nat)>, added: set<(nat, nat, nat)>)

  type State = seq<Rank>

  datatype Event =
    | Push(r: nat, k: nat, j: nat)
    | Pull(r: nat, k: nat, j: nat)
    | Add(r: nat, i: nat, k: nat, j: nat)
    | Arrive(r: nat)
    | Leave(r: nat)

  ghost predicate Shape(c: Config, s: State) {
    && Valid(c) && |s| == c.npes
    && forall r | 0 <= r < c.npes ::
         && |s[r].b| == 2 && IsStripe(c, s[r].b[0]) && IsStripe(c, s[r].b[1])
         && forall block: nat, i: nat, j: nat :: InC(c, block, i, j) ==> (block, i, j) in s[r].c
  }

  predicate Working(c: Config, rk: Rank) { rk.step < c.npes && !rk.atBarrier }

  ghost predicate WorkDone(c: Config, r: nat, rk: Rank)
    requires Valid(c) && r < c.npes
  {
    && (!LeftIsLocal(c, r) ==> forall k: nat, j: nat :: InB(c, k, j) ==> (k, j) in rk.pushed)
    && (RightIsLocal(c, r) ==> forall k: nat, j: nat :: InB(c, k, j) ==> (k, j) in rk.pulled)
    && (forall i: nat, k: nat, j: nat :: i < c.ns && InB(c, k, j) ==> (i, k, j) in rk.added)
  }

  /** Steps whose work the rank has finished. */
  function Finished(rk: Rank): nat { if rk.atBarrier then rk.step + 1 else rk.step }

  ghost predicate Enabled(c: Config, s: State, ev: Event)
    requires Shape(c, s)
  {
    ev.r < c.npes &&
    match ev
    case Push(r, k, j) => Working(c, s[r]) && !LeftIsLocal(c, r) && InB(c, k, j) && (k, j) !in s[r].pushed
    case Pull(r, k, j) => Working(c, s[r]) && RightIsLocal(c, r) && InB(c, k, j) && (k, j) !in s[r].pulled
    case Add(r, i, k, j) => Working(c, s[r]) && i < c.ns && InB(c, k, j) && (i, k, j) !in s[r].added
    case Arrive(r) => Working(c, s[r]) && WorkDone(c, r, s[r])
    case Leave(r) => s[r].atBarrier && forall q | 0 <= q < c.npes :: Finished(s[q]) > s[r].step
  }

  /** Element (k, j) of buffer x becomes v. */
  function Store(rk: Rank, x: nat, k: nat, j: nat, v: int): Rank
    requires x < |rk.b|
  {
    rk.(b := rk.b[x := rk.b[x][(k, j) := v]])
  }

  ghost function Step(c: Config, s: State, ev: Event): State
    requires Shape(c, s) && Enabled(c, s, ev)
  {
    match ev
    case Push(r, k, j) =>
      var l := Left(c, r);
      var s1 := s[r := s[r].(pushed := s[r].pushed + {(k, j)})];
      s1[l := Store(s1[l], (s[r].step + 1) % 2, k, j, s[r].b[s[r].step % 2][(k, j)])]
    case Pull(r, k, j) =>
      var rk := s[r].(pulled := s[r].pulled + {(k, j)});
      s[r := Store(rk, (rk.step + 1) % 2, k, j, s[Right(c, r)].b[rk.step % 2][(k, j)])]
    case Add(r, i, k, j) =>
      var rk := s[r];
      var cell := (StripeAt(c, r, rk.step), i, j);
      s[r := rk.(c := rk.c[cell := rk.c[cell] + c.a[r][(i, k)] * rk.b[rk.step % 2][(k, j)]],
                 added := rk.added + {(i, k, j)})]
    case Arrive(r) => s[r := s[r].(atBarrier := true)]
    case Leave(r) =>
      s[r := s[r].(step := s[r].step + 1, atBarrier := false, pushed := {}, pulled := {}, added := {})]
  }

  function Cells(c: Config): set<(nat, nat, nat)> {
    set block: nat, i: nat, j: nat | 0 <= block < c.npes && 0 <= i < c.ns && 0 <= j < c.ns :: (block, i, j)
  }

  function ZeroC(c: Config): map<(nat, nat, nat), int> { map cell | cell in Cells(c) :: 0 }

  /** Both buffers start with the rank's own stripe of B. */
  ghost function Init(c: Config): State
    requires Valid(c)
  {
    seq(c.npes, r requires 0 <= r < c.npes => Rank(0, false, [c.b[r], c.b[r]], ZeroC(c), {}, {}, {}))
  }

  // ---------------------------------------------------------------- sums

  /** The entry the multiplication should produce: the sum over k < m of a[i,k] * b[k,j]. */
  ghost function Dot(a: Matrix, b: Matrix, i: nat, j: nat, m: nat): int
    requires forall k: nat | k < m :: (i, k) in a && (k, j) in b
  {
    if m == 0 then 0 else Dot(a, b, i, j, m - 1) + a[(i, m - 1)] * b[(m - 1, j)]
  }

  /** The part of that sum whose terms have been added. */
  ghost function Part(added: set<(nat, nat, nat)>, a: Matrix, b: Matrix, i: nat, j: nat, m: nat): int
    requires forall k: nat | k < m :: (i, k) in a && (k, j) in b
  {
    if m == 0 then 0
    else Part(added, a, b, i, j, m - 1) + if (i, m - 1, j) in added then a[(i, m - 1)] * b[(m - 1, j)] else 0
  }

  lemma {:induction false} PartGrows(added: set<(nat, nat, nat)>, a: Matrix, b: Matrix, i: nat, j: nat, m: nat,
                                     i': nat, k': nat, j': nat)
    requires forall k: nat | k < m :: (i, k) in a && (k, j) in b
    requires (i', k', j') !in added
    ensures Part(added + {(i', k', j')}, a, b, i, j, m)
         == Part(added, a, b, i, j, m) + if i' == i && j' == j && k' < m then a[(i, k')] * b[(k', j)] else 0
  {
    if m > 0 { PartGrows(added, a, b, i, j, m - 1, i', k', j'); }
  }

  lemma {:induction false} PartOfNothing(a: Matrix, b: Matrix, i: nat, j: nat, m: nat)
    requires forall k: nat | k < m :: (i, k) in a && (k, j) in b
    ensures Part({}, a, b, i, j, m) == 0
  {
    if m > 0 { PartOfNothing(a, b, i, j, m - 1); }
  }

  lemma {:induction false} PartOfAll(added: set<(nat, nat, nat)>, a: Matrix, b: Matrix, i: nat, j: nat, m: nat)
    requires forall k: nat | k < m :: (i, k) in a && (k, j) in b && (i, k, j) in added
    ensures Part(added, a, b, i, j, m) == Dot(a, b, i, j, m)
  {
    if m > 0 { PartOfAll(added, a, b, i, j, m - 1); }
  }

  // ---------------------------------------------------------------- invariant

  /** Every rank is in step g, or has finished step g - 1 and not left its barrier yet. */
  ghost predicate InStep(c: Config, rk: Rank, g: nat) {
    && (rk.step == g || (rk.step + 1 == g && rk.atBarrier))
    && (rk.atBarrier ==> rk.step < c.npes)
  }

  /** Element (k, j) of the next stripe has reached rank r in step g. */
  ghost predicate Arrived(c: Config, s: State, g: nat, r: nat, k: nat, j: nat)
    requires Valid(c) && |s| == c.npes && r < c.npes
  {
    || (Pulled(c, r) && s[r].step == g && (k, j) in s[r].pulled)
    || (Pushed(c, r) && s[Right(c, r)].step == g && (k, j) in s[Right(c, r)].pushed)
  }

  ghost predicate BuffersOk(c: Config, s: State, g: nat, r: nat)
    requires Shape(c, s) && r < c.npes
  {
    && s[r].b[g % 2] == c.b[StripeAt(c, r, g)]
    && forall k: nat, j: nat :: InB(c, k, j) && Arrived(c, s, g, r, k, j) ==>
         s[r].b[(g + 1) % 2][(k, j)] == c.b[StripeAt(c, r, g + 1)][(k, j)]
  }

  ghost predicate CellOk(c: Config, r: nat, rk: Rank, block: nat, i: nat, j: nat)
    requires Valid(c) && r < c.npes && InC(c, block, i, j) && (block, i, j) in rk.c
  {
    var st := StepOf(c, r, block);
    rk.c[(block, i, j)] ==
      if st < rk.step then Dot(c.a[r], c.b[block], i, j, c.n)
      else if st == rk.step then Part(rk.added, c.a[r], c.b[block], i, j, c.n)
      else 0
  }

  ghost predicate CellsOk(c: Config, s: State)
    requires Shape(c, s)
  {
    forall r, block: nat, i: nat, j: nat | 0 <= r < c.npes && InC(c, block, i, j) :: CellOk(c, r, s[r], block, i, j)
  }

  /** The pace of the ranks, which the barrier keeps however the edges are served. */
  ghost predicate Paced(c: Config, s: State, g: nat) {
    && Shape(c, s)
    && (forall r | 0 <= r < c.npes :: InStep(c, s[r], g))
    && (forall r | 0 <= r < c.npes :: s[r].atBarrier ==> WorkDone(c, r, s[r]))
  }

  ghost predicate Inv(c: Config, s: State, g: nat) {
    && Paced(c, s, g)
    && (forall r | 0 <= r < c.npes :: BuffersOk(c, s, g, r))
    && CellsOk(c, s)
  }

  lemma InitInv(c: Config)
    requires Valid(c)
    ensures Inv(c, Init(c), 0)
  {
    var s := Init(c);
    assert forall r | 0 <= r < c.npes :: s[r].c == ZeroC(c) && s[r].added == {} && s[r].step == 0;
    assert forall block: nat, i: nat, j: nat :: InC(c, block, i, j) ==> (block, i, j) in Cells(c);
    forall r, block: nat, i: nat, j: nat | 0 <= r < c.npes && InC(c, block, i, j)
      ensures (block, i, j) in s[r].c && CellOk(c, r, s[r], block, i, j)
    {
      PartOfNothing(c.a[r], c.b[block], i, j, c.n);
    }
  }

  // ---------------------------------------------------------------- every action keeps it

  /** The step in which a stripe is used is unique. */
  lemma StepIsUnique(c: Config, r: nat, s: nat)
    requires r < c.npes && s < c.npes
    ensures StepOf(c, r, StripeAt(c, r, s)) == s
  {
    StripeClosed(c, r, s);
    StripeClosed(c, r, StepOf(c, r, StripeAt(c, r, s)));
  }

  lemma SameCells(c: Config, s: State, s': State)
    requires Shape(c, s) && Shape(c, s') && CellsOk(c, s)
    requires forall q | 0 <= q < c.npes ::
               s'[q].step == s[q].step && s'[q].c == s[q].c && s'[q].added == s[q].added
    ensures CellsOk(c, s')
  {
    forall q, block: nat, i: nat, j: nat | 0 <= q < c.npes && InC(c, block, i, j)
      ensures CellOk(c, q, s'[q], block, i, j)
    {
      assert CellOk(c, q, s[q], block, i, j);
    }
  }

  /** The action keeps every rank's progress and stores into one rank's next buffer the element
      of its next stripe. */
  ghost predicate StoresNext(c: Config, s: State, s': State, g: nat, r: nat, k: nat, j: nat)
    requires Shape(c, s)
  {
    && |s'| == c.npes && r < c.npes && InB(c, k, j)
    && (forall q | 0 <= q < c.npes ::
          s'[q].step == s[q].step && s'[q].atBarrier == s[q].atBarrier && s'[q].c == s[q].c && s'[q].added == s[q].added)
    && (forall q | 0 <= q < c.npes :: s[q].pushed <= s'[q].pushed && s[q].pulled <= s'[q].pulled)
    && (forall q | 0 <= q < c.npes && q != r :: s'[q].b == s[q].b)
    && s'[r].b == s[r].b[(g + 1) % 2 := s[r].b[(g + 1) % 2][(k, j) := c.b[StripeAt(c, r, g + 1)][(k, j)]]]
    && (forall q, k': nat, j': nat | 0 <= q < c.npes && Arrived(c, s', g, q, k', j') ::
          Arrived(c, s, g, q, k', j') || (q == r && k' == k && j' == j))
  }

  lemma StoreKeepsInv(c: Config, s: State, s': State, g: nat, r: nat, k: nat, j: nat)
    requires Inv(c, s, g) && StoresNext(c, s, s', g, r, k, j)
    ensures Inv(c, s', g)
  {
    assert Shape(c, s');
    SameCells(c, s, s');
    forall q | 0 <= q < c.npes ensures InStep(c, s'[q], g) {
      assert InStep(c, s[q], g);
    }
    forall q | 0 <= q < c.npes ensures BuffersOk(c, s', g, q) {
      assert BuffersOk(c, s, g, q);
    }
  }

  lemma PushStores(c: Config, s: State, g: nat, r: nat, k: nat, j: nat)
    requires Inv(c, s, g) && Enabled(c, s, Push(r, k, j))
    ensures StoresNext(c, s, Step(c, s, Push(r, k, j)), g, Left(c, r), k, j)
  {
    var s', l := Step(c, s, Push(r, k, j)), Left(c, r);
    assert InStep(c, s[r], g) && BuffersOk(c, s, g, r);
    StripeMoves(c, l, g);
    forall q, k': nat, j': nat | 0 <= q < c.npes && Arrived(c, s', g, q, k', j')
      ensures Arrived(c, s, g, q, k', j') || (q == l && k' == k && j' == j)
    {
      assert Right(c, q) == r ==> q == l;
    }
  }

  lemma PushKeepsInv(c: Config, s: State, g: nat, r: nat, k: nat, j: nat)
    requires Inv(c, s, g) && Enabled(c, s, Push(r, k, j))
    ensures Inv(c, Step(c, s, Push(r, k, j)), g)
  {
    PushStores(c, s, g, r, k, j);
    StoreKeepsInv(c, s, Step(c, s, Push(r, k, j)), g, Left(c, r), k, j);
  }

  lemma PullKeepsInv(c: Config, s: State, g: nat, r: nat, k: nat, j: nat)
    requires Inv(c, s, g) && Enabled(c, s, Pull(r, k, j))
    ensures Inv(c, Step(c, s, Pull(r, k, j)), g)
  {
    var s' := Step(c, s, Pull(r, k, j));
    assert InStep(c, s[r], g) && BuffersOk(c, s, g, Right(c, r)) && InStep(c, s[Right(c, r)], g);
    StripeMoves(c, r, g);
    StoreKeepsInv(c, s, s', g, r, k, j);
  }

  lemma AddKeepsCell(c: Config, s: State, g: nat, r: nat, i: nat, k: nat, j: nat, block: nat, i': nat, j': nat)
    requires Inv(c, s, g) && Enabled(c, s, Add(r, i, k, j)) && InC(c, block, i', j')
    ensures CellOk(c, r, Step(c, s, Add(r, i, k, j))[r], block, i', j')
  {
    assert InStep(c, s[r], g) && BuffersOk(c, s, g, r) && CellOk(c, r, s[r], block, i', j');
    StepIsUnique(c, r, g);
    if StepOf(c, r, block) == g {
      PartGrows(s[r].added, c.a[r], c.b[block], i', j', c.n, i, k, j);
    }
  }

  lemma AddKeepsInv(c: Config, s: State, g: nat, r: nat, i: nat, k: nat, j: nat)
    requires Inv(c, s, g) && Enabled(c, s, Add(r, i, k, j))
    ensures Inv(c, Step(c, s, Add(r, i, k, j)), g)
  {
    var s' := Step(c, s, Add(r, i, k, j));
    forall q | 0 <= q < c.npes ensures BuffersOk(c, s', g, q) {
      assert BuffersOk(c, s, g, q);
    }
    forall q, block: nat, i': nat, j': nat | 0 <= q < c.npes && InC(c, block, i', j')
      ensures CellOk(c, q, s'[q], block, i', j')
    {
      assert CellOk(c, q, s[q], block, i', j');
      if q == r { AddKeepsCell(c, s, g, r, i, k, j, block, i', j'); }
    }
  }

  lemma ArriveKeepsInv(c: Config, s: State, g: nat, r: nat)
    requires Inv(c, s, g) && Enabled(c, s, Arrive(r))
    ensures Inv(c, Step(c, s, Arrive(r)), g)
  {
    var s' := Step(c, s, Arrive(r));
    SameCells(c, s, s');
    forall q | 0 <= q < c.npes ensures InStep(c, s'[q], g) && BuffersOk(c, s', g, q) {
      assert InStep(c, s[q], g) && BuffersOk(c, s, g, q);
    }
  }

  /** Every edge being served: once every rank has finished step g, every rank holds the whole stripe of
      step g + 1. */
  lemma NextStripeIsHere(c: Config, s: State, g: nat, r: nat)
    requires Inv(c, s, g) && Fed(c) && r < c.npes
    requires forall q | 0 <= q < c.npes :: Finished(s[q]) > g
    ensures s[r].b[(g + 1) % 2] == c.b[StripeAt(c, r, g + 1)]
  {
    var right := Right(c, r);
    assert InStep(c, s[r], g) && InStep(c, s[right], g) && BuffersOk(c, s, g, r);
    assert Left(c, right) == r;
    var here, stripe := s[r].b[(g + 1) % 2], c.b[StripeAt(c, r, g + 1)];
    assert IsStripe(c, here) && IsStripe(c, stripe);
    forall k: nat, j: nat | InB(c, k, j) ensures here[(k, j)] == stripe[(k, j)] {
      assert Arrived(c, s, g, r, k, j);
    }
    assert forall key :: key in here <==> InB(c, key.0, key.1);
    assert forall key :: key in stripe <==> InB(c, key.0, key.1);
  }

  /** The step all ranks are in after `r` leaves its barrier. */
  function StepAfterLeave(s: State, g: nat, r: nat): nat
    requires r < |s|
  {
    if s[r].step == g then g + 1 else g
  }

  lemma LeaveArrivals(c: Config, s: State, g: nat, r: nat, q: nat, k: nat, j: nat)
    requires Inv(c, s, g) && Enabled(c, s, Leave(r)) && q < c.npes
    requires Arrived(c, Step(c, s, Leave(r)), StepAfterLeave(s, g, r), q, k, j)
    ensures s[r].step != g && Arrived(c, s, g, q, k, j)
  {
    assert InStep(c, s[r], g) && InStep(c, s[q], g) && InStep(c, s[Right(c, q)], g);
  }

  lemma LeaveKeepsBuffers(c: Config, s: State, g: nat, r: nat, q: nat)
    requires Inv(c, s, g) && Fed(c) && Enabled(c, s, Leave(r)) && q < c.npes
    ensures Shape(c, Step(c, s, Leave(r)))
    ensures BuffersOk(c, Step(c, s, Leave(r)), StepAfterLeave(s, g, r), q)
  {
    assert InStep(c, s[r], g) && BuffersOk(c, s, g, q);
    var s', g' := Step(c, s, Leave(r)), StepAfterLeave(s, g, r);
    if s[r].step == g { NextStripeIsHere(c, s, g, q); }
    forall k: nat, j: nat | InB(c, k, j) && Arrived(c, s', g', q, k, j)
      ensures s'[q].b[(g' + 1) % 2][(k, j)] == c.b[StripeAt(c, q, g' + 1)][(k, j)]
    {
      LeaveArrivals(c, s, g, r, q, k, j);
    }
  }

  lemma LeaveKeepsCell(c: Config, s: State, g: nat, r: nat, block: nat, i: nat, j: nat)
    requires Inv(c, s, g) && Enabled(c, s, Leave(r)) && InC(c, block, i, j)
    ensures CellOk(c, r, Step(c, s, Leave(r))[r], block, i, j)
  {
    var rk := s[r];
    assert CellOk(c, r, rk, block, i, j);
    PartOfNothing(c.a[r], c.b[block], i, j, c.n);
    if StepOf(c, r, block) == rk.step {
      PartOfAll(rk.added, c.a[r], c.b[block], i, j, c.n);
    }
  }

  lemma LeaveKeepsInv(c: Config, s: State, g: nat, r: nat)
    requires Inv(c, s, g) && Fed(c) && Enabled(c, s, Leave(r))
    ensures Inv(c, Step(c, s, Leave(r)), StepAfterLeave(s, g, r))
  {
    var s', g' := Step(c, s, Leave(r)), StepAfterLeave(s, g, r);
    forall q | 0 <= q < c.npes ensures InStep(c, s'[q], g') {
      assert InStep(c, s[q], g) && InStep(c, s[r], g) && Finished(s[q]) > s[r].step;
    }
    forall q | 0 <= q < c.npes ensures BuffersOk(c, s', g', q) {
      LeaveKeepsBuffers(c, s, g, r, q);
    }
    forall q, block: nat, i: nat, j: nat | 0 <= q < c.npes && InC(c, block, i, j)
      ensures CellOk(c, q, s'[q], block, i, j)
    {
      assert CellOk(c, q, s[q], block, i, j);
      if q == r { LeaveKeepsCell(c, s, g, r, block, i, j); }
    }
  }

  // ---------------------------------------------------------------- schedules

  ghost function Next(c: Config, s: State, ev: Event): State {
    if Shape(c, s) && Enabled(c, s, ev) then Step(c, s, ev) else s
  }

  ghost function Run(c: Config, schedule: seq<Event>): (s: State)
    requires Valid(c)
    ensures |s| == c.npes
  {
    if schedule == [] then Init(c) else Next(c, Run(c, schedule[..|schedule| - 1]), schedule[|schedule| - 1])
  }

  lemma StoreKeepsPace(c: Config, s: State, g: nat, ev: Event)
    requires Paced(c, s, g) && Enabled(c, s, ev) && (ev.Push? || ev.Pull?)
    ensures Paced(c, Step(c, s, ev), g)
  {
    var s' := Step(c, s, ev);
    forall q | 0 <= q < c.npes ensures InStep(c, s'[q], g) && (s'[q].atBarrier ==> WorkDone(c, q, s'[q])) {
      assert InStep(c, s[q], g) && InStep(c, s[ev.r], g);
    }
  }

  lemma LeaveKeepsPace(c: Config, s: State, g: nat, r: nat)
    requires Paced(c, s, g) && Enabled(c, s, Leave(r))
    ensures Paced(c, Step(c, s, Leave(r)), StepAfterLeave(s, g, r))
  {
    var s', g' := Step(c, s, Leave(r)), StepAfterLeave(s, g, r);
    forall q | 0 <= q < c.npes ensures InStep(c, s'[q], g') && (s'[q].atBarrier ==> WorkDone(c, q, s'[q])) {
      assert InStep(c, s[q], g) && InStep(c, s[r], g) && Finished(s[q]) > s[r].step;
    }
  }

  lemma OwnStepKeepsPace(c: Config, s: State, g: nat, ev: Event)
    requires Paced(c, s, g) && Enabled(c, s, ev) && (ev.Add? || ev.Arrive?)
    ensures Paced(c, Step(c, s, ev), g)
  {
    var s' := Step(c, s, ev);
    forall q | 0 <= q < c.npes ensures InStep(c, s'[q], g) && (s'[q].atBarrier ==> WorkDone(c, q, s'[q])) {
      assert InStep(c, s[q], g);
    }
  }

  function StepAfter(s: State, g: nat, ev: Event): nat
    requires ev.r < |s|
  {
    if ev.Leave? then StepAfterLeave(s, g, ev.r) else g
  }

  lemma StepKeepsPace(c: Config, s: State, g: nat, ev: Event)
    requires Paced(c, s, g) && Enabled(c, s, ev)
    ensures Paced(c, Step(c, s, ev), StepAfter(s, g, ev))
  {
    if ev.Leave? { LeaveKeepsPace(c, s, g, ev.r); }
    else if ev.Push? || ev.Pull? { StoreKeepsPace(c, s, g, ev); }
    else { OwnStepKeepsPace(c, s, g, ev); }
  }

  lemma {:induction false} RunPaced(c: Config, schedule: seq<Event>) returns (g: nat)
    requires Valid(c)
    ensures Paced(c, Run(c, schedule), g)
  {
    if schedule == [] {
      InitInv(c);
      g := 0;
    } else {
      g := RunPaced(c, schedule[..|schedule| - 1]);
      var s, ev := Run(c, schedule[..|schedule| - 1]), schedule[|schedule| - 1];
      if Enabled(c, s, ev) {
        StepKeepsPace(c, s, g, ev);
        g := StepAfter(s, g, ev);
      }
    }
  }

  lemma {:induction false} RunInv(c: Config, schedule: seq<Event>) returns (g: nat)
    requires Valid(c) && Fed(c)
    ensures Inv(c, Run(c, schedule), g)
  {
    if schedule == [] {
      InitInv(c);
      g := 0;
    } else {
      g := RunInv(c, schedule[..|schedule| - 1]);
      var s, ev := Run(c, schedule[..|schedule| - 1]), schedule[|schedule| - 1];
      if Enabled(c, s, ev) {
        match ev
        case Push(r, k, j) => PushKeepsInv(c, s, g, r, k, j);
        case Pull(r, k, j) => PullKeepsInv(c, s, g, r, k, j);
        case Add(r, i, k, j) => AddKeepsInv(c, s, g, r, i, k, j);
        case Arrive(r) => ArriveKeepsInv(c, s, g, r);
        case Leave(r) => LeaveKeepsInv(c, s, g, r); g := StepAfterLeave(s, g, r);
      }
    }
  }

  // ---------------------------------------------------------------- theorems

  /** If every edge is served, in every interleaving: while a rank computes in step s its current buffer
      holds the stripe of rank (r + s) mod npes. */
  lemma CurrentStripe(c: Config, schedule: seq<Event>, r: nat)
    requires Valid(c) && Fed(c) && r < c.npes
    ensures var rk := Run(c, schedule)[r];
            |rk.b| == 2
            && (Working(c, rk) ==> rk.b[rk.step % 2] == c.b[(r + rk.step) % c.npes])
  {
    var g := RunInv(c, schedule);
    var s := Run(c, schedule);
    assert InStep(c, s[r], g) && BuffersOk(c, s, g, r);
    if Working(c, s[r]) {
      StripeClosed(c, r, s[r].step);
      StripeWraps(c, r, s[r].step);
    }
  }

  lemma StripeWraps(c: Config, r: nat, s: nat)
    requires r < c.npes && s < c.npes
    ensures (r + s) % c.npes == if r + s < c.npes then r + s else r + s - c.npes
  {
    if r + s < c.npes { DivisionUnique(r + s, c.npes, 0, r + s); }
    else { DivisionUnique(r + s, c.npes, 1, r + s - c.npes); }
  }

  /** The buffer an action writes, as rank and index. */
  function Writes(c: Config, s: State, ev: Event): (nat, nat)
    requires |s| == c.npes && ev.r < c.npes && (ev.Push? || ev.Pull?)
  {
    (if ev.Push? then Left(c, ev.r) else ev.r, (s[ev.r].step + 1) % 2)
  }

  /** The buffer an action reads. */
  function Reads(c: Config, s: State, ev: Event): (nat, nat)
    requires |s| == c.npes && ev.r < c.npes && (ev.Push? || ev.Pull? || ev.Add?)
  {
    (if ev.Pull? then Right(c, ev.r) else ev.r, s[ev.r].step % 2)
  }

  /** No put or pull lands in a buffer that anybody is reading: two actions that can both happen
      next never touch the same buffer, one writing and one reading. */
  lemma NoBufferRace(c: Config, schedule: seq<Event>, w: Event, rd: Event)
    requires Valid(c) && Shape(c, Run(c, schedule))
    requires Enabled(c, Run(c, schedule), w) && (w.Push? || w.Pull?)
    requires Enabled(c, Run(c, schedule), rd) && (rd.Push? || rd.Pull? || rd.Add?)
    ensures Writes(c, Run(c, schedule), w) != Reads(c, Run(c, schedule), rd)
  {
    var g := RunPaced(c, schedule);
    var s := Run(c, schedule);
    assert InStep(c, s[w.r], g) && InStep(c, s[rd.r], g);
    SameStepDifferentBuffers(c, s, g, w, rd);
  }

  lemma SameStepDifferentBuffers(c: Config, s: State, g: nat, w: Event, rd: Event)
    requires |s| == c.npes && w.r < c.npes && rd.r < c.npes && s[w.r].step == s[rd.r].step == g
    requires (w.Push? || w.Pull?) && (rd.Push? || rd.Pull? || rd.Add?)
    ensures Writes(c, s, w) != Reads(c, s, rd)
  {
    assert Writes(c, s, w).1 == (g + 1) % 2 && Reads(c, s, rd).1 == g % 2;
  }

  /** Nor do two actions that can both happen next write the same element, if no edge is served twice. */
  lemma NoDoubleWrite(c: Config, schedule: seq<Event>, a: Event, b: Event)
    requires Valid(c) && FedOnce(c) && Shape(c, Run(c, schedule)) && a != b
    requires Enabled(c, Run(c, schedule), a) && (a.Push? || a.Pull?)
    requires Enabled(c, Run(c, schedule), b) && (b.Push? || b.Pull?)
    ensures Writes(c, Run(c, schedule), a) != Writes(c, Run(c, schedule), b) || (a.k, a.j) != (b.k, b.j)
  {
    var x := if a.Push? then Left(c, a.r) else a.r;
    assert Right(c, Left(c, a.r)) == a.r && Right(c, Left(c, b.r)) == b.r && !(Pushed(c, x) && Pulled(c, x));
  }

  /** If every edge is served, a rank that has made all its steps holds the product: entry (i, block * ns + j)
      is the sum over k of A[i, k] times column j of the stripe of rank `block`, whatever the interleaving. */
  lemma ProductIsRight(c: Config, schedule: seq<Event>, r: nat, block: nat, i: nat, j: nat)
    requires Valid(c) && Fed(c) && r < c.npes && InC(c, block, i, j)
    requires Run(c, schedule)[r].step == c.npes
    ensures (block, i, j) in Run(c, schedule)[r].c
    ensures Run(c, schedule)[r].c[(block, i, j)] == Dot(c.a[r], c.b[block], i, j, c.n)
  {
    var g := RunInv(c, schedule);
    assert CellOk(c, r, Run(c, schedule)[r], block, i, j);
  }

  /** The ring never sticks: as long as some rank has steps left, some action is enabled. */
  lemma SomethingToDo(c: Config, schedule: seq<Event>, r: nat) returns (ev: Event)
    requires Valid(c) && r < c.npes && Run(c, schedule)[r].step < c.npes
    ensures Shape(c, Run(c, schedule)) && Enabled(c, Run(c, schedule), ev)
  {
    var s := Run(c, schedule);
    var g := RunPaced(c, schedule);
    assert InStep(c, s[r], g);
    assert forall q | 0 <= q < c.npes :: InStep(c, s[q], g);
    if q :| 0 <= q < c.npes && s[q].step < g {
      ev := Leave(q);
    } else if q :| 0 <= q < c.npes && !s[q].atBarrier {
      ev := WorkLeft(c, s, q);
    } else {
      ev := Leave(r);
    }
  }

  lemma WorkLeft(c: Config, s: State, r: nat) returns (ev: Event)
    requires Shape(c, s) && r < c.npes && Working(c, s[r])
    ensures Enabled(c, s, ev)
  {
    if WorkDone(c, r, s[r]) {
      ev := Arrive(r);
    } else if !LeftIsLocal(c, r) && exists k: nat, j: nat :: InB(c, k, j) && (k, j) !in s[r].pushed {
      var k: nat, j: nat :| InB(c, k, j) && (k, j) !in s[r].pushed;
      ev := Push(r, k, j);
    } else if RightIsLocal(c, r) && exists k: nat, j: nat :: InB(c, k, j) && (k, j) !in s[r].pulled {
      var k: nat, j: nat :| InB(c, k, j) && (k, j) !in s[r].pulled;
      ev := Pull(r, k, j);
    } else {
      var i: nat, k: nat, j: nat :| i < c.ns && InB(c, k, j) && (i, k, j) !in s[r].added;
      ev := Add(r, i, k, j);
    }
  }
}
