/** The memory side of the ring multiply: the kernel thread adding into a flat, row-major stripe
    of C, and the pre-allocated put handles of the alternating-buffer variant. */
module MatmulKernel {
  import opened Arithmetic
  import opened RingMultiply
  import opened Wrappers

  // ---------------------------------------------------------------- flat layout

  /** Index of an entry in a row-major array of `width` columns: row * width + col. */
  function Index(row: nat, width: nat, col: nat): nat { Times(row, width) + col }

  lemma IndexIsRowMajor(row: nat, width: nat, col: nat)
    ensures Index(row, width, col) == row * width + col
  {
    TimesIsProduct(row, width);
  }

  /** Index of entry (i, block * ns + j) in the stripe of C. */
  function CellIndex(c: Config, block: nat, i: nat, j: nat): nat { Index(i, c.n, Index(block, c.ns, j)) }

  /** The dimensions the program computes: n is a multiple of the rank count. */
  predicate Divided(c: Config) { c.npes >= 1 && c.n == c.npes * c.ns }

  lemma CellIndexInRange(c: Config, block: nat, i: nat, j: nat)
    requires Divided(c) && InC(c, block, i, j)
    ensures Index(block, c.ns, j) < c.n && CellIndex(c, block, i, j) < c.ns * c.n
    ensures CellIndex(c, block, i, j) == i * c.n + (block * c.ns + j)
  {
    IndexIsRowMajor(block, c.ns, j);
    IndexIsRowMajor(i, c.n, Index(block, c.ns, j));
    RowMajor(block, c.npes, c.ns, j);
    RowMajor(i, c.ns, c.n, block * c.ns + j);
  }

  lemma IndexInjective(row: nat, col: nat, row': nat, col': nat, width: nat)
    requires col < width && col' < width && Index(row, width, col) == Index(row', width, col')
    ensures row == row' && col == col'
  {
    TimesIsProduct(row, width);
    TimesIsProduct(row', width);
    RowMajor(row, row + 1, width, col);
    RowMajor(row', row' + 1, width, col');
  }

  /** Different entries live at different indices. */
  lemma CellIndexInjective(c: Config, block: nat, i: nat, j: nat, block': nat, i': nat, j': nat)
    requires Divided(c) && InC(c, block, i, j) && InC(c, block', i', j')
    requires CellIndex(c, block, i, j) == CellIndex(c, block', i', j')
    ensures block == block' && i == i' && j == j'
  {
    CellIndexInRange(c, block, i, j);
    CellIndexInRange(c, block', i', j');
    IndexInjective(i, Index(block, c.ns, j), i', Index(block', c.ns, j'), c.n);
    IndexInjective(block, j, block', j', c.ns);
  }

  /** The flat array `cs` holds the entries `m`. */
  ghost predicate Holds(c: Config, cs: seq<int>, m: map<(nat, nat, nat), int>) {
    forall block: nat, i: nat, j: nat | InC(c, block, i, j) ::
      (block, i, j) in m && CellIndex(c, block, i, j) < |cs| && cs[CellIndex(c, block, i, j)] == m[(block, i, j)]
  }

  /** The flat array `flat` of `width` columns holds the stripe `m` (rows times columns). */
  ghost predicate HoldsStripe(flat: seq<int>, m: Matrix, rows: nat, width: nat) {
    forall i: nat, j: nat | i < rows && j < width ::
      (i, j) in m && Index(i, width, j) < |flat| && flat[Index(i, width, j)] == m[(i, j)]
  }

  /** Column `col` of the stripe is column col % ns of the block of rank col / ns. */
  lemma ColumnOfBlock(c: Config, i: nat, col: nat)
    requires Divided(c) && i < c.ns && col < c.n
    ensures c.ns > 0 && InC(c, col / c.ns, i, col % c.ns)
    ensures CellIndex(c, col / c.ns, i, col % c.ns) == i * c.n + col
  {
    var block, j := col / c.ns, col % c.ns;
    assert col == block * c.ns + j;
    if block >= c.npes { MulMonotone(c.npes, block, c.ns); }
    CellIndexInRange(c, block, i, j);
  }

  /** The flat stripe of a rank that has made all its steps is the product: row i, column j of the
      block of rank `block` is the sum over k of A[i, k] times entry (k, j) of that rank's stripe of B. */
  lemma FlatProduct(c: Config, schedule: seq<Event>, r: nat, cs: seq<int>, block: nat, i: nat, j: nat)
    requires Valid(c) && Fed(c) && r < c.npes && InC(c, block, i, j)
    requires Run(c, schedule)[r].step == c.npes && Holds(c, cs, Run(c, schedule)[r].c)
    ensures CellIndex(c, block, i, j) < |cs|
    ensures cs[CellIndex(c, block, i, j)] == Dot(c.a[r], c.b[block], i, j, c.n)
  {
    ProductIsRight(c, schedule, r, block, i, j);
  }

  // ---------------------------------------------------------------- one thread

  /** The entries after the first `m` additions of thread (k, j) on stripe `block`. */
  ghost function Added(c: Config, e: map<(nat, nat, nat), int>, a: Matrix, b: Matrix,
                       block: nat, k: nat, j: nat, m: nat): (e': map<(nat, nat, nat), int>)
    requires m <= c.ns && block < c.npes && InB(c, k, j)
    requires forall i: nat | i < c.ns :: (i, k) in a && (block, i, j) in e
    requires (k, j) in b
    ensures e'.Keys == e.Keys
  {
    if m == 0 then e
    else
      var before := Added(c, e, a, b, block, k, j, m - 1);
      before[(block, m - 1, j) := before[(block, m - 1, j)] + a[(m - 1, k)] * b[(k, j)]]
  }

  /** One addition changes one flat cell, because no two entries share an index. */
  lemma OneAddition(c: Config, cs: seq<int>, m: map<(nat, nat, nat), int>, block: nat, i: nat, j: nat, v: int)
    requires Divided(c) && InC(c, block, i, j) && Holds(c, cs, m)
    ensures CellIndex(c, block, i, j) < |cs|
    ensures Holds(c, cs[CellIndex(c, block, i, j) := v], m[(block, i, j) := v])
  {
    var cs', m' := cs[CellIndex(c, block, i, j) := v], m[(block, i, j) := v];
    forall block': nat, i': nat, j': nat | InC(c, block', i', j')
      ensures (block', i', j') in m' && CellIndex(c, block', i', j') < |cs'|
      ensures cs'[CellIndex(c, block', i', j')] == m'[(block', i', j')]
    {
      if CellIndex(c, block', i', j') == CellIndex(c, block, i, j) {
        CellIndexInjective(c, block', i', j', block, i, j);
      }
    }
  }

  /** The flat C array `cv` holds the entries `e` after the first i additions of thread (k, j). */
  ghost predicate Progress(c: Config, e: map<(nat, nat, nat), int>, a: Matrix, b: Matrix, cv: seq<int>,
                           block: nat, i: nat, k: nat, j: nat) {
    && i <= c.ns && block < c.npes && InB(c, k, j)
    && (forall x: nat | x < c.ns :: (x, k) in a && (block, x, j) in e)
    && (k, j) in b && Holds(c, cv, Added(c, e, a, b, block, k, j, i))
  }

  /** Addition i of thread (k, j), on the flat arrays. */
  lemma AdditionAt(c: Config, e: map<(nat, nat, nat), int>, a: Matrix, b: Matrix, av: seq<int>, bv: seq<int>,
                   cv: seq<int>, block: nat, i: nat, k: nat, j: nat)
    requires Divided(c) && i < c.ns && HoldsStripe(av, a, c.ns, c.n) && HoldsStripe(bv, b, c.n, c.ns)
    requires Progress(c, e, a, b, cv, block, i, k, j)
    ensures var at := CellIndex(c, block, i, j);
            && Index(i, c.n, k) < |av| && Index(k, c.ns, j) < |bv| && at < |cv|
            && Progress(c, e, a, b, cv[at := cv[at] + av[Index(i, c.n, k)] * bv[Index(k, c.ns, j)]], block, i + 1, k, j)
  {
    assert InC(c, block, i, j);
    var before := Added(c, e, a, b, block, k, j, i);
    assert InB(c, k, j) && cv[CellIndex(c, block, i, j)] == before[(block, i, j)];
    OneAddition(c, cv, before, block, i, j, before[(block, i, j)] + a[(i, k)] * b[(k, j)]);
  }

  method AtomicAdd(cs: array<int>, at: nat, v: int)
    requires at < cs.Length
    modifies cs
    ensures cs[..] == old(cs[..])[at := old(cs[..])[at] + v]
  {
    cs[at] := cs[at] + v;
  }

  /** The kernel body of thread (k, j), with its bounds test. */
  method MatmulThread(c: Config, ghost a: Matrix, ghost b: Matrix, ghost e: map<(nat, nat, nat), int>,
                      as_: array<int>, bs: array<int>, cs: array<int>, block: nat, k: nat, j: nat)
    requires Divided(c) && block < c.npes && cs != as_ && cs != bs
    requires HoldsStripe(as_[..], a, c.ns, c.n) && HoldsStripe(bs[..], b, c.n, c.ns) && Holds(c, cs[..], e)
    modifies cs
    ensures InB(c, k, j) ==> Progress(c, e, a, b, cs[..], block, c.ns, k, j)
    ensures !InB(c, k, j) ==> cs[..] == old(cs[..])
    ensures Behind(c, old(cs[..]), cs[..])
  {
    if k < c.n && j < c.ns {
      forall x: nat | x < c.ns ensures (x, k) in a && (block, x, j) in e { assert InC(c, block, x, j); }
      assert (k, j) in b && Index(k, c.ns, j) < |bs[..]|;
      ThreadLoop(c, a, b, e, as_, bs[..], cs, block, k, j, bs[Index(k, c.ns, j)]);
    }
  }

  /** Nothing behind the stripe is touched. */
  ghost predicate Behind(c: Config, cv: seq<int>, cv': seq<int>) {
    |cv'| == |cv| && forall x | c.ns * c.n <= x < |cv| :: cv'[x] == cv[x]
  }

  /** What a thread reads: its stripe of A, and its element of B. */
  ghost predicate Sources(c: Config, a: Matrix, b: Matrix, av: seq<int>, bv: seq<int>, k: nat, j: nat, bkj: int) {
    && HoldsStripe(av, a, c.ns, c.n) && HoldsStripe(bv, b, c.n, c.ns)
    && Index(k, c.ns, j) < |bv| && bkj == bv[Index(k, c.ns, j)]
  }

  method ThreadLoop(c: Config, ghost a: Matrix, ghost b: Matrix, ghost e: map<(nat, nat, nat), int>, as_: array<int>,
                    ghost bv: seq<int>, cs: array<int>, block: nat, k: nat, j: nat, bkj: int)
    requires Divided(c) && cs != as_ && Sources(c, a, b, as_[..], bv, k, j, bkj)
    requires Progress(c, e, a, b, cs[..], block, 0, k, j)
    modifies cs
    ensures Progress(c, e, a, b, cs[..], block, c.ns, k, j) && Behind(c, old(cs[..]), cs[..])
  {
    var column := Index(block, c.ns, j);
    for i := 0 to c.ns
      invariant Sources(c, a, b, as_[..], bv, k, j, bkj)
      invariant Progress(c, e, a, b, cs[..], block, i, k, j) && Behind(c, old(cs[..]), cs[..])
    {
      ThreadStep(c, a, b, e, as_, bv, cs, block, i, k, j, column, bkj);
    }
  }

  method ThreadStep(c: Config, ghost a: Matrix, ghost b: Matrix, ghost e: map<(nat, nat, nat), int>, as_: array<int>,
                    ghost bv: seq<int>, cs: array<int>, block: nat, i: nat, k: nat, j: nat, column: nat, bkj: int)
    requires Divided(c) && cs != as_ && i < c.ns && column == Index(block, c.ns, j)
    requires Sources(c, a, b, as_[..], bv, k, j, bkj)
    requires Progress(c, e, a, b, cs[..], block, i, k, j)
    modifies cs
    ensures as_[..] == old(as_[..]) && Progress(c, e, a, b, cs[..], block, i + 1, k, j)
    ensures Behind(c, old(cs[..]), cs[..])
  {
    CellIndexInRange(c, block, i, j);
    AdditionAt(c, e, a, b, as_[..], bv, cs[..], block, i, k, j);
    AtomicAdd(cs, Index(i, c.n, column), as_[Index(i, c.n, k)] * bkj);
  }

  /** The schedule a thread contributes: its additions in order. */
  function ThreadEvents(r: nat, k: nat, j: nat, m: nat): (evs: seq<Event>)
    ensures |evs| == m
  {
    seq(m, i requires 0 <= i < m => Add(r, i, k, j))
  }

  ghost function RunFrom(c: Config, s: State, evs: seq<Event>): State {
    if evs == [] then s else Next(c, RunFrom(c, s, evs[..|evs| - 1]), evs[|evs| - 1])
  }

  /** Rank r is computing with stripe StripeAt(c, r, g) in its current buffer. */
  ghost predicate Computing(c: Config, s: State, g: nat, r: nat) {
    && Shape(c, s) && r < c.npes && Working(c, s[r]) && s[r].step == g
    && s[r].b[g % 2] == c.b[StripeAt(c, r, g)]
  }

  lemma InvComputing(c: Config, s: State, g: nat, r: nat)
    requires Inv(c, s, g) && r < c.npes && Working(c, s[r])
    ensures Computing(c, s, g, r)
  {
    assert InStep(c, s[r], g) && BuffersOk(c, s, g, r);
  }

  lemma OneAddEvent(c: Config, s: State, g: nat, r: nat, i: nat, k: nat, j: nat)
    requires Computing(c, s, g, r) && i < c.ns && InB(c, k, j) && (i, k, j) !in s[r].added
    ensures (StripeAt(c, r, g), i, j) in s[r].c && (i, k) in c.a[r] && (k, j) in c.b[StripeAt(c, r, g)]
    ensures var s' := Next(c, s, Add(r, i, k, j));
            var block := StripeAt(c, r, g);
            && Computing(c, s', g, r) && s'[r].added == s[r].added + {(i, k, j)}
            && s'[r].c == s[r].c[(block, i, j) := s[r].c[(block, i, j)] + c.a[r][(i, k)] * c.b[block][(k, j)]]
  {
    assert InC(c, StripeAt(c, r, g), i, j) && IsStripe(c, c.b[StripeAt(c, r, g)]);
  }

  /** Rank r has made the first m additions of thread (k, j), starting from the entries e. */
  ghost predicate ThreadAt(c: Config, s: State, g: nat, r: nat, k: nat, j: nat, e: map<(nat, nat, nat), int>, m: nat) {
    && Computing(c, s, g, r) && InB(c, k, j) && m <= c.ns
    && (forall i: nat | m <= i < c.ns :: (i, k, j) !in s[r].added)
    && (forall i: nat | i < c.ns :: (i, k) in c.a[r] && (StripeAt(c, r, g), i, j) in e)
    && (k, j) in c.b[StripeAt(c, r, g)]
    && s[r].c == Added(c, e, c.a[r], c.b[StripeAt(c, r, g)], StripeAt(c, r, g), k, j, m)
  }

  lemma ThreadStarts(c: Config, s: State, g: nat, r: nat, k: nat, j: nat)
    requires Computing(c, s, g, r) && InB(c, k, j) && forall i: nat | i < c.ns :: (i, k, j) !in s[r].added
    ensures ThreadAt(c, s, g, r, k, j, s[r].c, 0)
  {
    assert IsStripe(c, c.b[StripeAt(c, r, g)]);
    forall i: nat | i < c.ns ensures (StripeAt(c, r, g), i, j) in s[r].c { assert InC(c, StripeAt(c, r, g), i, j); }
  }

  lemma ThreadMoves(c: Config, s: State, g: nat, r: nat, k: nat, j: nat, e: map<(nat, nat, nat), int>, m: nat)
    requires ThreadAt(c, s, g, r, k, j, e, m) && m < c.ns
    ensures ThreadAt(c, Next(c, s, Add(r, m, k, j)), g, r, k, j, e, m + 1)
  {
    OneAddEvent(c, s, g, r, m, k, j);
  }

  lemma {:induction false} ThreadRuns(c: Config, s: State, g: nat, r: nat, k: nat, j: nat, m: nat)
    requires r < |s| && ThreadAt(c, s, g, r, k, j, s[r].c, 0) && m <= c.ns
    ensures ThreadAt(c, RunFrom(c, s, ThreadEvents(r, k, j, m)), g, r, k, j, s[r].c, m)
  {
    if m > 0 {
      ThreadRuns(c, s, g, r, k, j, m - 1);
      var evs := ThreadEvents(r, k, j, m);
      assert evs[..m - 1] == ThreadEvents(r, k, j, m - 1);
      ThreadMoves(c, RunFrom(c, s, evs[..m - 1]), g, r, k, j, s[r].c, m - 1);
    }
  }

  lemma {:induction false} RunFromIsRun(c: Config, schedule: seq<Event>, evs: seq<Event>)
    requires Valid(c)
    ensures RunFrom(c, Run(c, schedule), evs) == Run(c, schedule + evs)
  {
    if evs == [] {
      assert schedule + evs == schedule;
    } else {
      RunFromIsRun(c, schedule, evs[..|evs| - 1]);
      var all := schedule + evs;
      assert all[..|all| - 1] == schedule + evs[..|evs| - 1] && all[|all| - 1] == evs[|evs| - 1];
    }
  }

  /** In any reachable state in which a rank computes and has made none of the additions of thread (k, j), the
      thread run without interruption is a schedule: the entries it leaves are the ones the state
      machine reaches. */
  lemma ThreadIsARun(c: Config, schedule: seq<Event>, r: nat, k: nat, j: nat)
    requires Valid(c) && Fed(c) && r < c.npes && InB(c, k, j)
    requires Working(c, Run(c, schedule)[r])
    requires forall i: nat | i < c.ns :: (i, k, j) !in Run(c, schedule)[r].added
    ensures ThreadAt(c, Run(c, schedule + ThreadEvents(r, k, j, c.ns)), Run(c, schedule)[r].step, r, k, j,
                     Run(c, schedule)[r].c, c.ns)
  {
    var g := RunInv(c, schedule);
    var s := Run(c, schedule);
    InvComputing(c, s, g, r);
    ThreadStarts(c, s, g, r, k, j);
    ThreadRuns(c, s, g, r, k, j, c.ns);
    RunFromIsRun(c, schedule, ThreadEvents(r, k, j, c.ns));
  }

  /** Position x of the stripe is handled by thread th of block bl along one axis of the grid. */
  predicate ThreadOf(x: nat, side: nat, bl: nat, th: nat) { th < side && x == bl * side + th }

  /** With ceil(extent / side) blocks of `side` threads every position has its thread, and only one. */
  lemma GridCovers(side: nat, x: nat, extent: nat)
    requires side >= 1 && x < extent
    ensures x / side < (extent + side - 1) / side && ThreadOf(x, side, x / side, x % side)
    ensures forall bl: nat, th: nat :: ThreadOf(x, side, bl, th) ==> bl == x / side && th == x % side
  {
    var blocks := (extent + side - 1) / side;
    assert x == (x / side) * side + x % side;
    assert extent + side - 1 == blocks * side + (extent + side - 1) % side;
    if blocks <= x / side { MulMonotone(blocks, x / side, side); }
    forall bl: nat, th: nat | ThreadOf(x, side, bl, th) ensures bl == x / side && th == x % side {
      DivisionUnique(x, side, bl, th);
    }
  }

  // ---------------------------------------------------------------- put handles

  datatype Handle = Handle(src: nat, dest: nat, peer: nat)

  class PutHandles {
    const left: nat
    const handles: array<Option<Handle>>

    constructor (npes: nat, left: nat)
      ensures fresh(handles) && handles.Length == npes && this.left == left
      ensures forall s | 0 <= s < npes :: handles[s] == None
    {
      this.left := left;
      handles := new Option<Handle>[npes](_ => None);
    }

    /** Creates the put of every step; `granted[s]` says whether the library hands out handle s. The
        first refusal ends the loop and leaves the later entries as they were. */
    method Allocate(granted: seq<bool>) returns (ok: bool)
      requires |granted| == handles.Length
      modifies handles
      ensures ok <==> forall s | 0 <= s < |granted| :: granted[s]
      ensures forall s | 0 <= s < handles.Length && (forall t | 0 <= t <= s :: granted[t]) ::
                handles[s] == Some(Handle(s % 2, (s + 1) % 2, left))
      ensures forall s | 0 <= s < handles.Length && !granted[s] && (forall t | 0 <= t < s :: granted[t]) ::
                handles[s] == None
      ensures forall s | 0 <= s < handles.Length && !(forall t | 0 <= t < s :: granted[t]) ::
                handles[s] == old(handles[s])
    {
      var s := 0;
      while s < handles.Length
        invariant 0 <= s <= handles.Length
        invariant forall t | 0 <= t < s :: granted[t] && handles[t] == Some(Handle(t % 2, (t + 1) % 2, left))
        invariant forall t | s <= t < handles.Length :: handles[t] == old(handles[t])
      {
        var src := if s % 2 == 0 then 0 else 1;
        var dest := if s % 2 == 0 then 1 else 0;
        handles[s] := if granted[s] then Some(Handle(src, dest, left)) else None;
        if !granted[s] { return false; }
        s := s + 1;
      }
      return true;
    }

    method Release()
      modifies handles
      ensures forall s | 0 <= s < handles.Length :: handles[s] == None
    {
      var s := 0;
      while s < handles.Length
        invariant 0 <= s <= handles.Length
        invariant forall t | 0 <= t < s :: handles[t] == None
      {
        if handles[s] != None { handles[s] := None; }
        s := s + 1;
      }
    }
  }

  /** The handle allocated for step s is exactly the put the ring needs then: it reads the buffer the
      rank multiplies from and writes the one its left neighbour multiplies from next. */
  lemma HandleIsThePut(c: Config, schedule: seq<Event>, r: nat, k: nat, j: nat, h: Handle)
    requires Valid(c) && Fed(c) && Shape(c, Run(c, schedule)) && Enabled(c, Run(c, schedule), Push(r, k, j))
    requires var s := Run(c, schedule)[r].step; h == Handle(s % 2, (s + 1) % 2, Left(c, r))
    ensures Writes(c, Run(c, schedule), Push(r, k, j)) == (h.peer, h.dest)
    ensures Reads(c, Run(c, schedule), Push(r, k, j)) == (r, h.src)
    ensures var target := Run(c, schedule)[h.peer];
            Working(c, target) ==> h.src == target.step % 2 && h.dest == (target.step + 1) % 2
  {
    var g := RunInv(c, schedule);
    assert InStep(c, Run(c, schedule)[r], g) && InStep(c, Run(c, schedule)[h.peer], g);
  }
}
