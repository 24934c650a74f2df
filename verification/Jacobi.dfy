/** The distributed Jacobi solver: every rank sweeps its chunk of rows with a stencil, the last
    thread block to finish writes the trigger that releases two halo puts, and a barrier ends the
    step. Cells, blocks and elements of the puts are interleaved in any order. The stencil is an
    uninterpreted function, so the result holds for floating point as well. */
module Jacobi {

  const WARMUP := 3
  const BLOCK := 32

  /** `chunk` rows of `nx` columns per rank; `edge` gives the fixed first and last column of every
      global row. */
  datatype Config<!V> = Config(size: nat, chunk: nat, nx: nat, iters: nat,
                               stencil: (V, V, V, V) -> V, zero: V, edge: nat -> V) {
    predicate Valid() { size >= 1 && chunk >= 1 && nx >= 2 }
    function Steps(): nat { WARMUP + iters }
  }

  /** Rows 1..chunk of a buffer are the rank's own, rows 0 and chunk + 1 its halo. */
  type Grid<V> = map<(nat, nat), V>

  ghost predicate IsGrid<V>(c: Config<V>, m: Grid<V>) {
    forall iy: nat, ix: nat :: iy <= c.chunk + 1 && ix < c.nx ==> (iy, ix) in m
  }

  // ---------------------------------------------------------------- the sequential meaning

  /** First global row of rank r. */
  function Base<V>(c: Config<V>, r: nat): nat { if r == 0 then 0 else Base(c, r - 1) + c.chunk }

  function Height<V>(c: Config<V>): nat { Base(c, c.size) }

  lemma {:induction false} BaseGrows<V>(c: Config<V>, r: nat, q: nat)
    requires r <= q
    ensures Base(c, r) <= Base(c, q)
    decreases q
  {
    if r < q { BaseGrows(c, r, q - 1); }
  }

  /** Value of a global cell after t sweeps. The mesh is periodic in rows; with `wrap` false the rows
      beyond it are zero instead. */
  ghost function Mesh<V>(c: Config<V>, wrap: bool, t: nat, y: nat, x: nat): V
    requires y < Height(c) && x < c.nx
    decreases t, 0
  {
    if x == 0 || x + 1 == c.nx then c.edge(y)
    else if t == 0 then c.zero
    else c.stencil(Mesh(c, wrap, t - 1, y, x + 1), Mesh(c, wrap, t - 1, y, x - 1),
                   Beyond(c, wrap, t - 1, y + 1, x), Beyond(c, wrap, t - 1, y - 1, x))
  }

  ghost function Beyond<V>(c: Config<V>, wrap: bool, t: nat, y: int, x: nat): V
    requires -1 <= y <= Height(c) && x < c.nx && Height(c) >= 1
    decreases t, 1
  {
    if 0 <= y < Height(c) then Mesh(c, wrap, t, y, x)
    else if wrap then Mesh(c, wrap, t, if y < 0 then Height(c) - 1 else 0, x)
    else c.zero
  }

  /** What cell (iy, ix) of rank r should hold after t sweeps. */
  ghost function Expect<V>(c: Config<V>, t: nat, r: nat, iy: nat, ix: nat): V
    requires c.Valid() && r < c.size && iy <= c.chunk + 1 && ix < c.nx
  {
    RowInRange(c, r, iy);
    Beyond(c, c.size > 1, t, Base(c, r) + iy - 1, ix)
  }

  lemma RowInRange<V>(c: Config<V>, r: nat, iy: nat)
    requires c.Valid() && r < c.size && iy <= c.chunk + 1
    ensures -1 <= Base(c, r) + iy - 1 <= Height(c) && Height(c) >= 1
    ensures 1 <= iy <= c.chunk ==> 0 <= Base(c, r) + iy - 1 < Height(c)
  {
    BaseGrows(c, r + 1, c.size);
  }

  function Top<V>(c: Config<V>, r: nat): (q: nat)
    requires r < c.size
    ensures q < c.size && (c.size > 1 ==> q != r)
  {
    if r > 0 then r - 1 else c.size - 1
  }

  function Bottom<V>(c: Config<V>, r: nat): (q: nat)
    requires r < c.size
    ensures q < c.size && Top(c, q) == r && (c.size > 1 ==> q != r)
  {
    if r + 1 < c.size then r + 1 else 0
  }

  /** A halo row is the neighbour's edge row. */
  lemma HaloIsNeighboursRow<V>(c: Config<V>, t: nat, r: nat, ix: nat)
    requires c.Valid() && c.size > 1 && r < c.size && ix < c.nx
    ensures Expect(c, t, Top(c, r), c.chunk + 1, ix) == Expect(c, t, r, 1, ix)
    ensures Expect(c, t, Bottom(c, r), 0, ix) == Expect(c, t, r, c.chunk, ix)
  {
    RowInRange(c, r, 1);
    RowInRange(c, r, c.chunk);
    RowInRange(c, Top(c, r), c.chunk + 1);
    RowInRange(c, Bottom(c, r), 0);
  }

  // ---------------------------------------------------------------- state and actions

  /** `step` counts kernel launches, warm-up included; the sets hold the cells written, the blocks
      done and the columns of the two puts delivered in this step; `count` is the block counter and
      `rings` the number of trigger writes. */
  datatype Rank<!V> = Rank(step: nat, atBarrier: bool, bufs: seq<Grid<V>>, written: set<(nat, nat)>,
                           done: set<(nat, nat)>, count: nat, rings: nat, up: set<nat>, down: set<nat>)

  type State<!V> = seq<Rank<V>>

  datatype Event =
    | Cell(r: nat, iy: nat, ix: nat)
    | Block(r: nat, bi: nat, bj: nat)
    | PutUp(r: nat, ix: nat)
    | PutDown(r: nat, ix: nat)
    | Arrive(r: nat)
    | Leave(r: nat)

  /** Warm-up steps always sweep from buffer 0 to buffer 1; then the two alternate. */
  function Cur(step: nat): (b: nat)
    ensures b < 2
  {
    if step < WARMUP then 0 else (step - WARMUP) % 2
  }

  function Nxt(step: nat): (b: nat)
    ensures b < 2 && b != Cur(step)
  {
    1 - Cur(step)
  }

  /** Sweeps already contained in the current buffer. */
  function Sweeps(step: nat): nat { if step < WARMUP then 0 else step - WARMUP }

  predicate Own<V>(c: Config<V>, iy: nat, ix: nat) { 1 <= iy <= c.chunk && 1 <= ix && ix + 1 < c.nx }

  function Ceil(n: nat): nat { (n + BLOCK - 1) / BLOCK }

  /** The least number of blocks of 32 that covers n positions. */
  lemma BlocksCoverExactly(n: nat)
    ensures 32 * Ceil(n) >= n && (n > 0 ==> 32 * (Ceil(n) - 1) < n) && (n == 0 ==> Ceil(n) == 0)
  {
    assert n + BLOCK - 1 == BLOCK * Ceil(n) + (n + BLOCK - 1) % BLOCK;
  }

  function BlockOf(iy: nat, ix: nat): (nat, nat)
    requires iy >= 1 && ix >= 1
  {
    ((iy - 1) / BLOCK, (ix - 1) / BLOCK)
  }

  function AllBlocks<V>(c: Config<V>): set<(nat, nat)> {
    set bi: nat, bj: nat | 0 <= bi < Ceil(c.chunk) && 0 <= bj < Ceil(c.nx) :: (bi, bj)
  }

  ghost predicate Shape<V>(c: Config<V>, s: State<V>) {
    && c.Valid() && |s| == c.size
    && forall r | 0 <= r < c.size :: |s[r].bufs| == 2 && IsGrid(c, s[r].bufs[0]) && IsGrid(c, s[r].bufs[1])
  }

  predicate Computing<V>(c: Config<V>, rk: Rank<V>) { rk.step < c.Steps() && !rk.atBarrier }

  function Finished<V>(rk: Rank<V>): nat { if rk.atBarrier then rk.step + 1 else rk.step }

  ghost predicate BlockReady<V>(c: Config<V>, rk: Rank<V>, bi: nat, bj: nat) {
    forall iy: nat, ix: nat :: Own(c, iy, ix) && BlockOf(iy, ix) == (bi, bj) ==> (iy, ix) in rk.written
  }

  ghost predicate StepDone<V>(c: Config<V>, rk: Rank<V>) {
    && rk.done == AllBlocks(c)
    && (c.size > 1 ==> forall ix: nat :: ix < c.nx ==> ix in rk.up && ix in rk.down)
  }

  ghost predicate Enabled<V>(c: Config<V>, s: State<V>, ev: Event)
    requires Shape(c, s)
  {
    ev.r < c.size &&
    match ev
    case Cell(r, iy, ix) => Computing(c, s[r]) && Own(c, iy, ix) && (iy, ix) !in s[r].written
    case Block(r, bi, bj) =>
      Computing(c, s[r]) && (bi, bj) in AllBlocks(c) && (bi, bj) !in s[r].done && BlockReady(c, s[r], bi, bj)
    case PutUp(r, ix) => Computing(c, s[r]) && s[r].rings > 0 && ix < c.nx && ix !in s[r].up
    case PutDown(r, ix) => Computing(c, s[r]) && s[r].rings > 0 && ix < c.nx && ix !in s[r].down
    case Arrive(r) => Computing(c, s[r]) && StepDone(c, s[r])
    case Leave(r) => s[r].atBarrier && forall q | 0 <= q < c.size :: Finished(s[q]) > s[r].step
  }

  function Store<V>(rk: Rank<V>, b: nat, iy: nat, ix: nat, v: V): Rank<V>
    requires b < |rk.bufs|
  {
    rk.(bufs := rk.bufs[b := rk.bufs[b][(iy, ix) := v]])
  }

  ghost function Swept<V>(c: Config<V>, a: Grid<V>, iy: nat, ix: nat): V
    requires IsGrid(c, a) && Own(c, iy, ix)
  {
    c.stencil(a[(iy, ix + 1)], a[(iy, ix - 1)], a[(iy + 1, ix)], a[(iy - 1, ix)])
  }

  ghost function Step<V>(c: Config<V>, s: State<V>, ev: Event): State<V>
    requires Shape(c, s) && Enabled(c, s, ev)
  {
    match ev
    case Cell(r, iy, ix) =>
      var rk := s[r].(written := s[r].written + {(iy, ix)});
      s[r := Store(rk, Nxt(rk.step), iy, ix, Swept(c, rk.bufs[Cur(rk.step)], iy, ix))]
    case Block(r, bi, bj) =>
      var last := c.size > 1 && s[r].count == |AllBlocks(c)| - 1;
      s[r := s[r].(done := s[r].done + {(bi, bj)}, count := s[r].count + 1,
                   rings := if last then s[r].rings + 1 else s[r].rings)]
    case PutUp(r, ix) =>
      var b, s1 := Nxt(s[r].step), s[r := s[r].(up := s[r].up + {ix})];
      s1[Top(c, r) := Store(s1[Top(c, r)], b, c.chunk + 1, ix, s[r].bufs[b][(1, ix)])]
    case PutDown(r, ix) =>
      var b, s1 := Nxt(s[r].step), s[r := s[r].(down := s[r].down + {ix})];
      s1[Bottom(c, r) := Store(s1[Bottom(c, r)], b, 0, ix, s[r].bufs[b][(c.chunk, ix)])]
    case Arrive(r) => s[r := s[r].(atBarrier := true)]
    case Leave(r) =>
      s[r := s[r].(step := s[r].step + 1, atBarrier := false, written := {}, done := {}, count := 0, rings := 0,
                   up := {}, down := {})]
  }

  /** Zeroed buffers with the fixed columns filled in on the rank's own rows. */
  ghost function InitGrid<V>(c: Config<V>, r: nat): (m: Grid<V>)
    ensures IsGrid(c, m)
  {
    map iy: nat, ix: nat | 0 <= iy <= c.chunk + 1 && 0 <= ix < c.nx ::
      (iy, ix) := if 1 <= iy <= c.chunk && (ix == 0 || ix + 1 == c.nx) then c.edge(Base(c, r) + iy - 1) else c.zero
  }

  ghost function Init<V>(c: Config<V>): State<V> {
    seq(c.size, r requires 0 <= r < c.size => Rank(0, false, [InitGrid(c, r), InitGrid(c, r)], {}, {}, 0, 0, {}, {}))
  }

  // ---------------------------------------------------------------- invariant

  /** Cells the stencil can read: the rank's own rows, and the inner columns of the halo. */
  predicate Readable<V>(c: Config<V>, iy: nat, ix: nat) {
    iy <= c.chunk + 1 && ix < c.nx && (1 <= iy <= c.chunk || (1 <= ix && ix + 1 < c.nx))
  }

  /** Which cells of the next buffer already hold the values of step g. */
  ghost predicate Ready<V>(c: Config<V>, s: State<V>, g: nat, r: nat, iy: nat, ix: nat)
    requires |s| == c.size && r < c.size
  {
    if Own(c, iy, ix) then s[r].step == g && (iy, ix) in s[r].written
    else if 1 <= iy <= c.chunk || c.size == 1 then true
    else if iy == 0 then s[Top(c, r)].step == g && ix in s[Top(c, r)].down
    else s[Bottom(c, r)].step == g && ix in s[Bottom(c, r)].up
  }

  ghost predicate CurOk<V>(c: Config<V>, s: State<V>, g: nat, r: nat)
    requires Shape(c, s) && r < c.size
  {
    forall iy: nat, ix: nat :: Readable(c, iy, ix) ==> s[r].bufs[Cur(g)][(iy, ix)] == Expect(c, Sweeps(g), r, iy, ix)
  }

  ghost predicate NxtOk<V>(c: Config<V>, s: State<V>, g: nat, r: nat)
    requires Shape(c, s) && r < c.size
  {
    forall iy: nat, ix: nat :: Readable(c, iy, ix) && Ready(c, s, g, r, iy, ix) ==>
      s[r].bufs[Nxt(g)][(iy, ix)] == Expect(c, Sweeps(g) + 1, r, iy, ix)
  }

  /** Progress of a rank within its step. */
  ghost predicate RankOk<V>(c: Config<V>, rk: Rank<V>, g: nat) {
    && (rk.step == g || (rk.step + 1 == g && rk.atBarrier))
    && rk.step <= c.Steps() && (rk.atBarrier ==> rk.step < c.Steps() && StepDone(c, rk))
    && rk.done <= AllBlocks(c) && rk.count == |rk.done|
    && rk.rings == (if c.size > 1 && rk.done == AllBlocks(c) then 1 else 0)
    && (forall b | b in rk.done :: BlockReady(c, rk, b.0, b.1))
  }

  ghost predicate Inv<V>(c: Config<V>, s: State<V>, g: nat) {
    && Shape(c, s)
    && (forall r | 0 <= r < c.size :: RankOk(c, s[r], g))
    && (forall r | 0 <= r < c.size :: CurOk(c, s, g, r) && NxtOk(c, s, g, r))
  }

  lemma ExpectFixed<V>(c: Config<V>, t: nat, r: nat, iy: nat, ix: nat)
    requires c.Valid() && r < c.size && Readable(c, iy, ix)
    ensures !Own(c, iy, ix) && 1 <= iy <= c.chunk ==> Expect(c, t, r, iy, ix) == c.edge(Base(c, r) + iy - 1)
    ensures c.size == 1 && !(1 <= iy <= c.chunk) ==> Expect(c, t, r, iy, ix) == c.zero
    ensures t == 0 && !(1 <= iy <= c.chunk && !Own(c, iy, ix)) ==> Expect(c, t, r, iy, ix) == c.zero
  {
    RowInRange(c, r, iy);
    assert c.size == 1 ==> Base(c, 1) == Base(c, 0) + c.chunk;
    if 1 <= iy <= c.chunk {
      var y: nat := Base(c, r) + iy - 1;
      assert Expect(c, t, r, iy, ix) == Mesh(c, c.size > 1, t, y, ix);
    }
  }

  lemma InitInv<V>(c: Config<V>)
    requires c.Valid()
    ensures Inv(c, Init(c), 0)
  {
    var s := Init(c);
    forall r, iy: nat, ix: nat | 0 <= r < c.size && Readable(c, iy, ix)
      ensures InitGrid(c, r)[(iy, ix)] == Expect(c, 0, r, iy, ix)
      ensures Ready(c, s, 0, r, iy, ix) ==> InitGrid(c, r)[(iy, ix)] == Expect(c, 1, r, iy, ix)
    {
      ExpectFixed(c, 0, r, iy, ix);
      ExpectFixed(c, 1, r, iy, ix);
    }
    forall r | 0 <= r < c.size ensures RankOk(c, s[r], 0) {
      assert (0, 0) in AllBlocks(c);
    }
  }

  // ---------------------------------------------------------------- every action keeps it

  /** The action changes one element of one next buffer, to the value it should have after the
      step, and makes no other element ready. */
  ghost predicate StoresNext<V>(c: Config<V>, s: State<V>, s': State<V>, g: nat, r: nat, iy: nat, ix: nat, v: V)
    requires Shape(c, s)
  {
    && |s'| == c.size && r < c.size && iy <= c.chunk + 1 && ix < c.nx
    && (Readable(c, iy, ix) ==> v == Expect(c, Sweeps(g) + 1, r, iy, ix))
    && (forall q | 0 <= q < c.size && q != r :: s'[q].bufs == s[q].bufs)
    && s'[r].bufs == s[r].bufs[Nxt(g) := s[r].bufs[Nxt(g)][(iy, ix) := v]]
    && (forall q, iy': nat, ix': nat | 0 <= q < c.size && iy' <= c.chunk + 1 && Ready(c, s', g, q, iy', ix') ::
          Ready(c, s, g, q, iy', ix') || (q == r && iy' == iy && ix' == ix))
  }

  /** A rank that only writes cells or delivers elements keeps its progress. */
  lemma RankKept<V>(c: Config<V>, rk: Rank<V>, rk': Rank<V>, g: nat)
    requires RankOk(c, rk, g) && rk'.step == rk.step && rk'.atBarrier == rk.atBarrier
    requires rk'.done == rk.done && rk'.count == rk.count && rk'.rings == rk.rings
    requires rk.written <= rk'.written && rk.up <= rk'.up && rk.down <= rk'.down
    ensures RankOk(c, rk', g)
  {
    forall b | b in rk.done ensures BlockReady(c, rk', b.0, b.1) {
      assert BlockReady(c, rk, b.0, b.1);
    }
  }

  lemma StoreKeepsBuffers<V>(c: Config<V>, s: State<V>, s': State<V>, g: nat, r: nat, iy: nat, ix: nat, v: V, q: nat)
    requires Inv(c, s, g) && StoresNext(c, s, s', g, r, iy, ix, v) && q < c.size
    ensures Shape(c, s') && CurOk(c, s', g, q) && NxtOk(c, s', g, q)
  {
    assert CurOk(c, s, g, q) && NxtOk(c, s, g, q);
  }

  /** The stencil over a current buffer computes the next sweep. */
  lemma SweepIsExpected<V>(c: Config<V>, s: State<V>, g: nat, r: nat, iy: nat, ix: nat)
    requires Shape(c, s) && r < c.size && CurOk(c, s, g, r) && Own(c, iy, ix)
    ensures Swept(c, s[r].bufs[Cur(g)], iy, ix) == Expect(c, Sweeps(g) + 1, r, iy, ix)
  {
    var a, t, wrap := s[r].bufs[Cur(g)], Sweeps(g), c.size > 1;
    RowInRange(c, r, iy);
    var y: nat := Base(c, r) + iy - 1;
    assert Readable(c, iy, ix + 1) && Readable(c, iy, ix - 1) && Readable(c, iy + 1, ix) && Readable(c, iy - 1, ix);
    assert a[(iy, ix + 1)] == Mesh(c, wrap, t, y, ix + 1);
    assert a[(iy, ix - 1)] == Mesh(c, wrap, t, y, ix - 1);
    assert a[(iy + 1, ix)] == Beyond(c, wrap, t, y + 1, ix);
    assert a[(iy - 1, ix)] == Beyond(c, wrap, t, y - 1, ix);
    assert Mesh(c, wrap, t + 1, y, ix) == Swept(c, a, iy, ix);
  }

  lemma CellStores<V>(c: Config<V>, s: State<V>, g: nat, r: nat, iy: nat, ix: nat)
    requires Inv(c, s, g) && Enabled(c, s, Cell(r, iy, ix))
    ensures StoresNext(c, s, Step(c, s, Cell(r, iy, ix)), g, r, iy, ix, Swept(c, s[r].bufs[Cur(g)], iy, ix))
  {
    var s' := Step(c, s, Cell(r, iy, ix));
    assert RankOk(c, s[r], g) && CurOk(c, s, g, r);
    SweepIsExpected(c, s, g, r, iy, ix);
    forall q, iy': nat, ix': nat | 0 <= q < c.size && Ready(c, s', g, q, iy', ix')
      ensures Ready(c, s, g, q, iy', ix') || (q == r && iy' == iy && ix' == ix)
    {
    }
  }

  lemma CellKeepsInv<V>(c: Config<V>, s: State<V>, g: nat, r: nat, iy: nat, ix: nat)
    requires Inv(c, s, g) && Enabled(c, s, Cell(r, iy, ix))
    ensures Inv(c, Step(c, s, Cell(r, iy, ix)), g)
  {
    var s', v := Step(c, s, Cell(r, iy, ix)), Swept(c, s[r].bufs[Cur(g)], iy, ix);
    CellStores(c, s, g, r, iy, ix);
    forall q | 0 <= q < c.size
      ensures RankOk(c, s'[q], g) && Shape(c, s') && CurOk(c, s', g, q) && NxtOk(c, s', g, q)
    {
      RankKept(c, s[q], s'[q], g);
      StoreKeepsBuffers(c, s, s', g, r, iy, ix, v, q);
    }
  }

  /** The trigger is written only when every cell of the rank is. */
  lemma RungMeansWritten<V>(c: Config<V>, rk: Rank<V>, g: nat, iy: nat, ix: nat)
    requires RankOk(c, rk, g) && rk.done == AllBlocks(c) && Own(c, iy, ix)
    ensures (iy, ix) in rk.written
  {
    var b := BlockOf(iy, ix);
    assert b in AllBlocks(c);
    assert BlockReady(c, rk, b.0, b.1);
  }

  /** Where a put comes from and goes to. */
  function SourceRow<V>(c: Config<V>, ev: Event): nat { if ev.PutUp? then 1 else c.chunk }

  function HaloRow<V>(c: Config<V>, ev: Event): nat { if ev.PutUp? then c.chunk + 1 else 0 }

  function Target<V>(c: Config<V>, ev: Event): (q: nat)
    requires ev.r < c.size
    ensures q < c.size
  {
    if ev.PutUp? then Top(c, ev.r) else Bottom(c, ev.r)
  }

  /** The element a put carries is the one its target's halo should have. */
  lemma PutCarriesHalo<V>(c: Config<V>, s: State<V>, g: nat, ev: Event)
    requires Inv(c, s, g) && Enabled(c, s, ev) && (ev.PutUp? || ev.PutDown?)
    ensures c.size > 1 && s[ev.r].step == g
    ensures Readable(c, HaloRow(c, ev), ev.ix) ==>
              s[ev.r].bufs[Nxt(g)][(SourceRow(c, ev), ev.ix)]
              == Expect(c, Sweeps(g) + 1, Target(c, ev), HaloRow(c, ev), ev.ix)
  {
    assert RankOk(c, s[ev.r], g) && NxtOk(c, s, g, ev.r);
    if Readable(c, HaloRow(c, ev), ev.ix) {
      RungMeansWritten(c, s[ev.r], g, SourceRow(c, ev), ev.ix);
      assert Ready(c, s, g, ev.r, SourceRow(c, ev), ev.ix);
      HaloIsNeighboursRow(c, Sweeps(g) + 1, ev.r, ev.ix);
    }
  }

  /** Only that element becomes ready. */
  lemma PutReadies<V>(c: Config<V>, s: State<V>, g: nat, ev: Event, q: nat, iy: nat, ix: nat)
    requires Shape(c, s) && c.size > 1 && Enabled(c, s, ev) && (ev.PutUp? || ev.PutDown?)
    requires q < c.size && iy <= c.chunk + 1 && Ready(c, Step(c, s, ev), g, q, iy, ix)
    ensures Ready(c, s, g, q, iy, ix) || (q == Target(c, ev) && iy == HaloRow(c, ev) && ix == ev.ix)
  {
    assert Bottom(c, Top(c, q)) == q && Top(c, Bottom(c, q)) == q;
  }

  lemma PutStores<V>(c: Config<V>, s: State<V>, g: nat, ev: Event)
    requires Inv(c, s, g) && Enabled(c, s, ev) && (ev.PutUp? || ev.PutDown?)
    ensures StoresNext(c, s, Step(c, s, ev), g, Target(c, ev), HaloRow(c, ev), ev.ix,
                       s[ev.r].bufs[Nxt(s[ev.r].step)][(SourceRow(c, ev), ev.ix)])
  {
    PutCarriesHalo(c, s, g, ev);
    forall q, iy: nat, ix: nat | 0 <= q < c.size && iy <= c.chunk + 1 && Ready(c, Step(c, s, ev), g, q, iy, ix)
      ensures Ready(c, s, g, q, iy, ix) || (q == Target(c, ev) && iy == HaloRow(c, ev) && ix == ev.ix)
    {
      PutReadies(c, s, g, ev, q, iy, ix);
    }
  }

  lemma PutKeepsInv<V>(c: Config<V>, s: State<V>, g: nat, ev: Event)
    requires Inv(c, s, g) && Enabled(c, s, ev) && (ev.PutUp? || ev.PutDown?)
    ensures Inv(c, Step(c, s, ev), g)
  {
    var s' := Step(c, s, ev);
    PutStores(c, s, g, ev);
    forall q | 0 <= q < c.size
      ensures RankOk(c, s'[q], g) && Shape(c, s') && CurOk(c, s', g, q) && NxtOk(c, s', g, q)
    {
      RankKept(c, s[q], s'[q], g);
      StoreKeepsBuffers(c, s, s', g, Target(c, ev), HaloRow(c, ev), ev.ix,
                        s[ev.r].bufs[Nxt(s[ev.r].step)][(SourceRow(c, ev), ev.ix)], q);
    }
  }

  /** Only a full set of blocks has as many members as all of them. */
  lemma FullWhenCountIsFull(done: set<(nat, nat)>, all: set<(nat, nat)>)
    requires done <= all
    ensures |done| <= |all| && (|done| == |all| <==> done == all)
  {
    assert all == done + (all - done);
  }

  lemma BlockKeepsRank<V>(c: Config<V>, s: State<V>, g: nat, r: nat, bi: nat, bj: nat)
    requires Inv(c, s, g) && Enabled(c, s, Block(r, bi, bj))
    ensures RankOk(c, Step(c, s, Block(r, bi, bj))[r], g)
  {
    assert RankOk(c, s[r], g);
    FullWhenCountIsFull(s[r].done, AllBlocks(c));
    FullWhenCountIsFull(s[r].done + {(bi, bj)}, AllBlocks(c));
  }

  /** Actions that touch no buffer, cell or delivery. */
  lemma SameBuffers<V>(c: Config<V>, s: State<V>, s': State<V>, g: nat, q: nat)
    requires Inv(c, s, g) && |s'| == c.size && q < c.size
    requires forall p | 0 <= p < c.size :: s'[p].bufs == s[p].bufs && s'[p].written == s[p].written
               && s'[p].up == s[p].up && s'[p].down == s[p].down && s'[p].step == s[p].step
    ensures Shape(c, s') && CurOk(c, s', g, q) && NxtOk(c, s', g, q)
  {
    assert CurOk(c, s, g, q) && NxtOk(c, s, g, q);
  }

  lemma QuietKeepsInv<V>(c: Config<V>, s: State<V>, g: nat, ev: Event)
    requires Inv(c, s, g) && Enabled(c, s, ev) && (ev.Block? || ev.Arrive?)
    ensures Inv(c, Step(c, s, ev), g)
  {
    var s' := Step(c, s, ev);
    if ev.Block? { BlockKeepsRank(c, s, g, ev.r, ev.bi, ev.bj); } else { ArriveKeepsRank(c, s[ev.r], g); }
    forall q | 0 <= q < c.size
      ensures RankOk(c, s'[q], g) && Shape(c, s') && CurOk(c, s', g, q) && NxtOk(c, s', g, q)
    {
      if q != ev.r { assert s'[q] == s[q] && RankOk(c, s[q], g); }
      SameBuffers(c, s, s', g, q);
    }
  }

  lemma ArriveKeepsRank<V>(c: Config<V>, rk: Rank<V>, g: nat)
    requires RankOk(c, rk, g) && Computing(c, rk) && StepDone(c, rk)
    ensures RankOk(c, rk.(atBarrier := true), g)
  {
    forall b | b in rk.done ensures BlockReady(c, rk.(atBarrier := true), b.0, b.1) {
      assert BlockReady(c, rk, b.0, b.1);
    }
  }

  /** Once every rank has finished step g, everything the next step reads is in place. */
  lemma StepIsComplete<V>(c: Config<V>, s: State<V>, g: nat, r: nat)
    requires Inv(c, s, g) && r < c.size && forall q | 0 <= q < c.size :: Finished(s[q]) > g
    ensures forall iy: nat, ix: nat :: Readable(c, iy, ix) ==>
              s[r].bufs[Nxt(g)][(iy, ix)] == Expect(c, Sweeps(g) + 1, r, iy, ix)
  {
    assert RankOk(c, s[r], g) && RankOk(c, s[Top(c, r)], g) && RankOk(c, s[Bottom(c, r)], g) && NxtOk(c, s, g, r);
    forall iy: nat, ix: nat | Readable(c, iy, ix) ensures Ready(c, s, g, r, iy, ix) {
      if Own(c, iy, ix) { RungMeansWritten(c, s[r], g, iy, ix); }
    }
  }

  function FrontAfterLeave<V>(s: State<V>, g: nat, r: nat): nat
    requires r < |s|
  {
    if s[r].step == g then g + 1 else g
  }

  lemma NewStepReady<V>(c: Config<V>, s': State<V>, g: nat, r: nat, iy: nat, ix: nat)
    requires |s'| == c.size && r < c.size && Readable(c, iy, ix) && Ready(c, s', g + 1, r, iy, ix)
    requires forall q | 0 <= q < c.size :: s'[q].step == g || (s'[q].written == {} && s'[q].up == {} && s'[q].down == {})
    ensures !Own(c, iy, ix) && (1 <= iy <= c.chunk || c.size == 1)
  {
  }

  /** The fixed cells of a buffer are the same after any number of sweeps. */
  lemma FixedCells<V>(c: Config<V>, s: State<V>, g: nat, r: nat, iy: nat, ix: nat)
    requires Inv(c, s, g) && r < c.size && Readable(c, iy, ix) && !Own(c, iy, ix) && (1 <= iy <= c.chunk || c.size == 1)
    ensures forall b, t: nat | 0 <= b < 2 :: s[r].bufs[b][(iy, ix)] == Expect(c, t, r, iy, ix)
  {
    assert CurOk(c, s, g, r) && NxtOk(c, s, g, r) && Ready(c, s, g, r, iy, ix);
    forall b, t: nat | 0 <= b < 2 ensures s[r].bufs[b][(iy, ix)] == Expect(c, t, r, iy, ix) {
      ExpectFixed(c, t, r, iy, ix);
      ExpectFixed(c, Sweeps(g), r, iy, ix);
      ExpectFixed(c, Sweeps(g) + 1, r, iy, ix);
      assert b == Cur(g) || b == Nxt(g);
    }
  }

  lemma BuffersTurn(g: nat)
    ensures if g < WARMUP then Cur(g + 1) == Cur(g) && Sweeps(g + 1) == Sweeps(g)
            else Cur(g + 1) == Nxt(g) && Sweeps(g + 1) == Sweeps(g) + 1
  {
  }

  /** The first rank to leave opens the next step. */
  lemma FirstLeaveKeepsBuffers<V>(c: Config<V>, s: State<V>, g: nat, r: nat, q: nat)
    requires Inv(c, s, g) && Enabled(c, s, Leave(r)) && q < c.size && s[r].step == g
    ensures var s' := Step(c, s, Leave(r)); Shape(c, s') && CurOk(c, s', g + 1, q) && NxtOk(c, s', g + 1, q)
  {
    var s' := Step(c, s, Leave(r));
    BuffersTurn(g);
    StepIsComplete(c, s, g, q);
    assert CurOk(c, s, g, q);
    forall p | 0 <= p < c.size ensures s'[p].step == g || (s'[p].written == {} && s'[p].up == {} && s'[p].down == {}) {
      assert RankOk(c, s[p], g) && Finished(s[p]) > g;
    }
    forall iy: nat, ix: nat | Readable(c, iy, ix) && Ready(c, s', g + 1, q, iy, ix)
      ensures s'[q].bufs[Nxt(g + 1)][(iy, ix)] == Expect(c, Sweeps(g + 1) + 1, q, iy, ix)
    {
      NewStepReady(c, s', g, q, iy, ix);
      FixedCells(c, s, g, q, iy, ix);
    }
  }

  /** A later one only catches up. */
  lemma LaterLeaveKeepsBuffers<V>(c: Config<V>, s: State<V>, g: nat, r: nat, q: nat)
    requires Inv(c, s, g) && Enabled(c, s, Leave(r)) && q < c.size && s[r].step != g
    ensures var s' := Step(c, s, Leave(r)); Shape(c, s') && CurOk(c, s', g, q) && NxtOk(c, s', g, q)
  {
    assert CurOk(c, s, g, q) && NxtOk(c, s, g, q) && RankOk(c, s[r], g);
    var s' := Step(c, s, Leave(r));
    forall iy: nat, ix: nat | Readable(c, iy, ix) && Ready(c, s', g, q, iy, ix) ensures Ready(c, s, g, q, iy, ix) {}
  }

  lemma LeaveKeepsInv<V>(c: Config<V>, s: State<V>, g: nat, r: nat)
    requires Inv(c, s, g) && Enabled(c, s, Leave(r))
    ensures Inv(c, Step(c, s, Leave(r)), FrontAfterLeave(s, g, r))
  {
    var s' := Step(c, s, Leave(r));
    assert (0, 0) in AllBlocks(c);
    forall q | 0 <= q < c.size
      ensures RankOk(c, s'[q], FrontAfterLeave(s, g, r))
      ensures Shape(c, s') && CurOk(c, s', FrontAfterLeave(s, g, r), q) && NxtOk(c, s', FrontAfterLeave(s, g, r), q)
    {
      assert RankOk(c, s[q], g) && RankOk(c, s[r], g) && Finished(s[q]) > s[r].step;
      if s[r].step == g { FirstLeaveKeepsBuffers(c, s, g, r, q); } else { LaterLeaveKeepsBuffers(c, s, g, r, q); }
    }
  }

  // ---------------------------------------------------------------- schedules

  ghost function Next<V>(c: Config<V>, s: State<V>, ev: Event): State<V> {
    if Shape(c, s) && Enabled(c, s, ev) then Step(c, s, ev) else s
  }

  ghost function Run<V>(c: Config<V>, schedule: seq<Event>): (s: State<V>)
    ensures |s| == c.size
  {
    if schedule == [] then Init(c) else Next(c, Run(c, schedule[..|schedule| - 1]), schedule[|schedule| - 1])
  }

  lemma {:induction false} RunInv<V>(c: Config<V>, schedule: seq<Event>) returns (g: nat)
    requires c.Valid()
    ensures Inv(c, Run(c, schedule), g)
  {
    if schedule == [] {
      InitInv(c);
      g := 0;
    } else {
      g := RunInv(c, schedule[..|schedule| - 1]);
      var s, ev := Run(c, schedule[..|schedule| - 1]), schedule[|schedule| - 1];
      if Enabled(c, s, ev) {
        match ev
        case Cell(r, iy, ix) => CellKeepsInv(c, s, g, r, iy, ix);
        case Leave(r) => LeaveKeepsInv(c, s, g, r); g := FrontAfterLeave(s, g, r);
        case Block(_, _, _) => QuietKeepsInv(c, s, g, ev);
        case Arrive(_) => QuietKeepsInv(c, s, g, ev);
        case PutUp(_, _) => PutKeepsInv(c, s, g, ev);
        case PutDown(_, _) => PutKeepsInv(c, s, g, ev);
      }
    }
  }

  // ---------------------------------------------------------------- theorems

  /** In every interleaving, the rows a rank owns at the start of a step, and after its last one, are
      those of the sequential stencil on the whole mesh, as many sweeps on as main-loop steps were
      made: periodic in rows for two or more ranks, zero beyond the mesh for one. */
  lemma JacobiIsSequential<V>(c: Config<V>, schedule: seq<Event>, r: nat, iy: nat, ix: nat)
    requires c.Valid() && r < c.size && 1 <= iy <= c.chunk && ix < c.nx
    requires var rk := Run(c, schedule)[r]; Computing(c, rk) || rk.step == c.Steps()
    ensures 0 <= Base(c, r) + iy - 1 < Height(c)
    ensures var rk := Run(c, schedule)[r];
            && |rk.bufs| == 2 && (iy, ix) in rk.bufs[Cur(rk.step)]
            && rk.bufs[Cur(rk.step)][(iy, ix)] == Mesh(c, c.size > 1, Sweeps(rk.step), Base(c, r) + iy - 1, ix)
  {
    var g := RunInv(c, schedule);
    var s := Run(c, schedule);
    RowsAreSwept(c, s, g, r, iy, ix);
  }

  lemma RowsAreSwept<V>(c: Config<V>, s: State<V>, g: nat, r: nat, iy: nat, ix: nat)
    requires Shape(c, s) && r < c.size && 1 <= iy <= c.chunk && ix < c.nx && RankOk(c, s[r], g) && CurOk(c, s, g, r)
    requires Computing(c, s[r]) || s[r].step == c.Steps()
    ensures 0 <= Base(c, r) + iy - 1 < Height(c)
    ensures (iy, ix) in s[r].bufs[Cur(s[r].step)]
    ensures s[r].bufs[Cur(s[r].step)][(iy, ix)] == Mesh(c, c.size > 1, Sweeps(s[r].step), Base(c, r) + iy - 1, ix)
  {
    RowInRange(c, r, iy);
    assert Readable(c, iy, ix) && s[r].step == g;
  }

  predicate Owns<V>(c: Config<V>, y: nat, r: nat, iy: nat) {
    r < c.size && 1 <= iy <= c.chunk && y == Base(c, r) + iy - 1
  }

  /** Every global row belongs to exactly one rank. */
  lemma RowHasOneOwner<V>(c: Config<V>, y: nat) returns (r: nat, iy: nat)
    requires c.Valid() && y < Height(c)
    ensures Owns(c, y, r, iy) && forall q: nat, jy: nat :: Owns(c, y, q, jy) ==> q == r && jy == iy
  {
    r := 0;
    while Base(c, r + 1) <= y
      invariant r < c.size && Base(c, r) <= y
      decreases c.size - r
    {
      assert r + 1 != c.size;
      r := r + 1;
    }
    iy := y - Base(c, r) + 1;
    forall q: nat, jy: nat | Owns(c, y, q, jy) ensures q == r && jy == iy {
      if q < r { BaseGrows(c, q + 1, r); } else if r < q { BaseGrows(c, r + 1, q); }
    }
  }

  /** The trigger is written at most once per step, only after every cell of the rank has been
      written, and, with a neighbour to send to, before the rank reaches the barrier. */
  lemma TriggerExactlyOnce<V>(c: Config<V>, schedule: seq<Event>, r: nat)
    requires c.Valid() && r < c.size
    ensures var rk := Run(c, schedule)[r];
            && rk.rings <= 1 && (rk.rings == 1 <==> c.size > 1 && rk.count == |AllBlocks(c)|)
            && (rk.rings == 1 ==> forall iy: nat, ix: nat :: Own(c, iy, ix) ==> (iy, ix) in rk.written)
            && (rk.atBarrier && c.size > 1 ==> rk.rings == 1)
  {
    var g := RunInv(c, schedule);
    var rk := Run(c, schedule)[r];
    assert RankOk(c, rk, g);
    FullWhenCountIsFull(rk.done, AllBlocks(c));
    if rk.rings == 1 {
      forall iy: nat, ix: nat | Own(c, iy, ix) ensures (iy, ix) in rk.written { RungMeansWritten(c, rk, g, iy, ix); }
    }
  }

  /** A memory cell: rank, buffer, row and column. */
  datatype Place = Place(r: nat, b: nat, iy: nat, ix: nat)

  predicate Touches(ev: Event) { ev.Cell? || ev.PutUp? || ev.PutDown? }

  function Written<V>(c: Config<V>, s: State<V>, ev: Event): Place
    requires |s| == c.size && ev.r < c.size && Touches(ev)
  {
    match ev
    case Cell(r, iy, ix) => Place(r, Nxt(s[r].step), iy, ix)
    case PutUp(r, ix) => Place(Top(c, r), Nxt(s[r].step), c.chunk + 1, ix)
    case PutDown(r, ix) => Place(Bottom(c, r), Nxt(s[r].step), 0, ix)
  }

  function Read<V>(c: Config<V>, s: State<V>, ev: Event): set<Place>
    requires |s| == c.size && ev.r < c.size && Touches(ev) && (ev.Cell? ==> Own(c, ev.iy, ev.ix))
  {
    match ev
    case Cell(r, iy, ix) =>
      var b := Cur(s[r].step);
      {Place(r, b, iy, ix + 1), Place(r, b, iy, ix - 1), Place(r, b, iy + 1, ix), Place(r, b, iy - 1, ix)}
    case PutUp(r, ix) => {Place(r, Nxt(s[r].step), 1, ix)}
    case PutDown(r, ix) => {Place(r, Nxt(s[r].step), c.chunk, ix)}
  }

  /** Two actions that may happen next, in either order, never touch a common memory cell that one of
      them writes. */
  lemma NoRace<V>(c: Config<V>, schedule: seq<Event>, a: Event, b: Event)
    requires c.Valid() && Shape(c, Run(c, schedule)) && a != b && Touches(a) && Touches(b)
    requires Enabled(c, Run(c, schedule), a) && Enabled(c, Run(c, schedule), b)
    ensures Written(c, Run(c, schedule), a) !in Read(c, Run(c, schedule), b)
    ensures Written(c, Run(c, schedule), a) != Written(c, Run(c, schedule), b)
  {
    var g := RunInv(c, schedule);
    var s := Run(c, schedule);
    assert RankOk(c, s[a.r], g) && RankOk(c, s[b.r], g);
    if a.Cell? && !b.Cell? && a.r == b.r { RungMeansWritten(c, s[a.r], g, a.iy, a.ix); }
    if b.Cell? && !a.Cell? && a.r == b.r { RungMeansWritten(c, s[a.r], g, b.iy, b.ix); }
    DifferentPlaces(c, s, g, a, b);
  }

  lemma DifferentPlaces<V>(c: Config<V>, s: State<V>, g: nat, a: Event, b: Event)
    requires c.Valid() && |s| == c.size && a.r < c.size && b.r < c.size && a != b && Touches(a) && Touches(b)
    requires s[a.r].step == s[b.r].step == g
    requires a.Cell? ==> Own(c, a.iy, a.ix)
    requires b.Cell? ==> Own(c, b.iy, b.ix)
    requires (a.Cell? && !b.Cell?) || (b.Cell? && !a.Cell?) ==> a.r != b.r
    ensures Written(c, s, a) !in Read(c, s, b) && Written(c, s, a) != Written(c, s, b)
  {
    assert Bottom(c, Top(c, a.r)) == a.r && Bottom(c, Top(c, b.r)) == b.r;
    assert Top(c, Bottom(c, a.r)) == a.r && Top(c, Bottom(c, b.r)) == b.r;
  }

  /** The solver never sticks: as long as some rank has steps left, some action is enabled. */
  lemma SomethingToDo<V>(c: Config<V>, schedule: seq<Event>, r: nat) returns (ev: Event)
    requires c.Valid() && r < c.size && Run(c, schedule)[r].step < c.Steps()
    ensures Shape(c, Run(c, schedule)) && Enabled(c, Run(c, schedule), ev)
  {
    var s := Run(c, schedule);
    var g := RunInv(c, schedule);
    assert forall q | 0 <= q < c.size :: RankOk(c, s[q], g);
    if q :| 0 <= q < c.size && s[q].step < g {
      ev := Leave(q);
    } else if q :| 0 <= q < c.size && !s[q].atBarrier {
      ev := WorkLeft(c, s, g, q);
    } else {
      ev := Leave(r);
    }
  }

  lemma WorkLeft<V>(c: Config<V>, s: State<V>, g: nat, r: nat) returns (ev: Event)
    requires Inv(c, s, g) && r < c.size && Computing(c, s[r])
    ensures Enabled(c, s, ev)
  {
    var rk := s[r];
    assert RankOk(c, rk, g);
    if StepDone(c, rk) {
      ev := Arrive(r);
    } else if iy: nat, ix: nat :| Own(c, iy, ix) && (iy, ix) !in rk.written {
      ev := Cell(r, iy, ix);
    } else if rk.done != AllBlocks(c) {
      var b :| b in AllBlocks(c) && b !in rk.done;
      ev := Block(r, b.0, b.1);
    } else if ix: nat :| ix < c.nx && ix !in rk.up {
      ev := PutUp(r, ix);
    } else {
      var ix: nat :| ix < c.nx && ix !in rk.down;
      ev := PutDown(r, ix);
    }
  }

  // ---------------------------------------------------------------- a single rank is not periodic

  const ALONE: Config<int> := Config(1, 2, 3, 2, (e: int, w: int, s: int, n: int) => e + w + s + n, 0, (y: nat) => 1)

  /** With one rank no halo is exchanged, and after two sweeps the mesh differs from the periodic one. */
  lemma OneRankIsNotPeriodic()
    ensures Height(ALONE) == 2
    ensures Mesh(ALONE, false, 2, 0, 1) != Mesh(ALONE, true, 2, 0, 1)
  {
    assert Base(ALONE, 1) == Base(ALONE, 0) + 2;
    forall wrap: bool ensures Mesh(ALONE, wrap, 1, 0, 1) == 2 && Mesh(ALONE, wrap, 1, 1, 1) == 2 {
      assert Beyond(ALONE, wrap, 0, -1, 1) == 0 && Beyond(ALONE, wrap, 0, 2, 1) == 0;
    }
    assert Beyond(ALONE, false, 1, -1, 1) == 0 && Beyond(ALONE, true, 1, -1, 1) == 2;
  }
}
