/** One launch of the fused sweep-and-trigger kernel, updating the next buffer in place: thread
    blocks run in any order, each counts itself done, and the last one writes the trigger. */
module JacobiKernel {
  import opened Arithmetic
  import opened Jacobi

  /** The blocks of a grid of `rows` by `cols`. */
  function Blocks(rows: nat, cols: nat): set<(nat, nat)> {
    set bi: nat, bj: nat | 0 <= bi < rows && 0 <= bj < cols :: (bi, bj)
  }

  function RowOfBlocks(row: nat, cols: nat): set<(nat, nat)> { set bj: nat | 0 <= bj < cols :: (row, bj) }

  lemma {:induction false} RowSize(row: nat, cols: nat)
    ensures |RowOfBlocks(row, cols)| == cols
  {
    if cols > 0 {
      RowSize(row, cols - 1);
      assert RowOfBlocks(row, cols) == RowOfBlocks(row, cols - 1) + {(row, cols - 1)};
    }
  }

  /** The number the last block compares its ticket with is the number of blocks. */
  lemma {:induction false} GridSize(rows: nat, cols: nat)
    ensures |Blocks(rows, cols)| == rows * cols
  {
    if rows == 0 {
      assert Blocks(rows, cols) == {};
    } else {
      GridSize(rows - 1, cols);
      RowSize(rows - 1, cols);
      assert Blocks(rows, cols) == Blocks(rows - 1, cols) + RowOfBlocks(rows - 1, cols);
      MulDistributes(rows - 1, 1, cols);
    }
  }

  class Launch<V> {
    const c: Config<V>
    const a: array2<V>
    const aNew: array2<V>
    var count: nat
    var rings: nat

    ghost predicate Valid() {
      && c.Valid() && a != aNew
      && a.Length0 == aNew.Length0 == c.chunk + 2 && a.Length1 == aNew.Length1 == c.nx
    }

    constructor (c: Config<V>, a: array2<V>, aNew: array2<V>)
      requires c.Valid() && a != aNew
      requires a.Length0 == aNew.Length0 == c.chunk + 2 && a.Length1 == aNew.Length1 == c.nx
      ensures Valid() && this.c == c && this.a == a && this.aNew == aNew && count == 0 && rings == 0
    {
      this.c, this.a, this.aNew := c, a, aNew;
      count, rings := 0, 0;
    }

    ghost function SweptAt(iy: nat, ix: nat): V
      requires Valid() && Own(c, iy, ix)
      reads a
    {
      c.stencil(a[iy, ix + 1], a[iy, ix - 1], a[iy + 1, ix], a[iy - 1, ix])
    }

    /** The buffer swept from, as a grid. */
    ghost function Current(): (m: Grid<V>)
      requires Valid()
      reads a
      ensures IsGrid(c, m)
    {
      map iy: nat, ix: nat | 0 <= iy <= c.chunk + 1 && 0 <= ix < c.nx :: (iy, ix) := a[iy, ix]
    }

    /** The cell the kernel writes is the stencil of the state machine's sweep. */
    lemma SweptIsStencil(iy: nat, ix: nat)
      requires Valid() && Own(c, iy, ix)
      ensures SweptAt(iy, ix) == Swept(c, Current(), iy, ix)
    {
    }

    /** Thread (ty, tx) of a block; threads beyond the mesh do nothing. */
    method Thread(bi: nat, bj: nat, ty: nat, tx: nat)
      requires Valid()
      modifies aNew
      ensures var iy, ix := bi * BLOCK + ty + 1, bj * BLOCK + tx + 1;
              forall y: nat, x: nat | y < c.chunk + 2 && x < c.nx ::
                aNew[y, x] == if Own(c, y, x) && y == iy && x == ix then SweptAt(y, x) else old(aNew[y, x])
    {
      var iy, ix := bi * BLOCK + ty + 1, bj * BLOCK + tx + 1;
      if iy < c.chunk + 1 && ix + 1 < c.nx {
        aNew[iy, ix] := c.stencil(a[iy, ix + 1], a[iy, ix - 1], a[iy + 1, ix], a[iy - 1, ix]);
      }
    }

    /** Cell (y, x) belongs to thread (ty, tx) with ty * BLOCK + tx below `m` in the block. */
    static predicate Before(bi: nat, bj: nat, y: nat, x: nat, ty: nat, tx: nat) {
      && bi * BLOCK < y <= bi * BLOCK + BLOCK && bj * BLOCK < x <= bj * BLOCK + BLOCK
      && (y - 1 < bi * BLOCK + ty || (y - 1 == bi * BLOCK + ty && x - 1 < bj * BLOCK + tx))
    }

    /** All threads of a block, then the block's ticket; the last ticket rings the trigger. */
    method Block(bi: nat, bj: nat, total: nat)
      requires Valid()
      modifies this`count, this`rings, aNew
      ensures forall y: nat, x: nat | y < c.chunk + 2 && x < c.nx ::
                aNew[y, x] == if Own(c, y, x) && BlockOf(y, x) == (bi, bj) then SweptAt(y, x) else old(aNew[y, x])
      ensures count == old(count) + 1
      ensures rings == old(rings) + if c.size > 1 && old(count) == total - 1 then 1 else 0
    {
      var ty := 0;
      while ty < BLOCK
        invariant 0 <= ty <= BLOCK && count == old(count) && rings == old(rings)
        invariant forall y: nat, x: nat | y < c.chunk + 2 && x < c.nx ::
                    aNew[y, x] == if Own(c, y, x) && Before(bi, bj, y, x, ty, 0) then SweptAt(y, x) else old(aNew[y, x])
      {
        var tx := 0;
        while tx < BLOCK
          invariant 0 <= tx <= BLOCK && count == old(count) && rings == old(rings)
          invariant forall y: nat, x: nat | y < c.chunk + 2 && x < c.nx ::
                      aNew[y, x] ==
                        if Own(c, y, x) && Before(bi, bj, y, x, ty, tx) then SweptAt(y, x) else old(aNew[y, x])
        {
          Thread(bi, bj, ty, tx);
          tx := tx + 1;
        }
        ty := ty + 1;
      }
      var done := count;
      count := count + 1;
      if c.size > 1 && done == total - 1 { rings := rings + 1; }
    }

    /** The launch: every block once, in the order the device picks. */
    method Run(order: seq<(nat, nat)>, rows: nat, cols: nat)
      requires Valid() && count == 0 && rings == 0
      requires rows == Ceil(c.chunk) && cols == Ceil(c.nx)
      requires forall b :: b in order <==> b in AllBlocks(c)
      requires forall m, n | 0 <= m < n < |order| :: order[m] != order[n]
      modifies this`count, this`rings, aNew
      ensures forall y: nat, x: nat | y < c.chunk + 2 && x < c.nx ::
                aNew[y, x] == if Own(c, y, x) then SweptAt(y, x) else old(aNew[y, x])
      ensures count == |AllBlocks(c)| && rings == if c.size > 1 then 1 else 0
    {
      GridSize(rows, cols);
      OrderCounts(order, AllBlocks(c));
      var n := 0;
      while n < |order|
        invariant 0 <= n <= |order| && count == n
        invariant rings == if c.size > 1 && n == rows * cols then 1 else 0
        invariant forall y: nat, x: nat | y < c.chunk + 2 && x < c.nx ::
                    aNew[y, x] == if Own(c, y, x) && BlockOf(y, x) in order[..n] then SweptAt(y, x) else old(aNew[y, x])
      {
        Block(order[n].0, order[n].1, rows * cols);
        n := n + 1;
      }
      assert order[..n] == order;
      assert forall y: nat, x: nat | Own(c, y, x) :: BlockOf(y, x) in AllBlocks(c);
    }
  }

  /** Every schedule leaves what Launch.Run leaves: once all blocks of a step are done, the rank's own cells of
      the next buffer hold the stencil of the current one, the counter has counted every block, and
      the trigger has been written once if there is a neighbour. */
  lemma LaunchIsEverySchedule<V>(c: Config<V>, schedule: seq<Event>, r: nat, iy: nat, ix: nat)
    requires c.Valid() && r < c.size && Own(c, iy, ix) && Computing(c, Jacobi.Run(c, schedule)[r])
    requires Jacobi.Run(c, schedule)[r].done == AllBlocks(c)
    ensures var rk := Jacobi.Run(c, schedule)[r];
            && |rk.bufs| == 2 && IsGrid(c, rk.bufs[0]) && IsGrid(c, rk.bufs[1])
            && rk.bufs[Nxt(rk.step)][(iy, ix)] == Swept(c, rk.bufs[Cur(rk.step)], iy, ix)
            && rk.count == |AllBlocks(c)| && rk.rings == if c.size > 1 then 1 else 0
  {
    var g := RunInv(c, schedule);
    LaunchLeaves(c, Jacobi.Run(c, schedule), g, r, iy, ix);
  }

  lemma LaunchLeaves<V>(c: Config<V>, s: Jacobi.State<V>, g: nat, r: nat, iy: nat, ix: nat)
    requires Shape(c, s) && r < c.size && RankOk(c, s[r], g) && CurOk(c, s, g, r) && NxtOk(c, s, g, r)
    requires Own(c, iy, ix) && Computing(c, s[r]) && s[r].done == AllBlocks(c)
    ensures var rk := s[r];
            && rk.bufs[Nxt(rk.step)][(iy, ix)] == Swept(c, rk.bufs[Cur(rk.step)], iy, ix)
            && rk.count == |AllBlocks(c)| && rk.rings == if c.size > 1 then 1 else 0
  {
    RungMeansWritten(c, s[r], g, iy, ix);
    SweepIsExpected(c, s, g, r, iy, ix);
    assert Ready(c, s, g, r, iy, ix) && Readable(c, iy, ix);
  }

  /** A duplicate-free sequence is as long as its set of members. */
  lemma {:induction false} OrderCounts<T>(order: seq<T>, members: set<T>)
    requires forall b :: b in order <==> b in members
    requires forall m, n | 0 <= m < n < |order| :: order[m] != order[n]
    ensures |order| == |members|
  {
    if order != [] {
      var last := order[|order| - 1];
      OrderCounts(order[..|order| - 1], members - {last});
    }
  }
}
