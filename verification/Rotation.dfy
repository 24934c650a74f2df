/** A window of slots used in turn: epoch e uses row e mod window. */
module Rotation {
  import opened Arithmetic

  /** Two epochs have the same row exactly when they are a multiple of the window apart. */
  lemma SameRow(window: nat, e: nat, f: nat)
    requires window >= 1
    ensures e % window == f % window <==> (e - f) % window == 0
  {
    var q, r, p, s := e / window, e % window, f / window, f % window;
    assert e == q * window + r && f == p * window + s;
    MulDistributes(q - p, p, window);
    assert e - f == (q - p) * window + (r - s);
    if (e - f) % window == 0 {
      Multiple(window, e - f, q - p, r - s);
    } else if r == s {
      assert (e - f) == (q - p) * window;
      MultipleIsZero(window, q - p);
    }
  }

  lemma MultipleIsZero(window: nat, a: int)
    requires window >= 1
    ensures (a * window) % window == 0
  {
    if a >= 0 { DivisionUnique(a * window, window, a, 0); }
    else {
      var d, m := (a * window) / window, (a * window) % window;
      assert a * window == d * window + m;
      MulDistributes(a, -d, window);
      assert (a - d) * window == m;
      NoRoom(window, a - d, m);
    }
  }

  lemma NoRoom(window: nat, a: int, m: int)
    requires window >= 1 && a * window == m && m < window && 0 < m + window
    ensures a == 0 && m == 0
  {
    if a >= 1 { MulMonotone(1, a, window); }
    if a <= -1 {
      MulMonotone(1, -a, window);
      MulDistributes(a, -a, window);
    }
  }

  lemma Multiple(window: nat, x: int, a: int, d: int)
    requires window >= 1 && x == a * window + d && d < window && 0 < d + window && x % window == 0
    ensures d == 0
  {
    var b := x / window;
    assert x == b * window;
    MulDistributes(b, -a, window);
    NoRoom(window, b - a, d);
  }

  /** Epochs before `e` that use row w. */
  function Turns(window: nat, e: nat, w: nat): nat
    requires window >= 1
  {
    if e == 0 then 0 else Turns(window, e - 1, w) + if (e - 1) % window == w then 1 else 0
  }

  /** Every full rotation uses each row once, and the one under way the rows before e mod window. */
  lemma {:induction false} TurnsClosed(window: nat, e: nat, w: nat)
    requires w < window
    ensures Turns(window, e, w) == e / window + if w < e % window then 1 else 0
  {
    if e == 0 {
      DivisionUnique(0, window, 0, 0);
    } else {
      var q, r := (e - 1) / window, (e - 1) % window;
      TurnsClosed(window, e - 1, w);
      assert e - 1 == q * window + r;
      if r + 1 < window {
        DivisionUnique(e, window, q, r + 1);
      } else {
        MulDistributes(q, 1, window);
        DivisionUnique(e, window, q + 1, 0);
      }
    }
  }
}
