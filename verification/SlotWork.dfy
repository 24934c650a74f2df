/** How much the proxy has left to do on a window of slots. */
module SlotWork {
  import S = Sums
  import opened Arithmetic
  import opened ArmedSlots

  /** Proxy actions until the slot is armed. */
  function SlotLeft(sl: Slot, held: bool): int { if sl.armed then 0 else if held then 1 else 2 }

  ghost function SlotsLeft(w: Window): (xs: seq<int>)
    ensures |xs| == |w.slots| && forall x | 0 <= x < |xs| :: xs[x] == SlotLeft(w.slots[x], w.proxy == Hold(x))
  {
    seq(|w.slots|, x requires 0 <= x < |w.slots| => SlotLeft(w.slots[x], w.proxy == Hold(x)))
  }

  lemma SlotChange(w: Window, x: nat, w': Window)
    requires x < |w.slots| == |w'.slots|
    requires forall y | 0 <= y < |w.slots| && y != x ::
               SlotLeft(w'.slots[y], w'.proxy == Hold(y)) == SlotLeft(w.slots[y], w.proxy == Hold(y))
    ensures S.Sum(SlotsLeft(w')) == S.Sum(SlotsLeft(w)) - SlotLeft(w.slots[x], w.proxy == Hold(x))
                                  + SlotLeft(w'.slots[x], w'.proxy == Hold(x))
  {
    S.SumOfUpdate(SlotsLeft(w), x, SlotLeft(w'.slots[x], w'.proxy == Hold(x)));
    assert SlotsLeft(w') == SlotsLeft(w)[x := SlotLeft(w'.slots[x], w'.proxy == Hold(x))];
  }

  lemma FireLeavesArmed(w: Window, x: nat)
    requires x < |w.slots|
    ensures S.Sum(SlotsLeft(FireAt(w, x))) == S.Sum(SlotsLeft(w))
  {
    SlotChange(w, x, FireAt(w, x));
  }

  lemma ReleaseCosts(w: Window, x: nat)
    requires x < |w.slots| && w.slots[x].armed && w.proxy != Hold(x)
    ensures S.Sum(SlotsLeft(ReleaseAt(w, x))) == S.Sum(SlotsLeft(w)) + 2
  {
    SlotChange(w, x, ReleaseAt(w, x));
  }

  lemma ProxyDrops(w: Window, active: int, x: nat, ok: bool)
    requires WindowOk(w, active) && ProxyEnabled(w, x) && (w.proxy.Scan? ==> ok)
    ensures S.Sum(SlotsLeft(ProxyNext(w, x, ok))) == S.Sum(SlotsLeft(w)) - 1
  {
    var y := if w.proxy.Hold? then w.proxy.x else x;
    assert SlotOk(w.slots[y], y == active, w.proxy == Hold(y));
    SlotChange(w, y, ProxyNext(w, x, ok));
  }

  lemma FreshLeft(total: nat)
    ensures S.Sum(SlotsLeft(InitWindow(total))) == Times(total, 2)
  {
    S.SumOfSame(SlotsLeft(InitWindow(total)), 2);
  }

  /** With every slot armed the proxy has nothing left to do. */
  lemma ArmedLeft(w: Window)
    requires forall x | 0 <= x < |w.slots| :: w.slots[x].armed
    ensures S.Sum(SlotsLeft(w)) == 0
  {
    S.SumOfZeros(SlotsLeft(w));
  }

  /** A refused re-queue changes nothing that is left to do. */
  lemma RefusalIsFree(w: Window, x: nat)
    requires w.proxy.Scan? && ProxyEnabled(w, x)
    ensures S.Sum(SlotsLeft(ProxyNext(w, x, false))) == S.Sum(SlotsLeft(w))
  {
    assert SlotsLeft(ProxyNext(w, x, false)) == SlotsLeft(w);
  }
}
