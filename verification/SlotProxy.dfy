/** The proxy thread's scan over the slot array, and the kernel's use of it, updated in place. */
module SlotProxy {
  import opened ArmedSlots

  /** What one scan does to the slots from `i` on; `oks[x]` says whether queueing for slot x succeeds. */
  function Scanned(slots: seq<Slot>, oks: seq<bool>): (r: seq<Slot>)
    requires |oks| >= |slots|
    ensures |r| == |slots|
  {
    seq(|slots|, x requires 0 <= x < |slots| => ScanOne(slots[x], oks[x]))
  }

  function ScanOne(sl: Slot, ok: bool): Slot {
    if sl.armed then sl
    else if ok then sl.(counter := 0, queued := true, armed := true, rearms := sl.rearms + 1)
    else sl.(counter := 0)
  }

  /** For one slot the scan makes the proxy's two actions, or one when queueing fails. */
  lemma ScanIsProxyActions(w: Window, x: nat, ok: bool)
    requires w.proxy.Scan? && x < |w.slots| && !w.slots[x].armed
    ensures var once := ProxyNext(w, x, ok);
            && (ok ==> ProxyEnabled(once, x))
            && (if ok then ProxyNext(once, x, ok) else once)
               == Window(w.slots[x := ScanOne(w.slots[x], ok)], Scan, w.totalRearms + if ok then 1 else 0)
  {
  }

  /** Slots that a scan arms. */
  function ArmedBy(slots: seq<Slot>, oks: seq<bool>, n: nat): nat
    requires n <= |slots| <= |oks|
  {
    if n == 0 then 0 else ArmedBy(slots, oks, n - 1) + if !slots[n - 1].armed && oks[n - 1] then 1 else 0
  }

  /** A scan keeps the window's bookkeeping: every slot armed once more than its work has fired, or as
      often, and the total counting the slots. The slot the kernel is using is left alone. */
  lemma ScanKeepsWindow(slots: seq<Slot>, total: nat, active: int, oks: seq<bool>)
    requires WindowOk(Window(slots, Scan, total), active) && |oks| >= |slots|
    ensures WindowOk(Window(Scanned(slots, oks), Scan, total + ArmedBy(slots, oks, |slots|)), active)
    ensures 0 <= active < |slots| ==> Scanned(slots, oks)[active] == slots[active]
  {
    ScanSum(slots, oks);
  }

  lemma {:induction false} ScanSum(slots: seq<Slot>, oks: seq<bool>)
    requires |oks| >= |slots|
    ensures SumRearms(Scanned(slots, oks)) == SumRearms(slots) + ArmedBy(slots, oks, |slots|)
    ensures SumFires(Scanned(slots, oks)) == SumFires(slots)
  {
    if slots != [] {
      var n := |slots| - 1;
      ScanSum(slots[..n], oks);
      assert Scanned(slots, oks)[..n] == Scanned(slots[..n], oks);
      ArmedByPrefix(slots, oks, n);
    }
  }

  lemma {:induction false} ArmedByPrefix(slots: seq<Slot>, oks: seq<bool>, n: nat)
    requires n < |slots| <= |oks|
    ensures ArmedBy(slots[..|slots| - 1], oks, n) == ArmedBy(slots, oks, n)
  {
    if n > 0 { ArmedByPrefix(slots, oks, n - 1); }
  }

  class Proxy {
    const slots: array<Slot>
    var totalRearms: nat

    constructor (total: nat)
      ensures fresh(slots) && slots[..] == InitWindow(total).slots && totalRearms == 0
    {
      var free := FRESH;
      slots := new Slot[total](_ => free);
      totalRearms := 0;
    }

    /** One pass over all slots: a slot marked NEED_QUEUE has its counters reset and its work queued;
        if that succeeds it is armed and counted. */
    method ScanAll(oks: seq<bool>) returns (didWork: bool)
      requires |oks| >= slots.Length
      modifies this`totalRearms, slots
      ensures slots[..] == Scanned(old(slots[..]), oks)
      ensures totalRearms == old(totalRearms) + ArmedBy(old(slots[..]), oks, slots.Length)
      ensures didWork <==> totalRearms > old(totalRearms)
    {
      ghost var was := slots[..];
      didWork := false;
      var x := 0;
      while x < slots.Length
        invariant 0 <= x <= slots.Length
        invariant forall y | 0 <= y < slots.Length :: slots[y] == if y < x then ScanOne(was[y], oks[y]) else was[y]
        invariant totalRearms == old(totalRearms) + ArmedBy(was, oks, x)
        invariant didWork <==> totalRearms > old(totalRearms)
      {
        if !slots[x].armed {
          slots[x] := slots[x].(counter := 0);
          if oks[x] {
            slots[x] := slots[x].(queued := true);
            slots[x] := slots[x].(armed := true, rearms := slots[x].rearms + 1);
            totalRearms := totalRearms + 1;
            didWork := true;
          }
        }
        x := x + 1;
      }
      assert slots[..] == Scanned(was, oks);
    }

    /** The kernel's use of a slot: it goes on only if the slot is armed; then its trigger fires the queued
        work, and the slot is handed back. */
    method UseSlot(x: nat) returns (fired: bool)
      requires x < slots.Length && WindowOk(Window(slots[..], Scan, totalRearms), -1)
      modifies slots
      ensures WindowOk(Window(slots[..], Scan, totalRearms), -1)
      ensures fired == old(slots[..])[x].armed
      ensures slots[..] == if fired then old(slots[..])[x := Fire(old(slots[..])[x]).(armed := false)] else old(slots[..])
      ensures SumFires(slots[..]) == SumFires(old(slots[..])) + if fired then 1 else 0
    {
      if !slots[x].armed { return false; }
      ghost var w := Window(slots[..], Scan, totalRearms);
      FireKeepsWindow(w, x);
      slots[x] := Fire(slots[x]);
      assert slots[..] == FireAt(w, x).slots;
      ReleaseKeepsWindow(FireAt(w, x), x);
      slots[x] := slots[x].(armed := false);
      assert slots[..] == ReleaseAt(FireAt(w, x), x).slots;
      return true;
    }
  }
}
