/** The window of reusable deferred-work slots shared by the proxied barriers. A CPU proxy queues
    work for every slot marked NEED_QUEUE and marks it ARMED; the GPU waits for ARMED, writes the
    trigger, and marks the slot NEED_QUEUE again when it is done with it. */
module ArmedSlots {

  /** `queued`: deferred work with threshold 1 waits for the trigger counter. `rearms` and `fires`
      count how often the slot was armed and how often its work fired. */
  datatype Slot = Slot(armed: bool, queued: bool, counter: nat, rearms: nat, fires: nat)

  /** The proxy thread is scanning, or has queued work for a slot and will arm it next. */
  datatype Proxy = Scan | Hold(x: nat)

  datatype Window = Window(slots: seq<Slot>, proxy: Proxy, totalRearms: nat)

  const FRESH := Slot(false, false, 0, 0, 0)

  function InitWindow(total: nat): Window {
    Window(seq(total, i => FRESH), Scan, 0)
  }

  // ---------------------------------------------------------------- actions

  predicate ProxyEnabled(w: Window, x: nat) {
    match w.proxy
    case Scan => x < |w.slots| && !w.slots[x].armed
    case Hold(y) => y < |w.slots|
  }

  /** One action of the proxy on slot `x`: reset the counters and queue the work, which may fail
      and then leaves the slot as it is; or arm the slot whose work was just queued. */
  function ProxyNext(w: Window, x: nat, ok: bool): Window
    requires ProxyEnabled(w, x)
  {
    match w.proxy
    case Scan =>
      var sl := w.slots[x].(counter := 0);
      if ok then w.(slots := w.slots[x := sl.(queued := true)], proxy := Hold(x))
      else w.(slots := w.slots[x := sl])
    case Hold(y) =>
      var sl := w.slots[y];
      w.(slots := w.slots[y := sl.(armed := true, rearms := sl.rearms + 1)], proxy := Scan,
         totalRearms := w.totalRearms + 1)
  }

  /** The GPU writes 1 to the trigger counter: queued work fires, at once and only once. */
  function Fire(sl: Slot): Slot {
    if sl.queued then sl.(queued := false, counter := 1, fires := sl.fires + 1) else sl.(counter := 1)
  }

  function FireAt(w: Window, x: nat): Window
    requires x < |w.slots|
  {
    w.(slots := w.slots[x := Fire(w.slots[x])])
  }

  /** The GPU marks the slot NEED_QUEUE. */
  function ReleaseAt(w: Window, x: nat): Window
    requires x < |w.slots|
  {
    w.(slots := w.slots[x := w.slots[x].(armed := false)])
  }

  // ---------------------------------------------------------------- invariant

  /** `active`: the GPU has triggered this slot and not released it yet. */
  predicate SlotOk(sl: Slot, active: bool, held: bool) {
    if active then sl.armed && !held && !sl.queued && sl.counter == 1 && sl.rearms == sl.fires
    else if sl.armed then !held && sl.queued && sl.counter == 0 && sl.rearms == sl.fires + 1
    else sl.rearms == sl.fires && sl.queued == held && (held ==> sl.counter == 0)
  }

  function SumRearms(slots: seq<Slot>): nat {
    if slots == [] then 0 else SumRearms(slots[..|slots| - 1]) + slots[|slots| - 1].rearms
  }

  function SumFires(slots: seq<Slot>): nat {
    if slots == [] then 0 else SumFires(slots[..|slots| - 1]) + slots[|slots| - 1].fires
  }

  ghost predicate WindowOk(w: Window, active: int) {
    && (w.proxy.Hold? ==> w.proxy.x < |w.slots|)
    && (forall x | 0 <= x < |w.slots| :: SlotOk(w.slots[x], x == active, w.proxy == Hold(x)))
    && w.totalRearms == SumRearms(w.slots)
  }

  lemma {:induction false} SumUpdate(slots: seq<Slot>, x: nat, sl: Slot)
    requires x < |slots|
    ensures SumRearms(slots[x := sl]) == SumRearms(slots) - slots[x].rearms + sl.rearms
    ensures SumFires(slots[x := sl]) == SumFires(slots) - slots[x].fires + sl.fires
  {
    var m := |slots| - 1;
    if x == m {
      assert slots[x := sl][..m] == slots[..m];
    } else {
      assert slots[x := sl][..m] == slots[..m][x := sl];
      SumUpdate(slots[..m], x, sl);
    }
  }

  lemma {:induction false} SumOfFresh(total: nat)
    ensures SumRearms(InitWindow(total).slots) == SumFires(InitWindow(total).slots) == 0
  {
    if total > 0 {
      assert InitWindow(total).slots[..total - 1] == InitWindow(total - 1).slots;
      SumOfFresh(total - 1);
    }
  }

  lemma InitWindowOk(total: nat)
    ensures WindowOk(InitWindow(total), -1)
  {
    SumOfFresh(total);
  }

  lemma ProxyKeepsWindow(w: Window, active: int, x: nat, ok: bool)
    requires WindowOk(w, active) && ProxyEnabled(w, x)
    ensures WindowOk(ProxyNext(w, x, ok), active)
    ensures SumFires(ProxyNext(w, x, ok).slots) == SumFires(w.slots)
  {
    var y := if w.proxy.Hold? then w.proxy.x else x;
    SumUpdate(w.slots, y, ProxyNext(w, x, ok).slots[y]);
  }

  /** Triggering an armed slot fires its work, exactly once. */
  lemma FireKeepsWindow(w: Window, x: nat)
    requires WindowOk(w, -1) && x < |w.slots| && w.slots[x].armed
    ensures w.slots[x].queued && WindowOk(FireAt(w, x), x)
    ensures SumFires(FireAt(w, x).slots) == SumFires(w.slots) + 1
  {
    SumUpdate(w.slots, x, Fire(w.slots[x]));
  }

  lemma ReleaseKeepsWindow(w: Window, x: nat)
    requires WindowOk(w, x) && x < |w.slots|
    ensures WindowOk(ReleaseAt(w, x), -1)
    ensures SumFires(ReleaseAt(w, x).slots) == SumFires(w.slots)
  {
    SumUpdate(w.slots, x, w.slots[x].(armed := false));
  }

  // ---------------------------------------------------------------- conservation

  /** Every slot has been armed as often as it fired, or once more. */
  lemma RearmsMatchFires(w: Window, active: int, x: nat)
    requires WindowOk(w, active) && x < |w.slots|
    ensures w.slots[x].fires <= w.slots[x].rearms <= w.slots[x].fires + 1
    ensures w.slots[x].rearms == w.slots[x].fires + 1 <==> w.slots[x].armed && w.slots[x].queued
  {
  }

  lemma {:induction false} ArmedSum(slots: seq<Slot>)
    requires forall x | 0 <= x < |slots| :: slots[x].rearms == slots[x].fires + 1
    ensures SumRearms(slots) == |slots| + SumFires(slots)
  {
    if slots != [] { ArmedSum(slots[..|slots| - 1]); }
  }

  /** With every slot armed and none in use, the proxy has armed each slot once more than work
      has fired: total rearms are the slots plus the triggers. */
  lemma TotalRearms(w: Window)
    requires WindowOk(w, -1) && forall x | 0 <= x < |w.slots| :: w.slots[x].armed
    ensures w.totalRearms == |w.slots| + SumFires(w.slots)
  {
    ArmedSum(w.slots);
  }
}
