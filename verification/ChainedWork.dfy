/** Chained deferred work over a window of slots: the GPU's trigger fires an RMA write, the write's
    completion counter fires an atomic addition to the slot's result word, and the GPU polls that
    word. A CPU proxy re-queues both works of a released slot. */
module ChainedWork {
  import opened Arithmetic
  import opened Rotation

  datatype Config = Config(slots: nat, iters: nat) {
    predicate Valid() { slots >= 1 }
  }

  /** `queued...`: works waiting with threshold 1; `...Flying`: fired and not finished; `acks`:
      additions done whose completion has not been counted yet; `triggers` and `writesDone` count
      the trigger writes and the completed RMA writes of the slot. */
  datatype Slot = Slot(armed: bool, trig: nat, comp: nat, atomicComp: nat,
                       queuedWrites: nat, queuedAtomics: nat,
                       writesFlying: nat, atomicsFlying: nat, acks: nat,
                       result: nat, triggers: nat, writesDone: nat)

  datatype Gpu = WaitArmed | ClearResult | Trigger | WaitResult | Release | Finished

  /** The proxy scans, or is part-way through re-queueing slot x. */
  datatype Proxy = Scan | CountersReset(x: nat) | WriteQueued(x: nat) | AtomicQueued(x: nat)

  datatype State = State(slots: seq<Slot>, gpu: Gpu, iter: nat, proxy: Proxy, totalRearms: nat)

  datatype Event = GpuStep | ProxyStep(x: nat) | CompleteWrite(x: nat) | DeliverAtomic(x: nat) | CountAtomic(x: nat)

  function SlotOf(c: Config, iter: nat): (x: nat)
    requires c.Valid()
    ensures x < c.slots
  {
    iter % c.slots
  }

  ghost predicate Shape(c: Config, s: State) {
    && c.Valid() && |s.slots| == c.slots
    && (!s.proxy.Scan? ==> s.proxy.x < c.slots)
  }

  // ---------------------------------------------------------------- actions

  function Triggered(sl: Slot): Slot {
    sl.(trig := 1, triggers := sl.triggers + 1, queuedWrites := 0, writesFlying := sl.writesFlying + sl.queuedWrites)
  }

  /** A completed write counts, and fires the atomics queued behind the count. */
  function WriteCompleted(sl: Slot): Slot
    requires sl.writesFlying > 0
  {
    sl.(writesFlying := sl.writesFlying - 1, writesDone := sl.writesDone + 1, comp := sl.comp + 1,
        queuedAtomics := 0, atomicsFlying := sl.atomicsFlying + sl.queuedAtomics)
  }

  function QueueWrite(sl: Slot): Slot {
    if sl.trig >= 1 then sl.(writesFlying := sl.writesFlying + 1) else sl.(queuedWrites := sl.queuedWrites + 1)
  }

  function QueueAtomic(sl: Slot): Slot {
    if sl.comp >= 1 then sl.(atomicsFlying := sl.atomicsFlying + 1) else sl.(queuedAtomics := sl.queuedAtomics + 1)
  }

  ghost predicate Enabled(c: Config, s: State, ev: Event)
    requires Shape(c, s)
  {
    match ev
    case GpuStep =>
      (match s.gpu
       case WaitArmed => s.slots[SlotOf(c, s.iter)].armed
       case WaitResult => s.slots[SlotOf(c, s.iter)].result >= 1
       case Finished => false
       case _ => true)
    case ProxyStep(x) => s.proxy.Scan? ==> x < c.slots && !s.slots[x].armed
    case CompleteWrite(x) => x < c.slots && s.slots[x].writesFlying > 0
    case DeliverAtomic(x) => x < c.slots && s.slots[x].atomicsFlying > 0
    case CountAtomic(x) => x < c.slots && s.slots[x].acks > 0
  }

  ghost function GpuNext(c: Config, s: State): State
    requires Shape(c, s)
  {
    var x := SlotOf(c, s.iter);
    var sl := s.slots[x];
    match s.gpu
    case WaitArmed => s.(gpu := ClearResult)
    case ClearResult => s.(slots := s.slots[x := sl.(result := 0)], gpu := Trigger)
    case Trigger => s.(slots := s.slots[x := Triggered(sl)], gpu := WaitResult)
    case WaitResult => s.(gpu := Release)
    case Release =>
      s.(slots := s.slots[x := sl.(armed := false)], iter := s.iter + 1,
         gpu := if s.iter + 1 < c.iters then WaitArmed else Finished)
    case Finished => s
  }

  ghost function ProxyNext(c: Config, s: State, x: nat): State
    requires Shape(c, s) && Enabled(c, s, ProxyStep(x))
  {
    match s.proxy
    case Scan => s.(slots := s.slots[x := s.slots[x].(trig := 0, comp := 0, atomicComp := 0)], proxy := CountersReset(x))
    case CountersReset(y) => s.(slots := s.slots[y := QueueWrite(s.slots[y])], proxy := WriteQueued(y))
    case WriteQueued(y) => s.(slots := s.slots[y := QueueAtomic(s.slots[y])], proxy := AtomicQueued(y))
    case AtomicQueued(y) =>
      s.(slots := s.slots[y := s.slots[y].(armed := true)], proxy := Scan, totalRearms := s.totalRearms + 1)
  }

  ghost function Step(c: Config, s: State, ev: Event): State
    requires Shape(c, s) && Enabled(c, s, ev)
  {
    match ev
    case GpuStep => GpuNext(c, s)
    case ProxyStep(x) => ProxyNext(c, s, x)
    case CompleteWrite(x) => s.(slots := s.slots[x := WriteCompleted(s.slots[x])])
    case DeliverAtomic(x) =>
      var sl := s.slots[x];
      s.(slots := s.slots[x := sl.(atomicsFlying := sl.atomicsFlying - 1, result := sl.result + 1, acks := sl.acks + 1)])
    case CountAtomic(x) =>
      var sl := s.slots[x];
      s.(slots := s.slots[x := sl.(acks := sl.acks - 1, atomicComp := sl.atomicComp + 1)])
  }

  ghost function Init(c: Config): State {
    State(seq(c.slots, x => Slot(false, 0, 0, 0, 0, 0, 0, 0, 0, 0, 0, 0)),
          if c.iters > 0 then WaitArmed else Finished, 0, Scan, 0)
  }

  // ---------------------------------------------------------------- invariant

  /** How many of the iterations before `iter` use slot x. */
  ghost function Uses(c: Config, iter: nat, x: nat): nat
    requires c.Valid()
  {
    if iter == 0 then 0 else Uses(c, iter - 1, x) + if SlotOf(c, iter - 1) == x then 1 else 0
  }

  predicate Quiet(sl: Slot) {
    sl.writesFlying == 0 && sl.atomicsFlying == 0 && sl.writesDone == sl.triggers
  }

  /** The chain of a triggered slot: the write is under way, or the addition is, or it has been made. */
  predicate ChainOk(sl: Slot) {
    && sl.armed && sl.queuedWrites == 0 && sl.trig == 1 && sl.comp == 1 - sl.writesFlying
    && (|| (sl.writesFlying == 1 && sl.queuedAtomics == 1 && sl.atomicsFlying == 0
            && sl.result == 0 && sl.writesDone + 1 == sl.triggers)
        || (sl.writesFlying == 0 && sl.queuedAtomics == 0 && sl.atomicsFlying == 1
            && sl.result == 0 && sl.writesDone == sl.triggers)
        || (sl.writesFlying == 0 && sl.queuedAtomics == 0 && sl.atomicsFlying == 0
            && sl.result == 1 && sl.writesDone == sl.triggers))
  }

  /** A slot nobody uses, by how far the proxy has come with it (0: not begun). */
  predicate RestOk(sl: Slot, stage: nat) {
    && !sl.armed && Quiet(sl)
    && sl.queuedWrites == (if stage >= 2 then 1 else 0)
    && sl.queuedAtomics == (if stage >= 3 then 1 else 0)
    && (stage >= 1 ==> sl.trig == 0 && sl.comp == 0)
  }

  predicate ReadyOk(sl: Slot) {
    sl.armed && Quiet(sl) && sl.queuedWrites == 1 && sl.queuedAtomics == 1 && sl.trig == 0 && sl.comp == 0
  }

  function ProxyStage(p: Proxy, x: nat): nat {
    match p
    case Scan => 0
    case CountersReset(y) => if x == y then 1 else 0
    case WriteQueued(y) => if x == y then 2 else 0
    case AtomicQueued(y) => if x == y then 3 else 0
  }

  predicate Active(c: Config, s: State, x: nat)
    requires c.Valid()
  {
    (s.gpu.WaitResult? || s.gpu.Release?) && SlotOf(c, s.iter) == x
  }

  ghost predicate SlotOk(c: Config, s: State, x: nat)
    requires Shape(c, s) && x < c.slots
  {
    var sl := s.slots[x];
    && sl.triggers == Uses(c, s.iter, x) + (if Active(c, s, x) then 1 else 0)
    && (if Active(c, s, x) then ChainOk(sl) && ProxyStage(s.proxy, x) == 0
        else if sl.armed then ReadyOk(sl) && ProxyStage(s.proxy, x) == 0
        else RestOk(sl, ProxyStage(s.proxy, x)))
    && (s.gpu.ClearResult? || s.gpu.Trigger? ==> SlotOf(c, s.iter) == x ==> sl.armed)
    && (s.gpu.Trigger? && SlotOf(c, s.iter) == x ==> sl.result == 0)
    && (s.gpu.Release? && SlotOf(c, s.iter) == x ==> sl.result == 1)
  }

  ghost predicate Inv(c: Config, s: State) {
    && Shape(c, s)
    && (if s.gpu.Finished? then s.iter == c.iters else s.iter < c.iters)
    && forall x | 0 <= x < c.slots :: SlotOk(c, s, x)
  }

  lemma InitInv(c: Config)
    requires c.Valid()
    ensures Inv(c, Init(c))
  {
  }

  lemma StepKeepsSlot(c: Config, s: State, ev: Event, x: nat)
    requires Inv(c, s) && Enabled(c, s, ev) && x < c.slots && Shape(c, Step(c, s, ev))
    ensures SlotOk(c, Step(c, s, ev), x)
  {
    assert SlotOk(c, s, x);
    assert SlotOk(c, s, SlotOf(c, s.iter));
  }

  lemma StepKeepsInv(c: Config, s: State, ev: Event)
    requires Inv(c, s) && Enabled(c, s, ev)
    ensures Inv(c, Step(c, s, ev))
  {
    forall x | 0 <= x < c.slots ensures SlotOk(c, Step(c, s, ev), x) {
      StepKeepsSlot(c, s, ev, x);
    }
  }

  ghost function Next(c: Config, s: State, ev: Event): State {
    if Shape(c, s) && Enabled(c, s, ev) then Step(c, s, ev) else s
  }

  ghost function Run(c: Config, schedule: seq<Event>): State {
    if schedule == [] then Init(c) else Next(c, Run(c, schedule[..|schedule| - 1]), schedule[|schedule| - 1])
  }

  lemma {:induction false} RunInv(c: Config, schedule: seq<Event>)
    requires c.Valid()
    ensures Inv(c, Run(c, schedule))
  {
    if schedule == [] {
      InitInv(c);
    } else {
      RunInv(c, schedule[..|schedule| - 1]);
      var s, ev := Run(c, schedule[..|schedule| - 1]), schedule[|schedule| - 1];
      if Enabled(c, s, ev) { StepKeepsInv(c, s, ev); }
    }
  }

  // ---------------------------------------------------------------- what the GPU may conclude

  /** The slot of iteration i has been used i / slots times before. */
  lemma {:induction false} UsesIsQuotient(c: Config, q: nat, r: nat, x: nat)
    requires c.Valid() && r <= c.slots && x < c.slots
    ensures Uses(c, q * c.slots + r, x) == q + if x < r then 1 else 0
    decreases q, r
  {
    var i := q * c.slots + r;
    if r > 0 {
      UsesIsQuotient(c, q, r - 1, x);
      DivisionUnique(i - 1, c.slots, q, r - 1);
    } else if q > 0 {
      UsesIsQuotient(c, q - 1, c.slots, x);
      MulDistributes(q - 1, 1, c.slots);
    }
  }

  /** The first round uses the slots from 0 on, and two iterations share a slot exactly when they are
      whole rounds apart. */
  lemma SlotsRotate(c: Config, i: nat, j: nat)
    requires c.Valid()
    ensures i < c.slots ==> SlotOf(c, i) == i
    ensures SlotOf(c, i) == SlotOf(c, j) <==> (i - j) % c.slots == 0
  {
    if i < c.slots { DivisionUnique(i, c.slots, 0, i); }
    SameRow(c.slots, i, j);
  }

  lemma EarlierUses(c: Config, i: nat)
    requires c.Valid()
    ensures Uses(c, i, SlotOf(c, i)) == i / c.slots
  {
    var q, r := i / c.slots, i % c.slots;
    assert i == q * c.slots + r;
    UsesIsQuotient(c, q, r, r);
  }

  /** When the GPU sees the result of iteration i, the RMA write of iteration i has completed: the
      slot has completed exactly i / slots + 1 writes, one for each iteration that used it, and
      nothing of the chain is left in flight. */
  lemma ResultMeansWritten(c: Config, schedule: seq<Event>)
    requires c.Valid()
    ensures var s := Run(c, schedule);
            Shape(c, s) &&
            (s.gpu.WaitResult? && s.slots[SlotOf(c, s.iter)].result >= 1 ==>
             var sl := s.slots[SlotOf(c, s.iter)];
             sl.writesDone == s.iter / c.slots + 1 && sl.writesFlying == 0 && sl.atomicsFlying == 0)
  {
    RunInv(c, schedule);
    var s := Run(c, schedule);
    var x := SlotOf(c, s.iter);
    assert SlotOk(c, s, x);
    EarlierUses(c, s.iter);
  }

  /** Clearing the result word never races a pending addition, and until the GPU triggers nothing
      can set it again: no signal of an earlier iteration is mistaken for this one. */
  lemma ClearIsSafe(c: Config, schedule: seq<Event>)
    requires c.Valid()
    ensures var s := Run(c, schedule);
            Shape(c, s) &&
            (s.gpu.ClearResult? || s.gpu.Trigger? ==>
             var sl := s.slots[SlotOf(c, s.iter)];
             && sl.atomicsFlying == 0 && sl.writesFlying == 0
             && sl.queuedWrites == 1 && sl.queuedAtomics == 1
             && (s.gpu.Trigger? ==> sl.result == 0))
  {
    RunInv(c, schedule);
    assert SlotOk(c, Run(c, schedule), SlotOf(c, Run(c, schedule).iter));
  }

  /** The kernel and the proxy never wait for each other: until the last iteration is done,
      something can move. */
  lemma NeverStuck(c: Config, s: State)
    requires Inv(c, s) && !s.gpu.Finished?
    ensures exists ev :: Enabled(c, s, ev)
  {
    var x := SlotOf(c, s.iter);
    assert SlotOk(c, s, x);
    if Enabled(c, s, GpuStep) {
    } else if s.gpu.WaitArmed? {
      assert Enabled(c, s, ProxyStep(x));
    } else if s.slots[x].writesFlying > 0 {
      assert Enabled(c, s, CompleteWrite(x));
    } else {
      assert Enabled(c, s, DeliverAtomic(x));
    }
  }
}
