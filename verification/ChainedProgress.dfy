/** Progress of the chained deferred work: no run has more than a fixed number of steps, and one that
    cannot go on has finished its iterations. */
module ChainedProgress {
  import S = Sums
  import opened ChainedWork
  import Arithmetic

  /** Kernel steps left. */
  function KernelLeft(c: Config, s: State): int {
    match s.gpu
    case WaitArmed => 5 * (c.iters - s.iter)
    case ClearResult => 5 * (c.iters - s.iter) - 1
    case Trigger => 5 * (c.iters - s.iter) - 2
    case WaitResult => 5 * (c.iters - s.iter) - 3
    case Release => 5 * (c.iters - s.iter) - 4
    case Finished => 0
  }

  /** Steps of the proxy and the network on a slot: four to re-queue it, three for a write under way and
      what follows it, two for an addition, one for its completion. */
  function SlotLeft(sl: Slot, stage: nat): int {
    (if sl.armed then 0 else 4 - stage) + 3 * sl.writesFlying + 2 * sl.atomicsFlying + sl.acks
  }

  ghost function SlotsLeft(s: State): (xs: seq<int>)
    ensures |xs| == |s.slots| && forall x | 0 <= x < |xs| :: xs[x] == SlotLeft(s.slots[x], ProxyStage(s.proxy, x))
  {
    seq(|s.slots|, x requires 0 <= x < |s.slots| => SlotLeft(s.slots[x], ProxyStage(s.proxy, x)))
  }

  ghost function WorkLeft(c: Config, s: State): int { 5 * KernelLeft(c, s) + S.Sum(SlotsLeft(s)) }

  /** A step changes what is left on one slot only. */
  lemma SlotChange(s: State, s': State, x: nat)
    requires x < |s.slots| == |s'.slots|
    requires forall y | 0 <= y < |s.slots| && y != x ::
               SlotLeft(s'.slots[y], ProxyStage(s'.proxy, y)) == SlotLeft(s.slots[y], ProxyStage(s.proxy, y))
    ensures S.Sum(SlotsLeft(s')) == S.Sum(SlotsLeft(s)) - SlotLeft(s.slots[x], ProxyStage(s.proxy, x))
                                    + SlotLeft(s'.slots[x], ProxyStage(s'.proxy, x))
  {
    var left := SlotLeft(s'.slots[x], ProxyStage(s'.proxy, x));
    S.SumOfUpdate(SlotsLeft(s), x, left);
    assert SlotsLeft(s') == SlotsLeft(s)[x := left];
  }

  /** The slot a step works on. */
  function SlotOfStep(c: Config, s: State, ev: Event): nat
    requires c.Valid()
  {
    match ev
    case GpuStep => SlotOf(c, s.iter)
    case ProxyStep(x) => if s.proxy.Scan? then x else s.proxy.x
    case CompleteWrite(x) => x
    case DeliverAtomic(x) => x
    case CountAtomic(x) => x
  }

  lemma OneSlot(c: Config, s: State, ev: Event)
    requires Inv(c, s) && Enabled(c, s, ev)
    ensures var s', x := Step(c, s, ev), SlotOfStep(c, s, ev);
            && x < c.slots == |s'.slots|
            && forall y | 0 <= y < c.slots && y != x ::
                 s'.slots[y] == s.slots[y] && ProxyStage(s'.proxy, y) == ProxyStage(s.proxy, y)
  {
  }

  /** What a step does to the slot it works on. */
  lemma SlotDrops(c: Config, s: State, ev: Event)
    requires Inv(c, s) && Enabled(c, s, ev) && SlotOfStep(c, s, ev) < c.slots
    ensures var s', x := Step(c, s, ev), SlotOfStep(c, s, ev);
            && |s'.slots| == c.slots
            && 5 * KernelLeft(c, s') + SlotLeft(s'.slots[x], ProxyStage(s'.proxy, x))
               < 5 * KernelLeft(c, s) + SlotLeft(s.slots[x], ProxyStage(s.proxy, x))
  {
    assert SlotOk(c, s, SlotOfStep(c, s, ev));
  }

  lemma StepDrops(c: Config, s: State, ev: Event)
    requires Inv(c, s) && Enabled(c, s, ev)
    ensures WorkLeft(c, Step(c, s, ev)) < WorkLeft(c, s)
  {
    OneSlot(c, s, ev);
    SlotDrops(c, s, ev);
    SlotChange(s, Step(c, s, ev), SlotOfStep(c, s, ev));
  }

  lemma LeftNonNegative(c: Config, s: State)
    requires Inv(c, s)
    ensures WorkLeft(c, s) >= 0
  {
    S.SumNonNegative(SlotsLeft(s));
  }

  /** How many events of a schedule are effective, that is, not spins. */
  ghost function Effective(c: Config, schedule: seq<Event>): nat {
    if schedule == [] then 0
    else
      var s, ev := Run(c, schedule[..|schedule| - 1]), schedule[|schedule| - 1];
      Effective(c, schedule[..|schedule| - 1]) + if Shape(c, s) && Enabled(c, s, ev) then 1 else 0
  }

  /** No schedule has more effective steps than 25 an iteration and 4 a slot. */
  lemma {:induction false} EffectiveBounded(c: Config, schedule: seq<Event>)
    requires c.Valid()
    ensures Effective(c, schedule) <= WorkLeft(c, Init(c)) - WorkLeft(c, Run(c, schedule)) <= WorkLeft(c, Init(c))
    ensures WorkLeft(c, Init(c)) <= 25 * c.iters + Arithmetic.Times(c.slots, 4)
  {
    RunInv(c, schedule);
    LeftNonNegative(c, Run(c, schedule));
    S.SumBounded(SlotsLeft(Init(c)), 4);
    if schedule != [] {
      EffectiveBounded(c, schedule[..|schedule| - 1]);
      RunInv(c, schedule[..|schedule| - 1]);
      var s, ev := Run(c, schedule[..|schedule| - 1]), schedule[|schedule| - 1];
      if Enabled(c, s, ev) { StepDrops(c, s, ev); }
    }
  }

  /** A run that cannot go on has finished all its iterations. */
  lemma StuckMeansFinished(c: Config, schedule: seq<Event>)
    requires c.Valid() && Shape(c, Run(c, schedule)) && forall ev :: !Enabled(c, Run(c, schedule), ev)
    ensures Run(c, schedule).gpu.Finished? && Run(c, schedule).iter == c.iters
  {
    RunInv(c, schedule);
    if !Run(c, schedule).gpu.Finished? { NeverStuck(c, Run(c, schedule)); }
  }

  // ---------------------------------------------------------------- how often slots are armed

  /** A slot has been armed as often as it was triggered, and once more while it is armed and unused. */
  ghost function Arms(c: Config, s: State): (xs: seq<int>)
    requires Shape(c, s)
    ensures |xs| == c.slots
    ensures forall x | 0 <= x < c.slots ::
              xs[x] == s.slots[x].triggers + if s.slots[x].armed && !Active(c, s, x) then 1 else 0
  {
    seq(c.slots, x requires 0 <= x < c.slots =>
      s.slots[x].triggers + if s.slots[x].armed && !Active(c, s, x) then 1 else 0)
  }

  lemma StepKeepsArms(c: Config, s: State, ev: Event)
    requires Inv(c, s) && Enabled(c, s, ev) && s.totalRearms == S.Sum(Arms(c, s))
    ensures Shape(c, Step(c, s, ev)) && Step(c, s, ev).totalRearms == S.Sum(Arms(c, Step(c, s, ev)))
  {
    var s', x := Step(c, s, ev), SlotOfStep(c, s, ev);
    StepKeepsInv(c, s, ev);
    assert SlotOk(c, s, x) && SlotOk(c, s', x);
    S.SumOfUpdate(Arms(c, s), x, Arms(c, s')[x]);
    assert Arms(c, s') == Arms(c, s)[x := Arms(c, s')[x]];
  }

  /** The proxy's counter is what the slots have been armed. */
  lemma {:induction false} RearmsCounted(c: Config, schedule: seq<Event>)
    requires c.Valid()
    ensures Shape(c, Run(c, schedule)) && Run(c, schedule).totalRearms == S.Sum(Arms(c, Run(c, schedule)))
  {
    if schedule == [] {
      S.SumOfZeros(Arms(c, Init(c)));
    } else {
      RearmsCounted(c, schedule[..|schedule| - 1]);
      RunInv(c, schedule[..|schedule| - 1]);
      var s, ev := Run(c, schedule[..|schedule| - 1]), schedule[|schedule| - 1];
      if Enabled(c, s, ev) { StepKeepsArms(c, s, ev); }
    }
  }
}
