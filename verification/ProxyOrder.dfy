/** The ring put without delivery in order: the additions of the second barrier can overtake it, and
    then the verification reads too early. So order is needed, not only sufficient. */
module ProxyOrder {
  import opened Sums
  import opened ProxyBarrier
  import opened ProxySafety
  import opened ProxyProgress
  import opened ProxyWork

  /** Rank 1 has not come to its first verification and has received nothing. */
  predicate BeforeVerify(rk: Rank) {
    && rk.epoch == 0 && rk.recv == Unset && rk.errors == 0
    && match rk.gpu
       case At(b, _) => b <= 1
       case Trigger(b, _) => b <= 1
       case Poll(b, _) => b <= 1
       case Mark(b, _) => b <= 1
       case Verify => false
       case Finished => false
       case _ => true
  }

  predicate AtVerify(rk: Rank) { rk.gpu.Verify? && rk.epoch == 0 && rk.recv == Unset && rk.errors == 0 }

  /** The event delivers no put's value to rank 1. */
  predicate HoldsBack(c: Config, s: State, ev: Event) {
    !(LatePut(c, s, ev) && ev.t == 1)
  }

  lemma StepStaysBefore(c: Config, s: State, ev: Event)
    requires Shape(c, s) && !c.ordered && Enabled(c, s, ev) && HoldsBack(c, s, ev) && BeforeVerify(s[1])
    ensures |Step(c, s, ev)| == c.size && (BeforeVerify(Step(c, s, ev)[1]) || AtVerify(Step(c, s, ev)[1]))
  {
  }

  lemma NotStalled(c: Config, s: State)
    requires Inv(c, s) && BeforeVerify(s[1])
    ensures !Stalled(c, s)
  {
    if Stalled(c, s) { StalledIsFinished(c, s, 1); }
  }

  /** As long as rank 1 has not come to its verification, something else than that put can move. */
  lemma SomethingElse(c: Config, s: State) returns (ev: Event)
    requires Inv(c, s) && BeforeVerify(s[1])
    ensures Enabled(c, s, ev) && !Refused(s, ev) && HoldsBack(c, s, ev)
  {
    NotStalled(c, s);
    ev :| Enabled(c, s, ev) && !(ev.ProxyStep? && !ev.ok) && !LatePut(c, s, ev);
  }

  lemma Extend(c: Config, schedule: seq<Event>, ev: Event)
    ensures Run(c, schedule + [ev]) == Next(c, Run(c, schedule), ev)
  {
    assert (schedule + [ev])[..|schedule|] == schedule;
  }

  lemma WorkDrops(c: Config, s: State, ev: Event)
    requires Inv(c, s) && Enabled(c, s, ev) && !Refused(s, ev)
    ensures WorkLeft(c, Step(c, s, ev)) < WorkLeft(c, s)
  {
    StepDrops(c, s, ev);
    StepKeepsInv(c, s, ev);
    LeftNonNegative(c, Step(c, s, ev));
  }

  lemma StateMoves(c: Config, s: State) returns (ev: Event)
    requires Inv(c, s) && !c.ordered && BeforeVerify(s[1])
    ensures Enabled(c, s, ev) && |Step(c, s, ev)| == c.size
    ensures BeforeVerify(Step(c, s, ev)[1]) || AtVerify(Step(c, s, ev)[1])
    ensures WorkLeft(c, Step(c, s, ev)) < WorkLeft(c, s)
  {
    ev := SomethingElse(c, s);
    StepStaysBefore(c, s, ev);
    WorkDrops(c, s, ev);
  }

  lemma OneStep(c: Config, schedule: seq<Event>) returns (longer: seq<Event>)
    requires c.Valid() && !c.ordered && |Run(c, schedule)| == c.size && BeforeVerify(Run(c, schedule)[1])
    ensures |Run(c, longer)| == c.size && (BeforeVerify(Run(c, longer)[1]) || AtVerify(Run(c, longer)[1]))
    ensures WorkLeft(c, Run(c, longer)) < WorkLeft(c, Run(c, schedule))
  {
    RunInv(c, schedule);
    var ev := StateMoves(c, Run(c, schedule));
    longer := schedule + [ev];
    Extend(c, schedule, ev);
  }

  /** Drives the ranks on, holding the put back, until rank 1 verifies. */
  lemma {:induction false} Drive(c: Config, schedule: seq<Event>) returns (longer: seq<Event>)
    requires c.Valid() && !c.ordered && |Run(c, schedule)| == c.size && BeforeVerify(Run(c, schedule)[1])
    ensures |Run(c, longer)| == c.size && AtVerify(Run(c, longer)[1])
    decreases WorkLeft(c, Run(c, schedule))
  {
    longer := OneStep(c, schedule);
    if BeforeVerify(Run(c, longer)[1]) { longer := Drive(c, longer); }
  }

  ghost function WorkLeft(c: Config, s: State): nat {
    if Sum(RanksLeft(c, s)) >= 0 then Sum(RanksLeft(c, s)) else 0
  }

  /** For every number of ranks, window and positive number of epochs: without order between two ranks
      some run counts an error. */
  lemma OvertakenPutFails(c: Config) returns (schedule: seq<Event>)
    requires c.Valid() && !c.ordered && c.iters >= 1
    ensures |Run(c, schedule)| == c.size && Run(c, schedule)[1].errors == 1
  {
    var before := Drive(c, []);
    RunInv(c, before);
    schedule := before + [GpuStep(1)];
    Extend(c, before, GpuStep(1));
  }

  lemma {:induction false} NoEpochNoError(c: Config, schedule: seq<Event>)
    requires c.Valid() && c.iters == 0
    ensures Shape(c, Run(c, schedule))
    ensures forall r | 0 <= r < c.size :: Run(c, schedule)[r].gpu.Finished? && Run(c, schedule)[r].errors == 0
  {
    RunInv(c, schedule);
    if schedule != [] {
      NoEpochNoError(c, schedule[..|schedule| - 1]);
    }
  }

  ghost predicate AllPassed(c: Config, s: State) {
    |s| == c.size && forall r | 0 <= r < c.size :: s[r].errors == 0
  }

  /** All verifications of all runs pass exactly when the network keeps the order between two ranks, or
      there is nothing to verify. */
  lemma PassesIff(c: Config)
    requires c.Valid()
    ensures (forall schedule :: AllPassed(c, Run(c, schedule))) <==> c.ordered || c.iters == 0
  {
    if c.ordered || c.iters == 0 {
      forall schedule ensures AllPassed(c, Run(c, schedule)) {
        RunInv(c, schedule);
        forall r | 0 <= r < c.size ensures Run(c, schedule)[r].errors == 0 {
          if c.ordered { EveryVerificationPasses(c, schedule, r); } else { NoEpochNoError(c, schedule); }
        }
      }
    } else {
      var schedule := OvertakenPutFails(c);
      assert !AllPassed(c, Run(c, schedule));
    }
  }
}
