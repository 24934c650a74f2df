/** The send buffer of the ring put: it is overwritten while a put has still to read it in some run
    exactly if messages between two ranks may overtake each other and there is a second epoch. */
module ProxySource {
  import opened Sums
  import opened Dissemination
  import opened ProxyBarrier
  import opened ProxySafety
  import opened ProxyProgress
  import opened ProxyWork
  import ProxyOrder

  /** Rank r is about to overwrite the buffer, and its i-th message to rank t still has to read it. */
  predicate Overwrites(s: State, r: nat, t: nat, i: nat) {
    r < |s| && s[r].gpu.WriteSource? && t < |s[r].out| && i < |s[r].out[t]| && s[r].out[t][i].Put?
  }

  // ---------------------------------------------------------------- a run that does

  /** The first put of rank 0, once triggered, has not been read. */
  ghost predicate Waiting(rk: Rank) { |rk.out| >= 2 && (PutsTriggered(rk) >= 1 ==> Put in rk.out[1]) }

  ghost predicate FirstEpoch(rk: Rank) { rk.epoch == 0 && !rk.gpu.Finished? }

  /** On the way to its second write of the buffer. */
  ghost predicate SecondEpoch(rk: Rank) {
    && rk.epoch == 1
    && match rk.gpu
       case At(b, _) => b == 0
       case Trigger(b, _) => b == 0
       case Poll(b, _) => b == 0
       case Mark(b, _) => b == 0
       case _ => false
  }

  ghost predicate Before(rk: Rank) { Waiting(rk) && (FirstEpoch(rk) || SecondEpoch(rk)) }

  ghost predicate AtWrite(rk: Rank) { Waiting(rk) && rk.epoch == 1 && rk.gpu.WriteSource? }

  lemma StillThere(out: seq<Msg>, i: nat)
    requires i < |out| && Put in out && out[i] != Put
    ensures Put in Without(out, i)
  {
    var j :| 0 <= j < |out| && out[j] == Put;
    assert Without(out, i)[if j < i then j else j - 1] == Put;
  }

  lemma KernelStaysBefore(c: Config, rk: Rank)
    requires c.Valid() && c.iters >= 2 && RankOk(c, rk) && GpuEnabled(c, rk) && Before(rk)
    ensures var rk' := GpuNext(c, 0, rk); Before(rk') || AtWrite(rk')
  {
    PutTargetIsPhaseZero(c, 0);
    GpuSends(c, 0, rk);
    if rk.gpu.PutTrigger? {
      assert GpuNext(c, 0, rk).out[1][|rk.out[1]|] == Put;
    } else if rk.gpu.Trigger? && PutsTriggered(rk) >= 1 {
      var i :| 0 <= i < |rk.out[1]| && rk.out[1][i] == Put;
      assert GpuNext(c, 0, rk).out[1][i] == Put;
    }
  }

  lemma StepStaysBefore(c: Config, s: State, ev: Event)
    requires Inv(c, s) && !c.ordered && c.iters >= 2 && Enabled(c, s, ev) && !LatePut(c, s, ev) && Before(s[0])
    ensures |Step(c, s, ev)| == c.size && (Before(Step(c, s, ev)[0]) || AtWrite(Step(c, s, ev)[0]))
  {
    assert RankOk(c, s[0]);
    if ev == GpuStep(0) { KernelStaysBefore(c, s[0]); }
    if ev.Deliver? && ev.r == 0 && ev.t == 1 && PutsTriggered(s[0]) >= 1 { StillThere(s[0].out[1], ev.i); }
  }

  lemma StateMoves(c: Config, s: State) returns (ev: Event)
    requires Inv(c, s) && !c.ordered && c.iters >= 2 && Before(s[0])
    ensures Enabled(c, s, ev) && |Step(c, s, ev)| == c.size
    ensures Before(Step(c, s, ev)[0]) || AtWrite(Step(c, s, ev)[0])
    ensures ProxyOrder.WorkLeft(c, Step(c, s, ev)) < ProxyOrder.WorkLeft(c, s)
  {
    if Stalled(c, s) { StalledIsFinished(c, s, 0); }
    ev :| Enabled(c, s, ev) && !(ev.ProxyStep? && !ev.ok) && !LatePut(c, s, ev);
    StepStaysBefore(c, s, ev);
    ProxyOrder.WorkDrops(c, s, ev);
  }

  lemma OneStep(c: Config, schedule: seq<Event>) returns (longer: seq<Event>)
    requires c.Valid() && !c.ordered && c.iters >= 2 && |Run(c, schedule)| == c.size && Before(Run(c, schedule)[0])
    ensures |Run(c, longer)| == c.size && (Before(Run(c, longer)[0]) || AtWrite(Run(c, longer)[0]))
    ensures ProxyOrder.WorkLeft(c, Run(c, longer)) < ProxyOrder.WorkLeft(c, Run(c, schedule))
  {
    RunInv(c, schedule);
    var ev := StateMoves(c, Run(c, schedule));
    longer := schedule + [ev];
    ProxyOrder.Extend(c, schedule, ev);
  }

  /** Drives the ranks on with every put held back, until rank 0 writes its buffer again. */
  lemma {:induction false} Drive(c: Config, schedule: seq<Event>) returns (longer: seq<Event>)
    requires c.Valid() && !c.ordered && c.iters >= 2 && |Run(c, schedule)| == c.size && Before(Run(c, schedule)[0])
    ensures |Run(c, longer)| == c.size && AtWrite(Run(c, longer)[0])
    decreases ProxyOrder.WorkLeft(c, Run(c, schedule))
  {
    longer := OneStep(c, schedule);
    if Before(Run(c, longer)[0]) { longer := Drive(c, longer); }
  }

  // ---------------------------------------------------------------- and when none does

  predicate OnlyAdds(out: seq<Msg>) { forall i | 0 <= i < |out| :: out[i].Add? }

  /** Before its first trigger of a put a rank has none on the way. */
  predicate NoPutYet(rk: Rank) { PutsTriggered(rk) == 0 ==> forall t | 0 <= t < |rk.out| :: OnlyAdds(rk.out[t]) }

  lemma GpuKeepsNoPut(c: Config, r: nat, rk: Rank)
    requires c.Valid() && r < c.size && RankOk(c, rk) && GpuEnabled(c, rk) && NoPutYet(rk)
    ensures NoPutYet(GpuNext(c, r, rk))
  {
    GpuSends(c, r, rk);
  }

  lemma TakingKeepsNoPut(rk: Rank, t: nat, i: nat)
    requires t < |rk.out| && i < |rk.out[t]| && NoPutYet(rk)
    ensures NoPutYet(Taken(rk, t, i))
  {
  }

  lemma DeliverKeepsNoPut(c: Config, s: State, r: nat, t: nat, i: nat, q: nat)
    requires Inv(c, s) && Enabled(c, s, Deliver(r, t, i)) && q < c.size && NoPutYet(s[q])
    ensures |Step(c, s, Deliver(r, t, i))| == c.size && NoPutYet(Step(c, s, Deliver(r, t, i))[q])
  {
    if q == r { TakingKeepsNoPut(s[r], t, i); }
    else { assert Step(c, s, Deliver(r, t, i))[q].out == s[q].out; }
  }

  lemma StepKeepsNoPut(c: Config, s: State, ev: Event, r: nat)
    requires Inv(c, s) && Enabled(c, s, ev) && r < c.size && NoPutYet(s[r])
    ensures |Step(c, s, ev)| == c.size && NoPutYet(Step(c, s, ev)[r])
  {
    if ev == GpuStep(r) {
      assert RankOk(c, s[r]);
      GpuKeepsNoPut(c, r, s[r]);
    } else if ev.Deliver? {
      DeliverKeepsNoPut(c, s, ev.r, ev.t, ev.i, r);
    }
  }

  lemma {:induction false} RunNoPut(c: Config, schedule: seq<Event>, r: nat)
    requires c.Valid() && r < c.size
    ensures |Run(c, schedule)| == c.size && NoPutYet(Run(c, schedule)[r])
  {
    if schedule != [] {
      RunNoPut(c, schedule[..|schedule| - 1], r);
      RunInv(c, schedule[..|schedule| - 1]);
      var s, ev := Run(c, schedule[..|schedule| - 1]), schedule[|schedule| - 1];
      if Enabled(c, s, ev) { StepKeepsNoPut(c, s, ev, r); }
    }
  }

  lemma OrderProtects(c: Config, schedule: seq<Event>, r: nat, t: nat, i: nat)
    requires c.Valid() && c.ordered
    ensures !Overwrites(Run(c, schedule), r, t, i)
  {
    var s := Run(c, schedule);
    RunOrdered(c, schedule);
    if r < c.size && s[r].gpu.WriteSource? && t < c.size {
      SourceIsFree(c, s, r);
      assert t != SendTo(c.size, 0, r) ==> NoPuts(s[r].out[t]);
    }
  }

  lemma OneEpochProtects(c: Config, schedule: seq<Event>, r: nat, t: nat, i: nat)
    requires c.Valid() && c.iters <= 1
    ensures !Overwrites(Run(c, schedule), r, t, i)
  {
    var s := Run(c, schedule);
    RunInv(c, schedule);
    if r < c.size {
      RunNoPut(c, schedule, r);
      assert RankOk(c, s[r]);
      assert s[r].gpu.WriteSource? && t < |s[r].out| ==> OnlyAdds(s[r].out[t]);
    }
  }

  /** No run ever overwrites the buffer under a put that has still to read it, exactly if the network
      keeps the order between two ranks or there is no second epoch. */
  lemma SourceFreeIff(c: Config)
    requires c.Valid()
    ensures (forall schedule, r: nat, t: nat, i: nat :: !Overwrites(Run(c, schedule), r, t, i))
            <==> c.ordered || c.iters <= 1
  {
    if c.ordered || c.iters <= 1 {
      forall schedule, r: nat, t: nat, i: nat ensures !Overwrites(Run(c, schedule), r, t, i) {
        if c.ordered { OrderProtects(c, schedule, r, t, i); } else { OneEpochProtects(c, schedule, r, t, i); }
      }
    } else {
      assert Before(Init(c)[0]) && Run(c, []) == Init(c);
      var schedule := Drive(c, []);
      var i: nat :| i < |Run(c, schedule)[0].out[1]| && Run(c, schedule)[0].out[1][i] == Put;
      assert Overwrites(Run(c, schedule), 0, 1, i);
    }
  }
}
