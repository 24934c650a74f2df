/** The completion that draining the queue drops: for every number of ranks a run that drops one, what
    becomes of that call, and what the first refusal of a send decides for all runs. */
module FabricLoss {
  import opened Sums
  import opened Dissemination
  import opened Schedules
  import opened FabricBarrier
  import opened FabricProgress
  import opened FabricRecall

  /** No try to send is refused. */
  predicate NeverRefused(schedule: seq<Event>) {
    forall i | 0 <= i < |schedule| :: schedule[i].Cpu? ==> !schedule[i].full
  }

  lemma {:induction false} NeverRefusedIsGood(c: Config, schedule: seq<Event>)
    requires NeverRefused(schedule)
    ensures NoBadRefusal(c, schedule)
  {
    if schedule != [] { NeverRefusedIsGood(c, schedule[..|schedule| - 1]); }
  }

  lemma KeepsNoGiveUp(c: Config, schedule: seq<Event>, ev: Event)
    requires NoGiveUp(c, schedule) && !GivesUp(Run(c, schedule), ev)
    ensures NoGiveUp(c, schedule + [ev])
  {
    var longer := schedule + [ev];
    assert longer[..|longer| - 1] == schedule && longer[|longer| - 1] == ev;
  }

  // ---------------------------------------------------------------- a run that drops a completion

  /** One more action of rank r that does not give up. */
  lemma Moves(c: Config, schedule: seq<Event>, s: State, r: nat, full: bool) returns (s': State)
    requires c.Valid() && s == Run(c, schedule) && NoGiveUp(c, schedule)
    requires r < |s| && CpuEnabled(c, s[r]) && !(s[r].pc.Retry? && full)
    ensures r < c.size && Fits(c, s[r]) && s' == s[r := CpuNext(c, r, s[r], full)]
    ensures s' == Run(c, schedule + [Cpu(r, full)]) && NoGiveUp(c, schedule + [Cpu(r, full)])
  {
    CpuMoves(c, schedule, s, r, full);
    KeepsNoGiveUp(c, schedule, Cpu(r, full));
    s' := s[r := CpuNext(c, r, s[r], full)];
  }

  /** The rank that rank 0 hears from in its first round enters and sends. */
  lemma PeerSends(c: Config) returns (schedule: seq<Event>, s: State)
    requires c.size >= 2 && c.calls >= 1
    ensures NoGiveUp(c, schedule) && s == Run(c, schedule) && |s| == c.size && s[0] == Init(c)[0]
    ensures c.Rounds() > 0 && var q := RecvFrom(c.size, 0, 0); |s[q].out| == c.size && |s[q].out[0]| == 1
  {
    RoundsPositive(c);
    var q := RecvFrom(c.size, 0, 0);
    PeersInverse(c.size, 0, 0);
    var s1 := Moves(c, [], Init(c), q, false);
    var s2 := Moves(c, [] + [Cpu(q, false)], s1, q, false);
    schedule := ([] + [Cpu(q, false)]) + [Cpu(q, false)];
    s := Moves(c, schedule, s2, q, false);
    schedule := schedule + [Cpu(q, false)];
  }

  /** Rank 0 enters and posts its receive. */
  lemma FirstReceive(c: Config) returns (schedule: seq<Event>, s: State)
    requires c.size >= 2 && c.calls >= 1
    ensures NoGiveUp(c, schedule) && s == Run(c, schedule) && |s| == c.size
    ensures s[0] == Init(c)[0].(pc := Inject(0), bar := 1, recvs := [0])
    ensures c.Rounds() > 0 && var q := RecvFrom(c.size, 0, 0); |s[q].out| == c.size && |s[q].out[0]| == 1
  {
    var before, s0 := PeerSends(c);
    var s1 := Moves(c, before, s0, 0, false);
    assert s1[0] == Init(c)[0].(pc := AtRound(0), bar := 1);
    s := Moves(c, before + [Cpu(0, false)], s1, 0, false);
    schedule := before + [Cpu(0, false)] + [Cpu(0, false)];
    assert s1[0].recvs + [0] == [0];
  }

  /** Rank r drops a completion in a call that has not failed. */
  ghost predicate Drops(c: Config, schedule: seq<Event>, r: nat) {
    && NoGiveUp(c, schedule) && |Run(c, schedule)| == c.size && r < c.size
    && Run(c, schedule)[r].lost > 0 && !Run(c, schedule)[r].pc.Failed?
  }

  /** For every number of ranks from 2: the message meets the receive, the first try to send finds no
      room, and draining takes the completion of that receive. No call has failed. */
  lemma DrainLosesCompletion(c: Config) returns (schedule: seq<Event>)
    requires c.size >= 2 && c.calls >= 1
    ensures Drops(c, schedule, 0)
    ensures Run(c, schedule)[0].pc == Retry(0) && Run(c, schedule)[0].bar == 1 && Run(c, schedule)[0].errors == 0
  {
    RoundsPositive(c);
    var before, s := FirstReceive(c);
    RunShape(c, before);
    Extend(c, before, Match(0, 0));
    KeepsNoGiveUp(c, before, Match(0, 0));
    var s' := Step(c, s, Match(0, 0));
    WithoutFirst(0);
    assert s'[0] == s[0].(recvs := [], cq := 1);
    var after := Moves(c, before + [Match(0, 0)], s', 0, true);
    schedule := before + [Match(0, 0)] + [Cpu(0, true)];
  }

  /** In that run, however it goes on: the call of rank 0 never returns without an error. */
  lemma LostCallNeverReturns(c: Config) returns (schedule: seq<Event>)
    requires c.size >= 2 && c.calls >= 1
    ensures Drops(c, schedule, 0)
    ensures forall more :: |Run(c, schedule + more)| == c.size
    ensures forall more :: var rk := Run(c, schedule + more)[0]; rk.errors > 0 || (rk.bar == 1 && !rk.pc.Outside?)
  {
    schedule := DrainLosesCompletion(c);
    NoGiveUpNoRecall(c, schedule);
    forall more
      ensures |Run(c, schedule + more)| == c.size
      ensures var rk := Run(c, schedule + more)[0]; rk.errors > 0 || (rk.bar == 1 && !rk.pc.Outside?)
    {
      LossIsForever(c, schedule, more, 0);
    }
  }

  // ---------------------------------------------------------------- exactly when

  lemma NothingToDrop(c: Config, schedule: seq<Event>, r: nat)
    requires c.Valid() && (c.size == 1 || c.calls == 0) && NoGiveUp(c, schedule) && r < c.size
    ensures |Run(c, schedule)| == c.size && Run(c, schedule)[r].lost == 0
  {
    NoGiveUpNoRecall(c, schedule);
    RunInv(c, schedule);
    assert RankOk(c, Run(c, schedule)[r]);
  }

  /** Some run in which no call fails drops a completion exactly when there are two ranks and a call. */
  lemma DropsIff(c: Config)
    requires c.Valid()
    ensures (exists schedule, r: nat :: Drops(c, schedule, r)) <==> c.size >= 2 && c.calls >= 1
  {
    if c.size >= 2 && c.calls >= 1 {
      var schedule := DrainLosesCompletion(c);
    } else if schedule, r: nat :| Drops(c, schedule, r) {
      NothingToDrop(c, schedule, r);
    }
  }

  ghost predicate Stuck(c: Config, schedule: seq<Event>) {
    Shape(c, Run(c, schedule)) && Quiescent(c, Run(c, schedule))
  }

  /** A run that has not given up and can go on can do so without giving up. */
  lemma OneMore(c: Config, schedule: seq<Event>, some: Event) returns (ev: Event)
    requires c.Valid() && NoGiveUp(c, schedule)
    requires Inv(c, Run(c, schedule)) && Enabled(c, Run(c, schedule), some)
    ensures NoGiveUp(c, schedule + [ev])
    ensures Sum(Works(c, Run(c, schedule))) < Sum(Works(c, Run(c, schedule + [ev]))) <= TotalWork(c)
  {
    var s := Run(c, schedule);
    ev := if some.Cpu? then Cpu(some.r, false) else some;
    NoGiveUpNoRecall(c, schedule);
    assert Enabled(c, s, ev) && !Recalls(s, ev);
    Extend(c, schedule, ev);
    KeepsNoGiveUp(c, schedule, ev);
    StepCosts(c, s, ev);
  }

  /** So it can be carried on until nothing moves. */
  lemma {:induction false} Settle(c: Config, schedule: seq<Event>) returns (more: seq<Event>)
    requires c.Valid() && NoGiveUp(c, schedule)
    ensures NoGiveUp(c, schedule + more) && Stuck(c, schedule + more)
    decreases TotalWork(c) - Sum(Works(c, Run(c, schedule)))
  {
    NoGiveUpNoRecall(c, schedule);
    RunInv(c, schedule);
    if some :| Enabled(c, Run(c, schedule), some) {
      var ev := OneMore(c, schedule, some);
      var rest := Settle(c, schedule + [ev]);
      more := [ev] + rest;
      Joined(schedule, ev, rest);
    } else {
      more := [];
      Joined(schedule, Match(0, 0), more);
    }
  }

  /** Whether the first try of a send may be refused decides, among the runs in which no call fails: if
      it may not, every run that comes to rest has completed every call; if it may, that holds only
      with a single rank or no call at all. */
  lemma FirstTryDecides(c: Config, mayRefuse: bool)
    requires c.Valid()
    ensures (forall schedule | NoGiveUp(c, schedule) && (mayRefuse || NeverRefused(schedule)) && Stuck(c, schedule) ::
               EveryCallCompleted(c, Run(c, schedule)))
            <==> !mayRefuse || c.size == 1 || c.calls == 0
  {
    if !mayRefuse || c.size == 1 || c.calls == 0 {
      forall schedule | NoGiveUp(c, schedule) && (mayRefuse || NeverRefused(schedule)) && Stuck(c, schedule)
        ensures EveryCallCompleted(c, Run(c, schedule))
      {
        if mayRefuse { NothingIsBad(c, schedule); } else { NeverRefusedIsGood(c, schedule); }
        QuiescentDoneIff(c, schedule);
      }
    } else {
      var schedule := LostCallNeverReturns(c);
      var more := Settle(c, schedule);
      assert !EveryCallCompleted(c, Run(c, schedule + more));
    }
  }

  /** With one rank or no call there is no send to refuse. */
  lemma {:induction false} NothingIsBad(c: Config, schedule: seq<Event>)
    requires c.Valid() && NoGiveUp(c, schedule) && (c.size == 1 || c.calls == 0)
    ensures NoBadRefusal(c, schedule)
  {
    if schedule != [] {
      var front := schedule[..|schedule| - 1];
      NothingIsBad(c, front);
      NoGiveUpNoRecall(c, front);
      RunInv(c, front);
      assert forall r | 0 <= r < c.size :: RankOk(c, Run(c, front)[r]);
    }
  }
}
