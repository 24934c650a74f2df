/** What the signal barrier guarantees on every schedule: barrier safety, refinement of the
    abstract barrier, how many signal slots are enough, and the handshake between CPU and GPU. */
module SignalSafety {
  import opened Dissemination
  import opened SignalBarrier
  import A = AbstractBarrier

  /** One scheduled action. An action whose guard is false is a spin and changes nothing. */
  ghost function Next(c: Config, s: State, ev: Event): State {
    if Shape(c, s) && Enabled(c, s, ev) then Step(c, s, ev) else s
  }

  /** The state after a schedule. */
  ghost function Run(c: Config, schedule: seq<Event>): State {
    if schedule == [] then Init(c) else Next(c, Run(c, schedule[..|schedule| - 1]), schedule[|schedule| - 1])
  }

  lemma {:induction false} RunInv(c: Config, schedule: seq<Event>)
    requires c.Valid()
    ensures Inv(c, Run(c, schedule)) && Shape(c, Run(c, schedule))
  {
    if schedule == [] {
      InitInv(c);
    } else {
      RunInv(c, schedule[..|schedule| - 1]);
      var s, ev := Run(c, schedule[..|schedule| - 1]), schedule[|schedule| - 1];
      if Enabled(c, s, ev) { StepKeepsInv(c, s, ev); }
    }
    InvShape(c, Run(c, schedule));
  }

  function Position(n: nat, rk: Rank): Pos {
    match rk.gpu
    case Outside => Pos(rk.expected, n)
    case WaitReady => Pos(rk.expected, 0)
    case AtRound(k) => Pos(rk.expected, k)
    case Polling(k) => Pos(rk.expected, k)
  }

  ghost function Positions(c: Config, s: State): seq<Pos> {
    seq(|s|, r requires 0 <= r < |s| => Position(c.Rounds(), s[r]))
  }

  /** A seen signal was triggered. */
  lemma SeenWasTriggered(c: Config, s: State, q: nat, k: nat)
    requires Inv(c, s) && q < c.size && k < c.Rounds()
    ensures Seen(s[SendTo(c.size, k, q)], k) <= Landed(s[q].ops[k]) <= Triggered(s[q], k)
  {
    assert LinkOk(c, s[q], s[SendTo(c.size, k, q)], k);
    assert RoundOk(c, q, s[q], k);
    var ops := s[q].ops[k];
    if |ops| > 0 { assert OpOk(c, q, s[q], k, |ops| - 1); }
    if |ops| > 1 { assert OpOk(c, q, s[q], k, |ops| - 2); }
  }

  lemma SignalsAreCausal(c: Config, s: State)
    requires Inv(c, s)
    ensures Causal(c.size, Positions(c, s))
  {
    var pos := Positions(c, s);
    forall r, e: nat, k | 0 <= r < c.size && 1 <= k <= c.Rounds()
      ensures CausalAt(c.size, pos, r, e, k)
    {
      SeenWasTriggered(c, s, RecvFrom(c.size, k - 1, r), k - 1);
    }
  }

  /** A rank that has left barrier `e` was preceded by every rank's entry into barrier `e`. */
  lemma NoEarlyLeave(c: Config, s: State, r: nat, e: nat)
    requires Inv(c, s) && r < c.size
    requires Left(s[r]) >= e || (s[r].gpu == AtRound(c.Rounds()) && s[r].expected >= e)
    ensures forall q | 0 <= q < c.size :: s[q].expected >= e
  {
    SignalsAreCausal(c, s);
    var pos := Positions(c, s);
    AllHaveEntered(c.size, pos, e, r);
    forall q | 0 <= q < c.size ensures s[q].expected >= e {
      assert Reached(pos[q], e, 0);
    }
  }

  /** Barrier safety over all schedules, sizes and barrier numbers, with unordered delivery. */
  lemma BarrierSafety(c: Config, schedule: seq<Event>, r: nat, e: nat)
    requires c.Valid()
    ensures var s := Run(c, schedule);
            |s| == c.size && (r < c.size && Left(s[r]) >= e ==> forall q | 0 <= q < c.size :: s[q].expected >= e)
  {
    RunInv(c, schedule);
    if r < c.size && Left(Run(c, schedule)[r]) >= e {
      NoEarlyLeave(c, Run(c, schedule), r, e);
    }
  }
  // ---------------------------------------------------------------- refinement

  ghost function Abs(c: Config, s: State): A.Barrier
    requires Inv(c, s)
  {
    A.Barrier(seq(c.size, r requires 0 <= r < c.size => s[r].expected),
            seq(c.size, r requires 0 <= r < c.size => s[r].done))
  }

  lemma GpuRefines(c: Config, s: State, r: nat)
    requires Inv(c, s) && r < c.size && GpuEnabled(c, s[r])
    requires Inv(c, s[r := GpuNext(c, s[r])])
    ensures A.Move(c.size, Abs(c, s), Abs(c, s[r := GpuNext(c, s[r])]), r)
  {
    var b, b' := Abs(c, s), Abs(c, s[r := GpuNext(c, s[r])]);
    if s[r].gpu.Outside? {
      assert b' == b.(entered := b.entered[r := b.entered[r] + 1]);
      assert A.Enter(c.size, b, b', r);
    } else if s[r].gpu == AtRound(c.Rounds()) {
      NoEarlyLeave(c, s, r, s[r].expected);
      assert b' == b.(left := b.left[r := b.left[r] + 1]);
      assert A.Leave(c.size, b, b', r);
    } else {
      assert b' == b;
    }
  }

  /** Every action is an abstract move of its rank, or invisible. */
  lemma StepRefines(c: Config, s: State, ev: Event)
    requires Inv(c, s) && Shape(c, s) && Enabled(c, s, ev)
    ensures Inv(c, Step(c, s, ev))
    ensures A.Move(c.size, Abs(c, s), Abs(c, Step(c, s, ev)), ev.r)
  {
    StepKeepsInv(c, s, ev);
    if ev.GpuStep? {
      GpuRefines(c, s, ev.r);
    } else {
      OthersAreInvisible(c, s, ev);
    }
  }

  lemma OthersAreInvisible(c: Config, s: State, ev: Event)
    requires Inv(c, s) && Shape(c, s) && Enabled(c, s, ev) && !ev.GpuStep? && Inv(c, Step(c, s, ev))
    ensures Abs(c, Step(c, s, ev)) == Abs(c, s)
  {
    var s' := Step(c, s, ev);
    forall r | 0 <= r < c.size ensures s'[r].expected == s[r].expected && s'[r].done == s[r].done {
      if ev.CpuStep? { CpuTouches(c, ev.r, s[ev.r]); }
    }
  }

  lemma CpuTouches(c: Config, r: nat, rk: Rank)
    requires c.Valid() && r < c.size && Fits(c, rk)
    ensures CpuNext(c, r, rk).expected == rk.expected && CpuNext(c, r, rk).done == rk.done
  {
  }

  // ---------------------------------------------------------------- signal slots

  /** A put for barrier e+2 is never triggered before its reader has seen barrier e. */
  lemma AtMostTwoAhead(c: Config, s: State, q: nat, k: nat)
    requires Inv(c, s) && q < c.size && k < c.Rounds()
    ensures Triggered(s[q], k) <= Seen(s[SendTo(c.size, k, q)], k) + 2
  {
    var r := SendTo(c.size, k, q);
    var e := Triggered(s[q], k);
    if e >= 1 {
      NoEarlyLeave(c, s, q, e - 1);
      assert s[r].expected >= e - 1;
    }
  }

  /** With 2^n - 1 ranks it is not even triggered before its reader has seen barrier e + 1. */
  lemma AtMostOneAhead(c: Config, s: State, q: nat, k: nat)
    requires Inv(c, s) && q < c.size && k < c.Rounds() && IsPowerOfTwo(c.size + 1)
    ensures Triggered(s[q], k) <= Seen(s[SendTo(c.size, k, q)], k) + 1
  {
    var e := Triggered(s[q], k);
    if e >= 2 {
      SignalsAreCausal(c, s);
      NeverLapped(c.size, Positions(c, s), e - 1, k, q);
    }
  }

  /** Two slots are enough, and one is for 2^n - 1 ranks, or if there is only one barrier. */
  ghost predicate EnoughSlots(c: Config) {
    c.slots == 2 || IsPowerOfTwo(c.size + 1) || c.target <= 1
  }

  /** With enough slots no signal is lost: equality polling succeeds exactly when the signal has
      landed, as a threshold test on a counter would. */
  lemma EqualityPollingExact(c: Config, s: State, r: nat)
    requires Inv(c, s) && EnoughSlots(c) && r < c.size && s[r].gpu.Polling?
    ensures var k := s[r].gpu.k;
            GpuEnabled(c, s[r]) <==> Landed(s[RecvFrom(c.size, k, r)].ops[k]) >= s[r].expected
  {
    var k := s[r].gpu.k;
    var q := RecvFrom(c.size, k, r);
    SeenWasTriggered(c, s, q, k);
    assert LinkOk(c, s[q], s[r], k);
    var slot := s[r].expected % c.slots;
    assert s[r].sig[k][slot] == CellAfter(Landed(s[q].ops[k]), slot, c.slots);
    if c.slots == 2 { AtMostTwoAhead(c, s, q, k); }
    else if c.target > 1 { AtMostOneAhead(c, s, q, k); }
  }

  /** At most one put of a rank is in flight per round, hence per cell. */
  lemma OneInFlight(c: Config, s: State, q: nat, k: nat, i: nat, j: nat)
    requires Inv(c, s) && q < c.size && k < c.Rounds()
    requires i < |s[q].ops[k]| && !s[q].ops[k][i].stage.Completed?
    requires j < |s[q].ops[k]| && !s[q].ops[k][j].stage.Completed?
    ensures i == j
  {
    assert RoundOk(c, q, s[q], k) && OpOk(c, q, s[q], k, i) && OpOk(c, q, s[q], k, j);
  }

  /** A delivery writes its own barrier's number into the cell its reader polls for that barrier,
      over the number of two barriers earlier; the reader has already seen that one. */
  lemma CellsRiseByTwo(c: Config, s: State, q: nat, k: nat, i: nat)
    requires Inv(c, s) && Shape(c, s) && c.slots == 2 && Enabled(c, s, NicStep(q, k, i))
    requires s[q].ops[k][i].stage.Fetched?
    ensures var r, e := SendTo(c.size, k, q), i + 1;
            && Step(c, s, NicStep(q, k, i))[r].sig[k][e % 2] == e
            && s[r].sig[k][e % 2] == (if e <= 2 then 0 else e - 2)
            && s[r].sig[k][e % 2] <= Seen(s[r], k)
  {
    var r := SendTo(c.size, k, q);
    NicKeepsRound(c, q, s[q], k, i);
    assert RoundOk(c, q, s[q], k) && OpOk(c, q, s[q], k, i);
    assert LinkOk(c, s[q], s[r], k);
    AtMostTwoAhead(c, s, q, k);
    assert s[r].sig[k][(i + 1) % 2] == CellAfter(i, (i + 1) % 2, 2);
  }

  // ---------------------------------------------------------------- CPU and GPU

  /** The counters the two processors share never drift: done stays within one of barrier_count,
      and ready counts the finished setups. */
  lemma Handshake(c: Config, schedule: seq<Event>, r: nat)
    requires c.Valid() && r < c.size
    ensures |Run(c, schedule)| == c.size
    ensures var rk := Run(c, schedule)[r];
            && rk.count <= rk.done <= rk.count + 1
            && (rk.cpu.Watching? ==> rk.ready == rk.count + 1)
            && (!rk.cpu.Watching? ==> rk.ready == rk.count == rk.done)
            && (rk.gpu.AtRound? || rk.gpu.Polling? ==> rk.ready == rk.expected == rk.count + 1)
  {
    RunInv(c, schedule);
  }

  /** A put fires only after this rank's own GPU has reached that round of that barrier, and
      carries the barrier's number although the source buffer is read late. */
  lemma PutsAreSound(c: Config, s: State, r: nat, k: nat, i: nat)
    requires Inv(c, s) && r < c.size && k < c.Rounds() && i < |s[r].ops[k]|
    ensures var op := s[r].ops[k][i];
            && op.threshold == i + 1
            && (!op.stage.Queued? ==> Reached(Position(c.Rounds(), s[r]), i + 1, k))
            && (op.stage.Fetched? ==> op.stage.value == op.threshold)
  {
    assert RoundOk(c, r, s[r], k) && OpOk(c, r, s[r], k, i);
  }

  /** The buffer that setup rewrites is not needed by any put that still has to read it. */
  lemma SourceRewrittenWhenIdle(c: Config, s: State, r: nat, k: nat, i: nat)
    requires Inv(c, s) && r < c.size && k < c.Rounds() && i < |s[r].ops[k]|
    requires s[r].cpu.Prepare?
    ensures s[r].ops[k][i].stage.Completed?
  {
    assert RoundOk(c, r, s[r], k) && OpOk(c, r, s[r], k, i);
  }
}
