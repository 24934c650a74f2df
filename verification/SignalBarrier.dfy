/** The GPU-triggered dissemination barrier: signal puts into per-round cells that the GPU polls
    by equality, deferred work queued by a CPU monitor, and a network that fires, reads and
    delivers each put whenever it likes.

    The state is a value and every atomic action a function on it, so a theorem over all
    schedules is a theorem over all interleavings; an action whose guard is false is a spin and
    changes nothing. SignalDevice has the same rank as an object updated in place. */
module SignalBarrier {
  import opened Dissemination

  /** `slots` is the number of signal cells per round (two in the library), `target` the number
      of barriers the kernel performs. */
  datatype Config = Config(size: nat, slots: nat, target: nat) {
    predicate Valid() { size >= 1 && 1 <= slots <= 2 }
    function Rounds(): nat { Dissemination.Rounds(size) }
  }

  const N_SIGNAL_BUFFERS := 2

  /** Life of one queued put: the source buffer is read only after the put has fired. */
  datatype Stage = Queued | Fired | Fetched(value: nat) | Delivered | Completed

  datatype Op = Op(threshold: nat, peer: nat, slot: nat, buf: nat, stage: Stage)

  /** Program counter of the kernel thread inside `barrier_new`; `AtRound(n)` with all rounds
      finished is the notification of the CPU. */
  datatype Gpu = Outside | WaitReady | AtRound(k: nat) | Polling(k: nat)

  /** Program counter of the monitor: `Prepare` and `Queueing` are `setup`, `Flushing` is the
      completion wait of `reset`. */
  datatype Cpu = Prepare | Queueing(k: nat) | Watching | Flushing(k: nat) | Stopped

  datatype Rank = Rank(
    gpu: Gpu,
    expected: nat,
    trig: seq<nat>,           // trigger register of each round
    sig: seq<seq<nat>>,       // signal cells, by round and slot
    cpu: Cpu,
    count: nat,               // barrier_count
    bufs: seq<nat>,           // signal source buffers
    ops: seq<seq<Op>>,        // deferred work of each round, in queueing order
    comp: seq<nat>,           // completion counter of each round
    ready: nat,
    done: nat)

  type State = seq<Rank>

  datatype Event = GpuStep(r: nat) | CpuStep(r: nat) | NicStep(r: nat, k: nat, i: nat)

  // ---------------------------------------------------------------- well-formed states

  predicate OpFits(c: Config, op: Op) {
    op.peer < c.size && op.slot < c.slots && op.buf < N_SIGNAL_BUFFERS
  }

  ghost predicate Fits(c: Config, rk: Rank) {
    var n := c.Rounds();
    && |rk.trig| == |rk.sig| == |rk.ops| == |rk.comp| == n
    && |rk.bufs| == N_SIGNAL_BUFFERS
    && (forall k | 0 <= k < n :: |rk.sig[k]| == c.slots)
    && (forall k, i | 0 <= k < n && 0 <= i < |rk.ops[k]| :: OpFits(c, rk.ops[k][i]))
    && (rk.gpu.AtRound? ==> rk.gpu.k <= n)
    && (rk.gpu.Polling? ==> rk.gpu.k < n)
    && (rk.cpu.Queueing? ==> rk.cpu.k <= n)
    && (rk.cpu.Flushing? ==> rk.cpu.k <= n)
  }

  ghost predicate Shape(c: Config, s: State) {
    c.Valid() && |s| == c.size && forall r | 0 <= r < c.size :: Fits(c, s[r])
  }

  // ---------------------------------------------------------------- actions

  ghost predicate GpuEnabled(c: Config, rk: Rank)
    requires c.Valid() && Fits(c, rk)
  {
    match rk.gpu
    case Outside => rk.expected < c.target
    case WaitReady => rk.ready >= rk.expected
    case AtRound(_) => true
    case Polling(k) => rk.sig[k][rk.expected % c.slots] == rk.expected
  }

  ghost function GpuNext(c: Config, rk: Rank): Rank
    requires c.Valid() && Fits(c, rk)
  {
    match rk.gpu
    case Outside => rk.(gpu := WaitReady, expected := rk.expected + 1)
    case WaitReady => rk.(gpu := AtRound(0))
    case AtRound(k) =>
      if k < c.Rounds() then rk.(trig := rk.trig[k := rk.expected], gpu := Polling(k))
      else rk.(done := rk.done + 1, gpu := Outside)
    case Polling(k) => rk.(gpu := AtRound(k + 1))
  }

  ghost predicate CpuEnabled(c: Config, rk: Rank)
    requires Fits(c, rk)
  {
    match rk.cpu
    case Watching => rk.done > rk.count
    case Flushing(k) => k < c.Rounds() ==> rk.comp[k] >= rk.count
    case Stopped => false
    case _ => true
  }

  ghost function NewOp(c: Config, r: nat, k: nat, count: nat): Op
    requires c.Valid() && r < c.size && k < c.Rounds()
  {
    Op(count + 1, SendTo(c.size, k, r), (count + 1) % c.slots, count % N_SIGNAL_BUFFERS, Queued)
  }

  ghost function CpuNext(c: Config, r: nat, rk: Rank): Rank
    requires c.Valid() && r < c.size && Fits(c, rk)
  {
    match rk.cpu
    case Prepare =>
      rk.(bufs := rk.bufs[rk.count % N_SIGNAL_BUFFERS := rk.count + 1], cpu := Queueing(0))
    case Queueing(k) =>
      if k < c.Rounds() then
        rk.(ops := rk.ops[k := rk.ops[k] + [NewOp(c, r, k, rk.count)]], cpu := Queueing(k + 1))
      else rk.(ready := rk.ready + 1, cpu := Watching)
    case Watching => rk.(count := rk.count + 1, cpu := Flushing(0))
    case Flushing(k) =>
      if k < c.Rounds() then rk.(cpu := Flushing(k + 1))
      else if rk.count < c.target then rk.(cpu := Prepare) else rk.(cpu := Stopped)
    case Stopped => rk
  }

  ghost predicate NicEnabled(c: Config, rk: Rank, k: nat, i: nat)
    requires Fits(c, rk)
  {
    && k < c.Rounds() && i < |rk.ops[k]|
    && !rk.ops[k][i].stage.Completed?
    && (rk.ops[k][i].stage.Queued? ==> rk.trig[k] >= rk.ops[k][i].threshold)
  }

  ghost function NextStage(op: Op, bufs: seq<nat>): Stage
    requires op.buf < |bufs|
  {
    match op.stage
    case Queued => Fired
    case Fired => Fetched(bufs[op.buf])
    case Fetched(_) => Delivered
    case _ => Completed
  }

  /** The sender's half of a network step. */
  ghost function NicNext(c: Config, rk: Rank, k: nat, i: nat): Rank
    requires Fits(c, rk) && k < c.Rounds() && i < |rk.ops[k]|
  {
    var op := rk.ops[k][i];
    var moved := rk.(ops := rk.ops[k := rk.ops[k][i := op.(stage := NextStage(op, rk.bufs))]]);
    if op.stage.Delivered? then moved.(comp := rk.comp[k := rk.comp[k] + 1]) else moved
  }

  /** The receiver's half: the value lands in a signal cell. */
  ghost function Land(c: Config, rk: Rank, k: nat, slot: nat, value: nat): Rank
    requires Fits(c, rk) && k < c.Rounds() && slot < c.slots
  {
    var cells: seq<nat> := rk.sig[k][slot := value];
    rk.(sig := rk.sig[k := cells])
  }

  ghost predicate Enabled(c: Config, s: State, ev: Event)
    requires Shape(c, s)
  {
    ev.r < c.size &&
    match ev
    case GpuStep(r) => GpuEnabled(c, s[r])
    case CpuStep(r) => CpuEnabled(c, s[r])
    case NicStep(r, k, i) => NicEnabled(c, s[r], k, i)
  }

  ghost function Step(c: Config, s: State, ev: Event): State
    requires Shape(c, s) && Enabled(c, s, ev)
  {
    match ev
    case GpuStep(r) => s[r := GpuNext(c, s[r])]
    case CpuStep(r) => s[r := CpuNext(c, r, s[r])]
    case NicStep(r, k, i) =>
      var op := s[r].ops[k][i];
      var s1 := s[r := NicNext(c, s[r], k, i)];
      assert Fits(c, s1[op.peer]);
      if op.stage.Fetched? then s1[op.peer := Land(c, s1[op.peer], k, op.slot, op.stage.value)] else s1
  }

  ghost function InitRank(c: Config): Rank
  {
    var n := c.Rounds();
    Rank(Outside, 0, Zeros(n), seq(n, k => Zeros(c.slots)), Prepare, 0, Zeros(N_SIGNAL_BUFFERS),
         seq(n, k => []), Zeros(n), 0, 0)
  }

  function Zeros(n: nat): (z: seq<nat>)
    ensures |z| == n && forall i | 0 <= i < n :: z[i] == 0
  {
    seq(n, i => 0)
  }

  ghost function Init(c: Config): State {
    seq(c.size, r => InitRank(c))
  }

  // ---------------------------------------------------------------- invariant: one rank

  /** Number of barriers whose round-k trigger the GPU has written. */
  function Triggered(rk: Rank, k: nat): int {
    match rk.gpu
    case Outside => rk.expected
    case WaitReady => rk.expected - 1
    case AtRound(j) => if k < j then rk.expected else rk.expected - 1
    case Polling(j) => if k <= j then rk.expected else rk.expected - 1
  }

  /** Number of barriers whose round-k signal the GPU has seen. */
  function Seen(rk: Rank, k: nat): int {
    match rk.gpu
    case Outside => rk.expected
    case WaitReady => rk.expected - 1
    case AtRound(j) => if k < j then rk.expected else rk.expected - 1
    case Polling(j) => if k < j then rk.expected else rk.expected - 1
  }

  function Left(rk: Rank): int {
    if rk.gpu.Outside? then rk.expected else rk.expected - 1
  }

  /** Number of barriers whose round-k put has been queued. */
  function Setups(rk: Rank, k: nat): nat {
    match rk.cpu
    case Queueing(j) => if k < j then rk.count + 1 else rk.count
    case Watching => rk.count + 1
    case _ => rk.count
  }

  /** The monitor has seen the completion of everything queued for round k. */
  predicate Flushed(rk: Rank, k: nat) {
    match rk.cpu
    case Prepare => true
    case Queueing(j) => j <= k
    case Flushing(j) => k < j
    case Stopped => true
    case Watching => false
  }

  ghost predicate OpOk(c: Config, r: nat, rk: Rank, k: nat, i: nat)
    requires c.Valid() && r < c.size && Fits(c, rk) && k < c.Rounds() && i < |rk.ops[k]|
  {
    var op := rk.ops[k][i];
    && op.threshold == i + 1
    && op.peer == SendTo(c.size, k, r)
    && op.slot == (i + 1) % c.slots
    && op.buf == i % N_SIGNAL_BUFFERS
    && (!op.stage.Queued? ==> i + 1 <= Triggered(rk, k))
    && (op.stage.Queued? || op.stage.Fired? ==> rk.bufs[op.buf] == i + 1)
    && (op.stage.Fetched? ==> op.stage.value == i + 1)
    && (i + 1 < |rk.ops[k]| || Flushed(rk, k) ==> op.stage.Completed?)
  }

  /** Round k's completion counter counts the completed puts; only the newest put may be pending. */
  ghost predicate RoundOk(c: Config, r: nat, rk: Rank, k: nat)
    requires c.Valid() && r < c.size && Fits(c, rk) && k < c.Rounds()
  {
    && rk.trig[k] == Triggered(rk, k)
    && |rk.ops[k]| == Setups(rk, k)
    && (forall i | 0 <= i < |rk.ops[k]| :: OpOk(c, r, rk, k, i))
    && rk.comp[k] == (if Idle(rk.ops[k]) then |rk.ops[k]| else |rk.ops[k]| - 1)
  }

  predicate Idle(ops: seq<Op>) {
    |ops| == 0 || ops[|ops| - 1].stage.Completed?
  }

  ghost predicate CpuOk(c: Config, rk: Rank)
    requires Fits(c, rk)
  {
    match rk.cpu
    case Prepare => rk.ready == rk.count == rk.done && (rk.count < c.target || rk.count == 0)
    case Queueing(j) =>
      && rk.ready == rk.count == rk.done && (rk.count < c.target || rk.count == 0)
      && rk.bufs[rk.count % N_SIGNAL_BUFFERS] == rk.count + 1
    case Watching =>
      && rk.ready == rk.count + 1 && rk.count <= rk.done <= rk.count + 1
      && (rk.count < c.target || rk.count == 0)
    case Flushing(j) => rk.ready == rk.count == rk.done >= 1
    case Stopped => rk.ready == rk.count == rk.done == c.target
  }

  ghost predicate RankOk(c: Config, r: nat, rk: Rank)
    requires c.Valid() && r < c.size
  {
    && Fits(c, rk)
    && (!rk.gpu.Outside? ==> rk.expected >= 1)
    && rk.expected <= c.target
    && rk.done == Left(rk)
    && (rk.gpu.AtRound? || rk.gpu.Polling? ==> rk.ready >= rk.expected)
    && CpuOk(c, rk)
    && (forall k | 0 <= k < c.Rounds() :: RoundOk(c, r, rk, k))
  }

  // ---------------------------------------------------------------- invariant: one link

  /** Number of round-k puts of a rank that have been written at their target. */
  function Landed(ops: seq<Op>): nat {
    if |ops| == 0 || ops[|ops| - 1].stage.Delivered? || ops[|ops| - 1].stage.Completed? then |ops|
    else |ops| - 1
  }

  /** What a cell holds after puts 1..d in order: the newest of its slot. */
  function CellAfter(d: nat, slot: nat, slots: nat): nat
    requires 1 <= slots
  {
    if d % slots == slot then d else if d >= 1 then d - 1 else 0
  }

  ghost predicate LinkOk(c: Config, q: Rank, r: Rank, k: nat)
    requires c.Valid() && Fits(c, q) && Fits(c, r) && k < c.Rounds()
  {
    && Seen(r, k) <= Landed(q.ops[k])
    && forall slot | 0 <= slot < c.slots :: r.sig[k][slot] == CellAfter(Landed(q.ops[k]), slot, c.slots)
  }

  ghost predicate Inv(c: Config, s: State) {
    && c.Valid() && |s| == c.size
    && (forall r | 0 <= r < c.size :: RankOk(c, r, s[r]))
    && (forall q, k | 0 <= q < c.size && 0 <= k < c.Rounds() :: LinkOk(c, s[q], s[SendTo(c.size, k, q)], k))
  }

  lemma InvShape(c: Config, s: State)
    requires Inv(c, s)
    ensures Shape(c, s)
  {
  }

  lemma InitInv(c: Config)
    requires c.Valid()
    ensures Inv(c, Init(c))
  {
  }

  // ---------------------------------------------------------------- every action keeps it

  lemma GpuKeepsRound(c: Config, r: nat, rk: Rank, k: nat)
    requires c.Valid() && r < c.size && RankOk(c, r, rk) && GpuEnabled(c, rk) && k < c.Rounds()
    requires Fits(c, GpuNext(c, rk))
    ensures RoundOk(c, r, GpuNext(c, rk), k)
  {
    var rk' := GpuNext(c, rk);
    assert RoundOk(c, r, rk, k);
    forall i | 0 <= i < |rk'.ops[k]| ensures OpOk(c, r, rk', k, i) {
      assert OpOk(c, r, rk, k, i);
    }
  }

  lemma GpuKeepsRank(c: Config, r: nat, rk: Rank)
    requires c.Valid() && r < c.size && RankOk(c, r, rk) && GpuEnabled(c, rk)
    ensures RankOk(c, r, GpuNext(c, rk))
    ensures GpuNext(c, rk).ops == rk.ops && GpuNext(c, rk).sig == rk.sig
  {
    assert Fits(c, GpuNext(c, rk));
    forall k | 0 <= k < c.Rounds() ensures RoundOk(c, r, GpuNext(c, rk), k) {
      GpuKeepsRound(c, r, rk, k);
    }
  }

  lemma CpuKeepsRound(c: Config, r: nat, rk: Rank, k: nat)
    requires c.Valid() && r < c.size && RankOk(c, r, rk) && CpuEnabled(c, rk) && k < c.Rounds()
    requires Fits(c, CpuNext(c, r, rk))
    ensures RoundOk(c, r, CpuNext(c, r, rk), k)
    ensures Landed(CpuNext(c, r, rk).ops[k]) == Landed(rk.ops[k])
  {
    var rk' := CpuNext(c, r, rk);
    assert RoundOk(c, r, rk, k);
    if |rk.ops[k]| > 0 { assert OpOk(c, r, rk, k, |rk.ops[k]| - 1); }
    forall i | 0 <= i < |rk'.ops[k]| ensures OpOk(c, r, rk', k, i) {
      CpuKeepsOp(c, r, rk, k, i);
    }
  }

  lemma CpuKeepsOp(c: Config, r: nat, rk: Rank, k: nat, i: nat)
    requires c.Valid() && r < c.size && RankOk(c, r, rk) && CpuEnabled(c, rk) && k < c.Rounds()
    requires Fits(c, CpuNext(c, r, rk)) && i < |CpuNext(c, r, rk).ops[k]|
    ensures OpOk(c, r, CpuNext(c, r, rk), k, i)
  {
    assert RoundOk(c, r, rk, k);
    if i < |rk.ops[k]| { assert OpOk(c, r, rk, k, i); }
    if |rk.ops[k]| > 0 { assert OpOk(c, r, rk, k, |rk.ops[k]| - 1); }
  }

  lemma CpuKeepsShape(c: Config, r: nat, rk: Rank)
    requires c.Valid() && r < c.size && RankOk(c, r, rk) && CpuEnabled(c, rk)
    ensures Fits(c, CpuNext(c, r, rk)) && CpuOk(c, CpuNext(c, r, rk))
  {
  }

  lemma CpuKeepsRank(c: Config, r: nat, rk: Rank)
    requires c.Valid() && r < c.size && RankOk(c, r, rk) && CpuEnabled(c, rk)
    ensures RankOk(c, r, CpuNext(c, r, rk))
    ensures CpuNext(c, r, rk).gpu == rk.gpu && CpuNext(c, r, rk).expected == rk.expected
    ensures CpuNext(c, r, rk).sig == rk.sig
    ensures forall k | 0 <= k < c.Rounds() :: Landed(CpuNext(c, r, rk).ops[k]) == Landed(rk.ops[k])
  {
    CpuKeepsShape(c, r, rk);
    forall k | 0 <= k < c.Rounds()
      ensures RoundOk(c, r, CpuNext(c, r, rk), k)
      ensures Landed(CpuNext(c, r, rk).ops[k]) == Landed(rk.ops[k])
    {
      CpuKeepsRound(c, r, rk, k);
    }
  }

  lemma NicKeepsRound(c: Config, r: nat, rk: Rank, k: nat, i: nat)
    requires c.Valid() && r < c.size && RankOk(c, r, rk) && NicEnabled(c, rk, k, i)
    requires Fits(c, NicNext(c, rk, k, i))
    ensures RoundOk(c, r, NicNext(c, rk, k, i), k)
    ensures i == |rk.ops[k]| - 1
    ensures Landed(NicNext(c, rk, k, i).ops[k]) == if rk.ops[k][i].stage.Fetched? then i + 1 else Landed(rk.ops[k])
    ensures rk.ops[k][i].stage.Fetched? ==> Landed(rk.ops[k]) == i
  {
    var rk' := NicNext(c, rk, k, i);
    assert RoundOk(c, r, rk, k);
    assert OpOk(c, r, rk, k, i);
    forall m | 0 <= m < |rk'.ops[k]| ensures OpOk(c, r, rk', k, m) {
      assert OpOk(c, r, rk, k, m);
    }
  }

  /** What the invariant of a round looks at. */
  lemma SameRound(c: Config, r: nat, rk: Rank, rk': Rank, j: nat)
    requires c.Valid() && r < c.size && Fits(c, rk) && Fits(c, rk') && j < c.Rounds() && RoundOk(c, r, rk, j)
    requires rk'.gpu == rk.gpu && rk'.expected == rk.expected && rk'.cpu == rk.cpu && rk'.count == rk.count
    requires rk'.bufs == rk.bufs && rk'.trig[j] == rk.trig[j] && rk'.ops[j] == rk.ops[j] && rk'.comp[j] == rk.comp[j]
    ensures RoundOk(c, r, rk', j)
  {
    forall m | 0 <= m < |rk'.ops[j]| ensures OpOk(c, r, rk', j, m) {
      assert OpOk(c, r, rk, j, m);
    }
  }

  lemma NicKeepsShape(c: Config, r: nat, rk: Rank, k: nat, i: nat)
    requires c.Valid() && r < c.size && Fits(c, rk) && CpuOk(c, rk) && NicEnabled(c, rk, k, i)
    ensures Fits(c, NicNext(c, rk, k, i)) && CpuOk(c, NicNext(c, rk, k, i))
  {
  }

  lemma NicKeepsRank(c: Config, r: nat, rk: Rank, k: nat, i: nat)
    requires c.Valid() && r < c.size && RankOk(c, r, rk) && NicEnabled(c, rk, k, i)
    ensures RankOk(c, r, NicNext(c, rk, k, i))
  {
    var rk' := NicNext(c, rk, k, i);
    NicKeepsShape(c, r, rk, k, i);
    forall j | 0 <= j < c.Rounds() ensures RoundOk(c, r, rk', j) {
      if j == k { NicKeepsRound(c, r, rk, k, i); } else { SameRound(c, r, rk, rk', j); }
    }
  }

  lemma LandKeepsRank(c: Config, r: nat, rk: Rank, k: nat, slot: nat, value: nat)
    requires c.Valid() && r < c.size && RankOk(c, r, rk) && k < c.Rounds() && slot < c.slots
    ensures RankOk(c, r, Land(c, rk, k, slot, value))
  {
    var rk' := Land(c, rk, k, slot, value);
    forall j | 0 <= j < c.Rounds() ensures RoundOk(c, r, rk', j) {
      SameRound(c, r, rk, rk', j);
    }
  }

  lemma GpuKeepsInv(c: Config, s: State, r: nat)
    requires Inv(c, s) && r < c.size && GpuEnabled(c, s[r])
    ensures Inv(c, s[r := GpuNext(c, s[r])])
  {
    var s' := s[r := GpuNext(c, s[r])];
    GpuKeepsRank(c, r, s[r]);
    forall q, k | 0 <= q < c.size && 0 <= k < c.Rounds()
      ensures LinkOk(c, s'[q], s'[SendTo(c.size, k, q)], k)
    {
      assert LinkOk(c, s[q], s[SendTo(c.size, k, q)], k);
    }
  }

  /** A step that changes neither what the rank has seen and holds nor what it has landed keeps
      every link. */
  lemma UpdateKeepsInv(c: Config, s: State, r: nat, rk': Rank)
    requires Inv(c, s) && r < c.size && RankOk(c, r, rk')
    requires rk'.gpu == s[r].gpu && rk'.expected == s[r].expected && rk'.sig == s[r].sig
    requires forall k | 0 <= k < c.Rounds() :: Landed(rk'.ops[k]) == Landed(s[r].ops[k])
    ensures Inv(c, s[r := rk'])
  {
    var s' := s[r := rk'];
    forall q, k | 0 <= q < c.size && 0 <= k < c.Rounds()
      ensures LinkOk(c, s'[q], s'[SendTo(c.size, k, q)], k)
    {
      assert LinkOk(c, s[q], s[SendTo(c.size, k, q)], k);
    }
  }

  lemma CpuKeepsInv(c: Config, s: State, r: nat)
    requires Inv(c, s) && r < c.size && CpuEnabled(c, s[r])
    ensures Inv(c, s[r := CpuNext(c, r, s[r])])
  {
    CpuKeepsRank(c, r, s[r]);
    UpdateKeepsInv(c, s, r, CpuNext(c, r, s[r]));
  }

  /** A delivery changes one link only: the next put in order reaches the cell of its slot. */
  lemma LandingKeepsLink(c: Config, q: Rank, r: Rank, k: nat, i: nat, q': Rank, r': Rank)
    requires c.Valid() && Fits(c, q) && Fits(c, r) && Fits(c, q') && Fits(c, r') && k < c.Rounds()
    requires LinkOk(c, q, r, k)
    requires Landed(q.ops[k]) == i && Landed(q'.ops[k]) == i + 1
    requires r' == Land(c, r, k, (i + 1) % c.slots, i + 1)
    ensures LinkOk(c, q', r', k)
  {
  }

  /** Links look only at what the sender has landed and at what the receiver has seen and holds. */
  lemma SameLink(c: Config, q: Rank, r: Rank, q': Rank, r': Rank, k: nat)
    requires c.Valid() && Fits(c, q) && Fits(c, r) && Fits(c, q') && Fits(c, r') && k < c.Rounds()
    requires LinkOk(c, q, r, k)
    requires q'.ops[k] == q.ops[k] && r'.sig[k] == r.sig[k]
    requires r'.gpu == r.gpu && r'.expected == r.expected
    ensures LinkOk(c, q', r', k)
  {
  }

  lemma DeliveryKeepsLink(c: Config, s: State, r: nat, k: nat, rk': Rank, i: nat, q: nat, j: nat)
    requires Shape(c, s) && r < c.size && k < c.Rounds() && Fits(c, rk')
    requires q < c.size && j < c.Rounds() && LinkOk(c, s[q], s[SendTo(c.size, j, q)], j)
    requires rk'.gpu == s[r].gpu && rk'.expected == s[r].expected && rk'.sig == s[r].sig
    requires Landed(s[r].ops[k]) == i && Landed(rk'.ops[k]) == i + 1
    requires forall j | 0 <= j < c.Rounds() && j != k :: rk'.ops[j] == s[r].ops[j]
    ensures var t := SendTo(c.size, k, r);
            var s' := s[r := rk'][t := Land(c, s[t], k, (i + 1) % c.slots, i + 1)];
            LinkOk(c, s'[q], s'[SendTo(c.size, j, q)], j)
  {
    var t := SendTo(c.size, k, r);
    var u := SendTo(c.size, j, q);
    var s' := s[r := rk'][t := Land(c, s[t], k, (i + 1) % c.slots, i + 1)];
    if j == k && q == r {
      LandingKeepsLink(c, s[r], s[t], k, i, s'[r], s'[t]);
    } else {
      if j == k && u == t {
        PeersInverse(c.size, k, q);
        PeersInverse(c.size, k, r);
      }
      SameLink(c, s[q], s[u], s'[q], s'[u], j);
    }
  }

  lemma DeliveryKeepsInv(c: Config, s: State, r: nat, k: nat, rk': Rank, i: nat)
    requires Inv(c, s) && r < c.size && k < c.Rounds() && RankOk(c, r, rk')
    requires rk'.gpu == s[r].gpu && rk'.expected == s[r].expected && rk'.sig == s[r].sig
    requires Landed(s[r].ops[k]) == i && Landed(rk'.ops[k]) == i + 1
    requires forall j | 0 <= j < c.Rounds() && j != k :: rk'.ops[j] == s[r].ops[j]
    ensures var t := SendTo(c.size, k, r);
            Inv(c, s[r := rk'][t := Land(c, s[t], k, (i + 1) % c.slots, i + 1)])
  {
    var t := SendTo(c.size, k, r);
    LandKeepsRank(c, t, s[t], k, (i + 1) % c.slots, i + 1);
    forall q, j | 0 <= q < c.size && 0 <= j < c.Rounds() {
      DeliveryKeepsLink(c, s, r, k, rk', i, q, j);
    }
  }

  lemma NicTouches(c: Config, rk: Rank, k: nat, i: nat)
    requires Fits(c, rk) && NicEnabled(c, rk, k, i)
    ensures var rk' := NicNext(c, rk, k, i);
            && rk'.gpu == rk.gpu && rk'.expected == rk.expected && rk'.sig == rk.sig
            && |rk'.ops| == |rk.ops|
            && forall j | 0 <= j < c.Rounds() && j != k :: rk'.ops[j] == rk.ops[j]
  {
  }

  lemma NicKeepsInv(c: Config, s: State, r: nat, k: nat, i: nat)
    requires Inv(c, s) && r < c.size && NicEnabled(c, s[r], k, i)
    ensures var op := s[r].ops[k][i];
            var s1 := s[r := NicNext(c, s[r], k, i)];
            && Fits(c, s1[op.peer])
            && Inv(c, if op.stage.Fetched? then s1[op.peer := Land(c, s1[op.peer], k, op.slot, op.stage.value)] else s1)
  {
    var rk' := NicNext(c, s[r], k, i);
    NicKeepsRank(c, r, s[r], k, i);
    NicKeepsRound(c, r, s[r], k, i);
    NicTouches(c, s[r], k, i);
    assert RoundOk(c, r, s[r], k) && OpOk(c, r, s[r], k, i);
    if s[r].ops[k][i].stage.Fetched? {
      DeliveryKeepsInv(c, s, r, k, rk', i);
    } else {
      UpdateKeepsInv(c, s, r, rk');
    }
  }

  lemma StepKeepsInv(c: Config, s: State, ev: Event)
    requires Inv(c, s) && Shape(c, s) && Enabled(c, s, ev)
    ensures Inv(c, Step(c, s, ev))
  {
    match ev
    case GpuStep(r) => GpuKeepsInv(c, s, r);
    case CpuStep(r) => CpuKeepsInv(c, s, r);
    case NicStep(r, k, i) => NicKeepsInv(c, s, r, k, i);
  }
}
