/** The message-passing dissemination barrier: in each round a rank posts a directed receive,
    injects its message, retrying once after draining one completion, and waits for a completion.
    Channels between two ranks are FIFO, and so are the receives posted for one source. A call
    whose second try finds no room returns as well: its receive stays posted, its caller sees
    nothing of the failure and may call again. */
module FabricBarrier {
  import opened Dissemination
  import A = AbstractBarrier

  /** `calls`: barriers each rank performs. */
  datatype Config = Config(size: nat, calls: nat) {
    predicate Valid() { size >= 1 }
    function Rounds(): nat { Dissemination.Rounds(size) }
  }

  /** The barrier and round a message belongs to; the program never looks at it. */
  datatype Token = Token(bar: nat, round: nat)

  datatype Pc =
    | Outside
    | AtRound(k: nat)    // about to post the receive of round k, or to return after the last round
    | Inject(k: nat)     // receive posted, first try to send
    | Retry(k: nat)      // the first try found no room
    | Waiting(k: nat)    // sent, waiting for a completion
    | Failed(k: nat)     // the second try found no room: the call has returned without finishing

  /** `bar`: calls made; `recvs`: rounds of the receives posted and not matched, oldest first; `cq`:
      completions not read yet; `lost`: completions read and dropped while draining; `errors`:
      calls that returned after a failed send. */
  datatype Rank = Rank(pc: Pc, bar: nat, recvs: seq<nat>, cq: nat, lost: nat, errors: nat, out: seq<seq<Token>>)

  type State = seq<Rank>

  /** `full`: the send queue has no room for this try. A message of round k meets the oldest
      receive posted for its source. */
  datatype Event = Cpu(r: nat, full: bool) | Match(r: nat, k: nat)

  predicate InRound(rk: Rank) {
    rk.pc.Inject? || rk.pc.Retry? || rk.pc.Waiting? || rk.pc.Failed?
  }

  predicate Fits(c: Config, rk: Rank) {
    && |rk.out| == c.size
    && (rk.pc.AtRound? ==> rk.pc.k <= c.Rounds())
    && (InRound(rk) ==> rk.pc.k < c.Rounds())
    && forall i | 0 <= i < |rk.recvs| :: rk.recvs[i] < c.Rounds()
  }

  ghost predicate Shape(c: Config, s: State) {
    c.Valid() && |s| == c.size && forall r | 0 <= r < c.size :: Fits(c, s[r])
  }

  // ---------------------------------------------------------------- actions

  predicate CpuEnabled(c: Config, rk: Rank) {
    match rk.pc
    case Outside => rk.bar < c.calls
    case Waiting(_) => rk.cq > 0
    case Failed(_) => rk.bar < c.calls
    case _ => true
  }

  function Send(c: Config, r: nat, rk: Rank): Rank
    requires r < c.size && Fits(c, rk) && InRound(rk)
  {
    var t := SendTo(c.size, rk.pc.k, r);
    rk.(out := rk.out[t := rk.out[t] + [Token(rk.bar, rk.pc.k)]], pc := Waiting(rk.pc.k))
  }

  function CpuNext(c: Config, r: nat, rk: Rank, full: bool): Rank
    requires r < c.size && Fits(c, rk)
  {
    match rk.pc
    case Outside => rk.(pc := AtRound(0), bar := rk.bar + 1)
    case AtRound(k) => if k < c.Rounds() then rk.(recvs := rk.recvs + [k], pc := Inject(k)) else rk.(pc := Outside)
    case Inject(k) =>
      if !full then Send(c, r, rk)
      else if rk.cq > 0 then rk.(cq := rk.cq - 1, lost := rk.lost + 1, pc := Retry(k))
      else rk.(pc := Retry(k))
    case Retry(k) => if !full then Send(c, r, rk) else rk.(pc := Failed(k), errors := rk.errors + 1)
    case Waiting(k) => if rk.cq > 0 then rk.(cq := rk.cq - 1, pc := AtRound(k + 1)) else rk
    case Failed(_) => rk.(pc := AtRound(0), bar := rk.bar + 1)
  }

  /** The posted receives without the oldest one of round k. */
  function Without(recvs: seq<nat>, k: nat): (rest: seq<nat>)
    ensures |rest| == |recvs| - if k in recvs then 1 else 0
    ensures forall i | 0 <= i < |rest| :: rest[i] in recvs
  {
    if recvs == [] then [] else if recvs[0] == k then recvs[1..] else [recvs[0]] + Without(recvs[1..], k)
  }

  ghost predicate Enabled(c: Config, s: State, ev: Event)
    requires Shape(c, s)
  {
    ev.r < c.size &&
    match ev
    case Cpu(r, _) => CpuEnabled(c, s[r])
    case Match(r, k) => k < c.Rounds() && k in s[r].recvs && |s[RecvFrom(c.size, k, r)].out[r]| > 0
  }

  /** The receive takes the first message of its channel. */
  ghost function Step(c: Config, s: State, ev: Event): State
    requires Shape(c, s) && Enabled(c, s, ev)
  {
    match ev
    case Cpu(r, full) => s[r := CpuNext(c, r, s[r], full)]
    case Match(r, k) =>
      var q := RecvFrom(c.size, k, r);
      s[r := s[r].(recvs := Without(s[r].recvs, k), cq := s[r].cq + 1)]
       [q := s[q].(out := s[q].out[r := s[q].out[r][1..]])]
  }

  ghost function Init(c: Config): State {
    seq(c.size, r => Rank(Outside, 0, [], 0, 0, 0, seq(c.size, t => [])))
  }

  // ---------------------------------------------------------------- invariant

  /** Barriers whose round-k message the rank has sent. */
  function Sent(rk: Rank, k: nat): int {
    match rk.pc
    case Outside => rk.bar
    case Waiting(j) => if k <= j then rk.bar else rk.bar - 1
    case AtRound(j) => if k < j then rk.bar else rk.bar - 1
    case Inject(j) => if k < j then rk.bar else rk.bar - 1
    case Retry(j) => if k < j then rk.bar else rk.bar - 1
    case Failed(j) => if k < j then rk.bar else rk.bar - 1
  }

  /** Barriers whose round-k receive has been matched. */
  function Matched(rk: Rank, k: nat): int {
    if rk.pc.Outside? then rk.bar
    else if k < rk.pc.k || (k == rk.pc.k && InRound(rk) && rk.recvs == []) then rk.bar
    else rk.bar - 1
  }

  /** Holds as long as no rank calls again after a failed call. */
  ghost predicate RankOk(c: Config, rk: Rank) {
    && Fits(c, rk)
    && (!rk.pc.Outside? ==> rk.bar >= 1)
    && rk.bar <= c.calls
    && (!InRound(rk) ==> rk.recvs == [] && rk.cq == 0 && rk.lost == 0)
    && (InRound(rk) ==> rk.recvs == (if rk.cq + rk.lost == 0 then [rk.pc.k] else []) && rk.cq + rk.lost <= 1)
    && (rk.lost > 0 ==> !rk.pc.Inject?)
    && rk.errors == (if rk.pc.Failed? then 1 else 0)
  }

  /** The channel of round k holds, in order, the messages sent and not matched. */
  ghost predicate LinkOk(sender: Rank, receiver: Rank, out: seq<Token>, k: nat) {
    && |out| == Sent(sender, k) - Matched(receiver, k)
    && forall i | 0 <= i < |out| :: out[i] == Token(Matched(receiver, k) + 1 + i, k)
  }

  ghost predicate Inv(c: Config, s: State) {
    && Shape(c, s)
    && (forall r | 0 <= r < c.size :: RankOk(c, s[r]))
    && (forall q, k | 0 <= q < c.size && 0 <= k < c.Rounds() ::
          LinkOk(s[q], s[SendTo(c.size, k, q)], s[q].out[SendTo(c.size, k, q)], k))
  }

  lemma InitInv(c: Config)
    requires c.Valid()
    ensures Inv(c, Init(c))
  {
  }

  lemma CpuKeepsRank(c: Config, r: nat, rk: Rank, full: bool)
    requires r < c.size && RankOk(c, rk) && CpuEnabled(c, rk) && !rk.pc.Failed?
    ensures RankOk(c, CpuNext(c, r, rk, full))
  {
  }

  /** What a step of a rank does to its own channels. */
  lemma CpuSends(c: Config, r: nat, rk: Rank, full: bool, k: nat)
    requires r < c.size && RankOk(c, rk) && CpuEnabled(c, rk) && !rk.pc.Failed? && k < c.Rounds()
    ensures var rk', t := CpuNext(c, r, rk, full), SendTo(c.size, k, r);
            && |rk'.out| == c.size
            && Matched(rk', k) == Matched(rk, k)
            && ((Sent(rk', k) == Sent(rk, k) && rk'.out[t] == rk.out[t])
                || (Sent(rk', k) == Sent(rk, k) + 1 == rk.bar && rk'.out[t] == rk.out[t] + [Token(rk.bar, k)]))
  {
    if InRound(rk) && rk.pc.k < k { TargetsDistinct(c.size, rk.pc.k, k, r); }
    if InRound(rk) && k < rk.pc.k { TargetsDistinct(c.size, k, rk.pc.k, r); }
  }

  lemma CpuKeepsInv(c: Config, s: State, r: nat, full: bool)
    requires Inv(c, s) && r < c.size && CpuEnabled(c, s[r]) && !s[r].pc.Failed?
    ensures Inv(c, s[r := CpuNext(c, r, s[r], full)])
  {
    var s' := s[r := CpuNext(c, r, s[r], full)];
    CpuKeepsRank(c, r, s[r], full);
    forall q, k | 0 <= q < c.size && 0 <= k < c.Rounds()
      ensures LinkOk(s'[q], s'[SendTo(c.size, k, q)], s'[q].out[SendTo(c.size, k, q)], k)
    {
      var t := SendTo(c.size, k, q);
      assert LinkOk(s[q], s[t], s[q].out[t], k);
      CpuSends(c, r, s[r], full, k);
    }
  }

  /** A message can only meet the receive of the round its rank is in, and there is just that one. */
  lemma MatchIsCurrent(c: Config, s: State, r: nat, k: nat)
    requires Inv(c, s) && Enabled(c, s, Match(r, k))
    ensures InRound(s[r]) && s[r].pc.k == k && s[r].recvs == [k] && Without(s[r].recvs, k) == []
  {
    assert RankOk(c, s[r]);
  }

  /** The channel a message is taken from belongs to one round only. */
  lemma OneRoundAChannel(c: Config, r: nat, j: nat, q: nat, k: nat)
    requires r < c.size && j < c.Rounds() && q < c.size && k < c.Rounds()
    ensures SendTo(c.size, k, q) == r && RecvFrom(c.size, j, r) == q ==> j == k
  {
    PeersInverse(c.size, k, q);
    if j < k { TargetsDistinct(c.size, j, k, r); }
    if k < j { TargetsDistinct(c.size, k, j, r); }
  }

  lemma MatchKeepsLink(c: Config, s: State, r: nat, j: nat, q: nat, k: nat)
    requires Inv(c, s) && Enabled(c, s, Match(r, j)) && q < c.size && k < c.Rounds()
    ensures var s', t := Step(c, s, Match(r, j)), SendTo(c.size, k, q);
            |s'| == c.size && |s'[q].out| == c.size && LinkOk(s'[q], s'[t], s'[q].out[t], k)
  {
    var t := SendTo(c.size, k, q);
    MatchIsCurrent(c, s, r, j);
    assert LinkOk(s[q], s[t], s[q].out[t], k);
    PeersInverse(c.size, k, q);
    OneRoundAChannel(c, r, j, q, k);
  }

  lemma MatchKeepsInv(c: Config, s: State, r: nat, j: nat)
    requires Inv(c, s) && Enabled(c, s, Match(r, j))
    ensures Inv(c, Step(c, s, Match(r, j)))
  {
    var s' := Step(c, s, Match(r, j));
    MatchIsCurrent(c, s, r, j);
    forall q, k | 0 <= q < c.size && 0 <= k < c.Rounds()
      ensures LinkOk(s'[q], s'[SendTo(c.size, k, q)], s'[q].out[SendTo(c.size, k, q)], k)
    {
      MatchKeepsLink(c, s, r, j, q, k);
    }
  }

  // ---------------------------------------------------------------- giving up and calling again

  /** The second try of a send finds no room: the call gives up. */
  predicate GivesUp(s: State, ev: Event) {
    ev.Cpu? && ev.full && ev.r < |s| && s[ev.r].pc.Retry?
  }

  /** A rank whose last call gave up makes another call. */
  predicate Recalls(s: State, ev: Event) {
    ev.Cpu? && ev.r < |s| && s[ev.r].pc.Failed?
  }

  lemma StepKeepsInv(c: Config, s: State, ev: Event)
    requires Inv(c, s) && Enabled(c, s, ev) && !Recalls(s, ev)
    ensures Inv(c, Step(c, s, ev))
  {
    match ev
    case Cpu(r, full) => CpuKeepsInv(c, s, r, full);
    case Match(r, k) => MatchKeepsInv(c, s, r, k);
  }

  ghost function Next(c: Config, s: State, ev: Event): State {
    if Shape(c, s) && Enabled(c, s, ev) then Step(c, s, ev) else s
  }

  ghost function Run(c: Config, schedule: seq<Event>): State {
    if schedule == [] then Init(c) else Next(c, Run(c, schedule[..|schedule| - 1]), schedule[|schedule| - 1])
  }

  lemma CpuKeepsFits(c: Config, r: nat, rk: Rank, full: bool)
    requires r < c.size && Fits(c, rk)
    ensures Fits(c, CpuNext(c, r, rk, full))
  {
  }

  lemma StepKeepsShape(c: Config, s: State, ev: Event)
    requires Shape(c, s) && Enabled(c, s, ev)
    ensures Shape(c, Step(c, s, ev))
  {
    if ev.Cpu? {
      CpuKeepsFits(c, ev.r, s[ev.r], ev.full);
    } else {
      var rest := Without(s[ev.r].recvs, ev.k);
      forall i | 0 <= i < |rest| ensures rest[i] < c.Rounds() { assert rest[i] in s[ev.r].recvs; }
    }
  }

  /** Every schedule, failed calls and calls after them included, keeps the data well formed. */
  lemma {:induction false} RunShape(c: Config, schedule: seq<Event>)
    requires c.Valid()
    ensures Shape(c, Run(c, schedule))
  {
    if schedule != [] {
      RunShape(c, schedule[..|schedule| - 1]);
      var s, ev := Run(c, schedule[..|schedule| - 1]), schedule[|schedule| - 1];
      if Enabled(c, s, ev) { StepKeepsShape(c, s, ev); }
    }
  }

  ghost predicate NoGiveUp(c: Config, schedule: seq<Event>) {
    schedule == [] ||
    (var s, ev := Run(c, schedule[..|schedule| - 1]), schedule[|schedule| - 1];
     NoGiveUp(c, schedule[..|schedule| - 1]) && !GivesUp(s, ev))
  }

  ghost predicate NoRecall(c: Config, schedule: seq<Event>) {
    schedule == [] ||
    (var s, ev := Run(c, schedule[..|schedule| - 1]), schedule[|schedule| - 1];
     NoRecall(c, schedule[..|schedule| - 1]) && (Shape(c, s) && Enabled(c, s, ev) ==> !Recalls(s, ev)))
  }

  lemma {:induction false} RunInv(c: Config, schedule: seq<Event>)
    requires c.Valid() && NoRecall(c, schedule)
    ensures Inv(c, Run(c, schedule))
  {
    if schedule == [] {
      InitInv(c);
    } else {
      RunInv(c, schedule[..|schedule| - 1]);
      var s, ev := Run(c, schedule[..|schedule| - 1]), schedule[|schedule| - 1];
      if Enabled(c, s, ev) { StepKeepsInv(c, s, ev); }
    }
  }

  /** Without a give-up no call has failed, so none follows one. */
  lemma {:induction false} NoGiveUpNoRecall(c: Config, schedule: seq<Event>)
    requires c.Valid() && NoGiveUp(c, schedule)
    ensures NoRecall(c, schedule) && |Run(c, schedule)| == c.size
    ensures forall r | 0 <= r < c.size :: !Run(c, schedule)[r].pc.Failed?
  {
    RunShape(c, schedule);
    if schedule != [] {
      NoGiveUpNoRecall(c, schedule[..|schedule| - 1]);
      RunShape(c, schedule[..|schedule| - 1]);
    }
  }

  // ---------------------------------------------------------------- safety

  /** Unless some rank called again after a failed call, the message a rank takes in round k of its
      b-th barrier is its sender's round-k message of barrier b. */
  lemma MatchTakesOwnMessage(c: Config, schedule: seq<Event>, r: nat, k: nat)
    requires c.Valid() && NoRecall(c, schedule)
    requires Shape(c, Run(c, schedule)) && Enabled(c, Run(c, schedule), Match(r, k))
    ensures var s := Run(c, schedule);
            s[RecvFrom(c.size, k, r)].out[r][0] == Token(s[r].bar, k)
  {
    RunInv(c, schedule);
    var s := Run(c, schedule);
    var q := RecvFrom(c.size, k, r);
    MatchIsCurrent(c, s, r, k);
    assert LinkOk(s[q], s[r], s[q].out[r], k);
  }

  function Position(c: Config, rk: Rank): Pos {
    Pos(rk.bar, if rk.pc.Outside? then c.Rounds() else rk.pc.k)
  }

  ghost function Positions(c: Config, s: State): seq<Pos> {
    seq(|s|, r requires 0 <= r < |s| => Position(c, s[r]))
  }

  lemma MessagesAreCausal(c: Config, s: State)
    requires Inv(c, s)
    ensures Causal(c.size, Positions(c, s))
  {
    var pos := Positions(c, s);
    forall r, e: nat, k | 0 <= r < c.size && 1 <= k <= c.Rounds()
      ensures CausalAt(c.size, pos, r, e, k)
    {
      var q := RecvFrom(c.size, k - 1, r);
      assert LinkOk(s[q], s[r], s[q].out[r], k - 1);
      assert RankOk(c, s[q]) && RankOk(c, s[r]);
    }
  }

  function Left(rk: Rank): int {
    if rk.pc.Outside? then rk.bar else rk.bar - 1
  }

  lemma NoEarlyLeave(c: Config, s: State, r: nat, e: nat)
    requires Inv(c, s) && r < c.size && Reached(Position(c, s[r]), e, c.Rounds())
    ensures forall q | 0 <= q < c.size :: s[q].bar >= e
  {
    MessagesAreCausal(c, s);
    AllHaveEntered(c.size, Positions(c, s), e, r);
    forall q | 0 <= q < c.size ensures s[q].bar >= e {
      assert Reached(Positions(c, s)[q], e, 0);
    }
  }

  /** Unless some rank called again after a failed call, a call that returns without a send error returns
      only after every rank has made its call. */
  lemma BarrierSafety(c: Config, schedule: seq<Event>, r: nat, e: nat)
    requires c.Valid() && NoRecall(c, schedule)
    ensures var s := Run(c, schedule);
            |s| == c.size && (r < c.size && Left(s[r]) >= e ==> forall q | 0 <= q < c.size :: s[q].bar >= e)
  {
    RunInv(c, schedule);
    var s := Run(c, schedule);
    if r < c.size && Left(s[r]) >= e { NoEarlyLeave(c, s, r, e); }
  }

  /** A call that fails in round k still tells its rank that the ranks less than 2^k behind have made
      theirs. */
  lemma FailedCallGuarantee(c: Config, schedule: seq<Event>, r: nat, d: nat)
    requires c.Valid() && NoRecall(c, schedule) && r < c.size && d < c.size
    ensures |Run(c, schedule)| == c.size
    ensures var s := Run(c, schedule);
            s[r].pc.Failed? && d < Pow2(s[r].pc.k) ==> s[Behind(c.size, r, d)].bar >= s[r].bar
  {
    RunInv(c, schedule);
    var s := Run(c, schedule);
    if s[r].pc.Failed? && d < Pow2(s[r].pc.k) {
      MessagesAreCausal(c, s);
      assert RankOk(c, s[r]);
      assert Reached(Positions(c, s)[r], s[r].bar, s[r].pc.k);
      HeardHaveEntered(c.size, Positions(c, s), s[r].bar, s[r].pc.k, r);
      HeardIsWindow(c.size, s[r].pc.k, r, d);
      assert Reached(Positions(c, s)[Behind(c.size, r, d)], s[r].bar, 0);
    }
  }

  ghost function Abs(c: Config, s: State): A.Barrier
    requires Inv(c, s)
  {
    A.Barrier(seq(c.size, r requires 0 <= r < c.size => s[r].bar),
              seq(c.size, r requires 0 <= r < c.size => (assert RankOk(c, s[r]); Left(s[r]) as nat)))
  }

  lemma CpuRefines(c: Config, s: State, r: nat, full: bool)
    requires Inv(c, s) && r < c.size && CpuEnabled(c, s[r]) && !s[r].pc.Failed?
    requires Inv(c, s[r := CpuNext(c, r, s[r], full)])
    ensures A.Move(c.size, Abs(c, s), Abs(c, s[r := CpuNext(c, r, s[r], full)]), r)
  {
    var b, b' := Abs(c, s), Abs(c, s[r := CpuNext(c, r, s[r], full)]);
    assert RankOk(c, s[r]);
    if s[r].pc.Outside? {
      assert b' == b.(entered := b.entered[r := b.entered[r] + 1]);
    } else if s[r].pc == AtRound(c.Rounds()) {
      NoEarlyLeave(c, s, r, s[r].bar);
      assert b' == b.(left := b.left[r := b.left[r] + 1]);
    } else {
      assert b' == b;
    }
  }

  /** Every action but a call after a failed call is an abstract move of its rank, or invisible. */
  lemma StepRefines(c: Config, s: State, ev: Event)
    requires Inv(c, s) && Enabled(c, s, ev) && !Recalls(s, ev)
    ensures Inv(c, Step(c, s, ev))
    ensures A.Move(c.size, Abs(c, s), Abs(c, Step(c, s, ev)), ev.r)
  {
    StepKeepsInv(c, s, ev);
    match ev
    case Cpu(r, full) => CpuRefines(c, s, r, full);
    case Match(r, k) => assert Abs(c, Step(c, s, ev)) == Abs(c, s);
  }
}
