/** Progress of the batch loop: every step that changes anything uses up one unit of a fixed amount of
    work, and the loop has finished exactly when all of it is done. */
module AmProgress {
  import opened Arithmetic
  import Sums
  import opened AmRing
  import opened AmBatches

  /** Network actions on a channel: the words of a body, its end, and the release. */
  function NetWork(ch: Channel): int {
    (WORDS + 2) * (ch.cursor / 2) + if ch.cursor % 2 == 0 then |ch.got| else WORDS + 1
  }

  /** Completions taken from the queue so far. */
  function Taken(node: Node): int
    requires |node.channels| == 1
  {
    node.channels[0].cursor / 2 - node.cq
  }

  /** Steps of a batch beside those on its messages: starting to wait, the end of the wait, the end of
      the polling call, and the next batch. */
  function PhaseWork(s: State): int
    requires |s.node.channels| == 1
  {
    match s.phase
    case Waiting => 1
    case Polling(k, inCall, _) => if k > 0 && inCall == 0 && !s.node.channels[0].handling then 3 else 2
    case _ => 0
  }

  /** Sends, completions, polls and handled messages, network actions, and the steps of the batches. */
  function Work(s: State): int
    requires |s.node.channels| == 1
  {
    var ch := s.node.channels[0];
    var received := 2 * |ch.consumed| + if ch.handling then 1 else 0;
    |ch.sent| + Taken(s.node) + received + NetWork(ch) + 4 * s.batch + PhaseWork(s)
  }

  /** Thirteen steps a message and four a batch. */
  function TotalWork(j: Job): nat
    requires j.size >= 1
  {
    (WORDS + 6) * |j.messages| + 4 * Batches(j)
  }

  // ---------------------------------------------------------------- every step

  lemma FullBody(got: set<nat>)
    requires (forall w | w in got :: w < WORDS) && forall w | 0 <= w < WORDS :: w in got
    ensures |got| == WORDS
  {
    assert got == {0, 1, 2, 3, 4, 5, 6};
  }

  /** A network action moves its channel on by one. */
  lemma ChannelWorks(c: Config, ch: Channel, staging: seq<Slot>, used: nat, ev: AmRing.Event) returns (ch': Channel)
    requires c.Valid() && |staging| == c.pool && ChannelOk(c, ch, staging, used) && Executing(ch)
    requires OpFits(c, ch.log[ch.cursor]) && IsNet(ev)
    requires ev.Word? ==> ch.log[ch.cursor].Body? && ev.w < WORDS && ev.w !in ch.got
    requires ev.BodyDone? ==> ch.log[ch.cursor].Body? && forall w | 0 <= w < WORDS :: w in ch.got
    requires ev.ReleaseDone? ==> ch.log[ch.cursor].Release?
    ensures ch' == if ev.Word? then WordLanded(c, ch, staging, ev.w)
                   else if ev.BodyDone? then ch.(cursor := ch.cursor + 1, got := {}) else ReleaseLanded(c, ch, staging)
    ensures NetWork(ch') == NetWork(ch) + 1 && ch'.cursor / 2 == ch.cursor / 2 + if ev.ReleaseDone? then 1 else 0
    ensures ch'.sent == ch.sent && ch'.consumed == ch.consumed && ch'.handling == ch.handling
  {
    CurrentOp(c, ch, staging, used);
    if ev.BodyDone? { FullBody(ch.got); }
    ch' := if ev.Word? then WordLanded(c, ch, staging, ev.w)
           else if ev.BodyDone? then ch.(cursor := ch.cursor + 1, got := {}) else ReleaseLanded(c, ch, staging);
  }

  lemma NetWorks(j: Job, s: State, ev: AmRing.Event)
    requires JobInv(j, s) && IsNet(ev) && Enabled(j.Ring(), s.node, ev)
    ensures var s' := s.(node := Step(j.Ring(), s.node, ev)); |s'.node.channels| == 1 && Work(s') == Work(s) + 1
  {
    var c, ch := j.Ring(), s.node.channels[0];
    assert ChannelOk(c, ch, s.node.staging, s.node.stagingIdx);
    var ch' := ChannelWorks(c, ch, s.node.staging, s.node.stagingIdx, ev);
    var node := Step(c, s.node, ev);
    assert node.channels[0] == ch' && node.cq == s.node.cq + if ev.ReleaseDone? then 1 else 0;
  }

  lemma SendingWorks(j: Job, s: State)
    requires JobInv(j, s) && s.phase.Sending?
    ensures |MainNext(j, s).node.channels| == 1 && Work(MainNext(j, s)) == Work(s) + 1
  {
    if s.phase.i < BatchMsgs(j, s.batch) { SendIsPossible(j, s); }
  }

  lemma WaitingWorks(j: Job, s: State)
    requires JobInv(j, s) && s.phase.Waiting? && !(s.node.waiting && s.node.cq == 0)
    ensures |MainNext(j, s).node.channels| == 1 && Work(MainNext(j, s)) == Work(s) + 1
  {
  }

  lemma PollingWorks(j: Job, s: State)
    requires JobInv(j, s) && s.phase.Polling?
    ensures |MainNext(j, s).node.channels| == 1 && Work(MainNext(j, s)) == Work(s) + 1
  {
    var c, ch := j.Ring(), s.node.channels[0];
    assert ChannelOk(c, ch, s.node.staging, s.node.stagingIdx);
    PollSeesNextMessage(c, ch, s.node.staging, s.node.stagingIdx);
    if s.phase.k < BatchMsgs(j, s.batch) { PollNeverMisses(j, s); }
  }

  /** The step the program is waiting for is not there: no completion to take, or nothing left to do. */
  predicate MainIdle(s: State) { s.phase.Finished? || (s.phase.Waiting? && s.node.waiting && s.node.cq == 0) }

  lemma MainWorks(j: Job, s: State)
    requires JobInv(j, s)
    ensures |MainNext(j, s).node.channels| == 1
    ensures Work(MainNext(j, s)) == Work(s) + if MainIdle(s) then 0 else 1
    ensures MainIdle(s) ==> MainNext(j, s) == s
  {
    match s.phase
    case Sending(_) => SendingWorks(j, s);
    case Waiting => if !MainIdle(s) { WaitingWorks(j, s); }
    case Polling(_, _, _) => PollingWorks(j, s);
    case _ =>
  }

  /** Every event that changes anything is one unit of work. */
  lemma StepWorks(j: Job, s: State, ev: AmBatches.Event)
    requires JobInv(j, s)
    ensures var s' := NextState(j, s, ev);
            |s'.node.channels| == 1 && Work(s') == Work(s) + if s' == s then 0 else 1
  {
    if ev.Main? { MainWorks(j, s); }
    else if IsNet(ev.ev) && Enabled(j.Ring(), s.node, ev.ev) { NetWorks(j, s, ev.ev); }
  }

  // ---------------------------------------------------------------- whole runs

  lemma WorkBounded(j: Job, s: State)
    requires JobInv(j, s)
    ensures |s.node.channels| == 1 && Work(s) <= TotalWork(j)
    ensures s.phase.Finished? ==> Work(s) == TotalWork(j)
  {
    var c, ch := j.Ring(), s.node.channels[0];
    assert ChannelOk(c, ch, s.node.staging, s.node.stagingIdx);
    BatchCount(j, s.batch);
    NetBounded(c, ch, s.node.staging, s.node.stagingIdx);
    assert TotalUndelivered(s.node.channels) == Undelivered(ch) by { assert s.node.channels[..0] == []; }
  }

  lemma NetBounded(c: Config, ch: Channel, staging: seq<Slot>, used: nat)
    requires c.Valid() && |staging| == c.pool && ChannelOk(c, ch, staging, used)
    ensures NetWork(ch) <= (WORDS + 2) * |ch.sent|
    ensures !Executing(ch) ==> NetWork(ch) == (WORDS + 2) * |ch.sent|
  {
    FewWords(ch.got);
    if Executing(ch) { CurrentOp(c, ch, staging, used); } else { assert ch.got == {}; }
  }

  lemma FewWords(got: set<nat>)
    requires forall w | w in got :: w < WORDS
    ensures |got| <= WORDS
  {
    assert got <= {0, 1, 2, 3, 4, 5, 6};
    Sums.SubsetSize(got, {0, 1, 2, 3, 4, 5, 6});
  }

  /** How many events of a schedule change anything. */
  ghost function Effective(j: Job, schedule: seq<AmBatches.Event>): nat {
    if schedule == [] then 0
    else
      var s := RunJob(j, schedule[..|schedule| - 1]);
      Effective(j, schedule[..|schedule| - 1]) + if NextState(j, s, schedule[|schedule| - 1]) == s then 0 else 1
  }

  lemma {:induction false} WorkIsEffective(j: Job, schedule: seq<AmBatches.Event>)
    requires j.Valid()
    ensures |RunJob(j, schedule).node.channels| == 1 && Work(RunJob(j, schedule)) == Effective(j, schedule)
  {
    if schedule != [] {
      WorkIsEffective(j, schedule[..|schedule| - 1]);
      RunJobInv(j, schedule[..|schedule| - 1]);
      StepWorks(j, RunJob(j, schedule[..|schedule| - 1]), schedule[|schedule| - 1]);
    }
  }

  /** No run of the loop has more than thirteen effective steps a message and four a batch, and it has
      finished exactly when it has made them all. */
  lemma JobCompletes(j: Job, schedule: seq<AmBatches.Event>)
    requires j.Valid()
    ensures Effective(j, schedule) <= TotalWork(j)
    ensures Effective(j, schedule) == TotalWork(j) <==> RunJob(j, schedule).phase.Finished?
  {
    var s := RunJob(j, schedule);
    RunJobInv(j, schedule);
    WorkIsEffective(j, schedule);
    WorkBounded(j, s);
    if !s.phase.Finished? {
      var ev := JobNeverSticks(j, schedule);
      var longer := schedule + [ev];
      assert longer[..|longer| - 1] == schedule;
      RunJobInv(j, longer);
      StepWorks(j, s, ev);
      WorkBounded(j, RunJob(j, longer));
    }
  }
}
