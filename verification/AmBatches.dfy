/** The batch loop that keeps the active-message ring from being overrun, and what happens without it. */
module AmBatches {
  import opened Arithmetic
  import opened Dissemination
  import opened BitMask
  import opened AmRing

  const MAX_RETRIES := 1000

  /** One sender, one receiver, batches of `size` messages. */
  datatype Job = Job(nslots: nat, pool: nat, size: nat, messages: seq<Words>) {
    function Ring(): Config { Config(1, nslots, pool) }
    ghost predicate Valid() { Ring().Valid() && 1 <= size <= nslots && size <= pool }
  }

  /** `Sending` and `Waiting` run on the sender, `Polling` on the receiver between the two barriers:
      `k` messages of the batch processed so far, `inCall` of them in the current kernel call. */
  datatype Phase =
    | Sending(i: nat)
    | Waiting
    | Polling(k: nat, inCall: nat, retries: nat)
    | Failed
    | Finished

  datatype State = State(node: Node, batch: nat, phase: Phase)

  /** A step of the program, or one of the network. */
  datatype Event = Main | Net(ev: AmRing.Event)

  function Start(j: Job, batch: nat): nat { Times(batch, j.size) }

  function BatchMsgs(j: Job, batch: nat): nat {
    var remaining: int := |j.messages| - Start(j, batch);
    if remaining < 0 then 0 else if remaining < j.size then remaining else j.size
  }

  function FirstPhase(j: Job, batch: nat): Phase {
    if Start(j, batch) < |j.messages| then Sending(0) else Finished
  }

  /** The loop bound: the number of batches, rounded up. */
  function Batches(j: Job): nat
    requires j.size >= 1
  {
    (|j.messages| + j.size - 1) / j.size
  }

  /** It is the same test. */
  lemma BatchCount(j: Job, batch: nat)
    requires j.size >= 1
    ensures Start(j, batch) < |j.messages| <==> batch < Batches(j)
  {
    var n := Batches(j);
    TimesIsProduct(batch, j.size);
    assert |j.messages| + j.size - 1 == n * j.size + (|j.messages| + j.size - 1) % j.size;
    if batch < n {
      MulMonotone(batch + 1, n, j.size);
      MulDistributes(batch, 1, j.size);
    } else {
      MulMonotone(n, batch, j.size);
    }
  }

  predicate IsNet(ev: AmRing.Event) { ev.Word? || ev.BodyDone? || ev.ReleaseDone? }

  ghost function MainNext(j: Job, s: State): State
    requires Shape(j.Ring(), s.node)
  {
    var c, msgs := j.Ring(), BatchMsgs(j, s.batch);
    match s.phase
    case Sending(i) =>
      if i < msgs then
        if Start(j, s.batch) + i < |j.messages| && Enabled(c, s.node, Send(0, j.messages[Start(j, s.batch) + i])) then
          s.(node := Step(c, s.node, Send(0, j.messages[Start(j, s.batch) + i])), phase := Sending(i + 1))
        else s.(phase := Failed)
      else if s.node.pending == 0 then s.(phase := Polling(0, 0, MAX_RETRIES))
      else s.(node := Next(c, s.node, StartWait), phase := Waiting)
    case Waiting =>
      if s.node.waiting then s.(node := Next(c, s.node, TakeCompletion))
      else s.(phase := Polling(0, 0, MAX_RETRIES))
    case Polling(k, inCall, retries) =>
      if s.node.channels[0].handling then
        s.(node := Next(c, s.node, Handle(0)), phase := Polling(k + 1, inCall + 1, retries))
      else if (k < msgs && retries > 0) || inCall > 0 then
        if inCall < msgs && MessageThere(c, s.node.channels[0]) then s.(node := Next(c, s.node, Poll(0)))
        else s.(phase := Polling(k, 0, if inCall > 0 then retries else retries - 1))
      else s.(batch := s.batch + 1, phase := FirstPhase(j, s.batch + 1))
    case _ => s
  }

  ghost function NextState(j: Job, s: State, ev: Event): State {
    if !Shape(j.Ring(), s.node) then s
    else if ev.Main? then MainNext(j, s)
    else if IsNet(ev.ev) then s.(node := Next(j.Ring(), s.node, ev.ev)) else s
  }

  ghost function RunJob(j: Job, schedule: seq<Event>): State {
    if schedule == [] then State(Init(j.Ring()), 0, FirstPhase(j, 0))
    else NextState(j, RunJob(j, schedule[..|schedule| - 1]), schedule[|schedule| - 1])
  }

  // ---------------------------------------------------------------- invariant

  ghost predicate PhaseOk(j: Job, s: State)
    requires j.Valid() && Shape(j.Ring(), s.node)
  {
    var ch, start, msgs := s.node.channels[0], Start(j, s.batch), BatchMsgs(j, s.batch);
    && |ch.sent| <= |j.messages| && ch.sent == j.messages[..|ch.sent|]
    && (s.phase.Finished? || start < |j.messages|)
    && match s.phase
       case Sending(i) =>
         && i <= msgs && |ch.sent| == start + i && |ch.consumed| == start && !ch.handling
         && !s.node.waiting && s.node.stagingIdx == i
       case Waiting =>
         && |ch.sent| == start + msgs && |ch.consumed| == start && !ch.handling
         && (!s.node.waiting ==> !Executing(ch) && s.node.stagingIdx == 0)
       case Polling(k, inCall, retries) =>
         && |ch.sent| == start + msgs && |ch.consumed| == start + k && !Executing(ch)
         && !s.node.waiting && s.node.stagingIdx == 0 && retries == MAX_RETRIES
         && (inCall == k || (inCall == 0 && k == msgs)) && (ch.handling ==> inCall < msgs)
       case Failed => false
       case Finished =>
         && |ch.sent| == |ch.consumed| == |j.messages| && !ch.handling && !Executing(ch)
         && s.node.stagingIdx == 0 && !s.node.waiting && s.batch == Batches(j)
  }

  ghost predicate JobInv(j: Job, s: State) {
    j.Valid() && Inv(j.Ring(), s.node) && PhaseOk(j, s)
  }

  /** What a network step leaves alone. */
  lemma NetTouches(c: Config, s: Node, ev: AmRing.Event)
    requires Shape(c, s) && c.peers == 1 && IsNet(ev) && Enabled(c, s, ev)
    ensures var s', ch, ch' := Step(c, s, ev), s.channels[0], Step(c, s, ev).channels[0];
            && Executing(ch) && ch'.sent == ch.sent && ch'.consumed == ch.consumed && ch'.handling == ch.handling
            && s'.waiting == s.waiting && s'.stagingIdx == s.stagingIdx
  {
  }

  lemma NetKeepsJob(j: Job, s: State, ev: AmRing.Event)
    requires JobInv(j, s) && IsNet(ev) && Enabled(j.Ring(), s.node, ev)
    ensures JobInv(j, s.(node := Step(j.Ring(), s.node, ev)))
  {
    StepKeepsInv(j.Ring(), s.node, ev);
    NetTouches(j.Ring(), s.node, ev);
  }

  /** The next send of a batch finds a free staging slot and an open window. */
  lemma SendIsPossible(j: Job, s: State)
    requires JobInv(j, s) && s.phase.Sending? && s.phase.i < BatchMsgs(j, s.batch)
    ensures Start(j, s.batch) + s.phase.i < |j.messages|
    ensures var ev := Send(0, j.messages[Start(j, s.batch) + s.phase.i]);
            Enabled(j.Ring(), s.node, ev) && WindowOpen(j.Ring(), s.node, ev)
  {
    assert ChannelOk(j.Ring(), s.node.channels[0], s.node.staging, s.node.stagingIdx);
  }

  lemma SendKeepsJob(j: Job, s: State)
    requires JobInv(j, s) && s.phase.Sending? && s.phase.i < BatchMsgs(j, s.batch)
    ensures JobInv(j, MainNext(j, s))
  {
    SendIsPossible(j, s);
    var at := Start(j, s.batch) + s.phase.i;
    SendKeepsInv(j.Ring(), s.node, 0, j.messages[at]);
    assert j.messages[..at + 1] == j.messages[..at] + [j.messages[at]];
  }

  lemma SendingKeepsJob(j: Job, s: State)
    requires JobInv(j, s) && s.phase.Sending?
    ensures JobInv(j, MainNext(j, s))
  {
    if s.phase.i < BatchMsgs(j, s.batch) { SendKeepsJob(j, s); } else { StartKeepsInv(j.Ring(), s.node); }
  }

  lemma WaitingKeepsJob(j: Job, s: State)
    requires JobInv(j, s) && s.phase.Waiting?
    ensures JobInv(j, MainNext(j, s))
  {
    if s.node.waiting && s.node.cq > 0 { CompletionKeepsInv(j.Ring(), s.node); }
  }

  /** In the polling phase every message of the batch is already there: no poll comes up empty. */
  lemma PollNeverMisses(j: Job, s: State)
    requires JobInv(j, s) && s.phase.Polling? && s.phase.k < BatchMsgs(j, s.batch)
    ensures MessageThere(j.Ring(), s.node.channels[0])
  {
    var ch := s.node.channels[0];
    assert ChannelOk(j.Ring(), ch, s.node.staging, s.node.stagingIdx);
    PollSeesNextMessage(j.Ring(), ch, s.node.staging, s.node.stagingIdx);
  }

  lemma HandlingKeepsJob(j: Job, s: State)
    requires JobInv(j, s) && s.phase.Polling? && s.node.channels[0].handling
    ensures JobInv(j, MainNext(j, s))
  {
    assert ChannelOk(j.Ring(), s.node.channels[0], s.node.staging, s.node.stagingIdx);
    ReceiverKeepsInv(j.Ring(), s.node, Handle(0));
  }

  /** The step after the last poll of a batch. */
  lemma NextBatchKeepsJob(j: Job, s: State)
    requires JobInv(j, s) && s.phase.Polling? && s.phase.k == BatchMsgs(j, s.batch) && s.phase.inCall == 0
    requires !s.node.channels[0].handling
    ensures JobInv(j, s.(batch := s.batch + 1, phase := FirstPhase(j, s.batch + 1)))
  {
    BatchCount(j, s.batch);
    BatchCount(j, s.batch + 1);
  }

  lemma LookingKeepsJob(j: Job, s: State)
    requires JobInv(j, s) && s.phase.Polling? && !s.node.channels[0].handling
    ensures JobInv(j, MainNext(j, s))
  {
    var c, ch := j.Ring(), s.node.channels[0];
    assert ChannelOk(c, ch, s.node.staging, s.node.stagingIdx);
    PollSeesNextMessage(c, ch, s.node.staging, s.node.stagingIdx);
    if MessageThere(c, ch) { TakingKeepsJob(j, s); }
    else if s.phase.inCall == 0 { NextBatchKeepsJob(j, s); }
  }

  lemma TakingKeepsJob(j: Job, s: State)
    requires JobInv(j, s) && s.phase.Polling? && !s.node.channels[0].handling
    requires MessageThere(j.Ring(), s.node.channels[0]) && s.phase.k < BatchMsgs(j, s.batch)
    ensures JobInv(j, MainNext(j, s))
  {
    ReceiverKeepsInv(j.Ring(), s.node, Poll(0));
  }

  lemma PollingKeepsJob(j: Job, s: State)
    requires JobInv(j, s) && s.phase.Polling?
    ensures JobInv(j, MainNext(j, s))
  {
    if s.node.channels[0].handling { HandlingKeepsJob(j, s); } else { LookingKeepsJob(j, s); }
  }

  lemma {:induction false} RunJobInv(j: Job, schedule: seq<Event>)
    requires j.Valid()
    ensures JobInv(j, RunJob(j, schedule))
  {
    if schedule == [] {
      InitInv(j.Ring());
      BatchCount(j, 0);
    } else {
      RunJobInv(j, schedule[..|schedule| - 1]);
      var s, ev := RunJob(j, schedule[..|schedule| - 1]), schedule[|schedule| - 1];
      if ev.Main? {
        match s.phase
        case Sending(_) => SendingKeepsJob(j, s);
        case Waiting => WaitingKeepsJob(j, s);
        case Polling(_, _, _) => PollingKeepsJob(j, s);
        case _ =>
      } else if IsNet(ev.ev) && Enabled(j.Ring(), s.node, ev.ev) {
        NetKeepsJob(j, s, ev.ev);
      }
    }
  }

  // ---------------------------------------------------------------- theorems

  /** For any number of messages and any network timing, with batches no larger than the staging pool
      and the ring: no send is refused, no poll retries, what has been processed is a prefix of the
      messages, and at the end it is all of them. */
  lemma BatchLoopDelivers(j: Job, schedule: seq<Event>)
    requires j.Valid()
    ensures var s := RunJob(j, schedule);
            && !s.phase.Failed? && |s.node.channels| == 1
            && (s.phase.Polling? ==> s.phase.retries == MAX_RETRIES)
            && |s.node.channels[0].consumed| <= |j.messages|
            && s.node.channels[0].consumed == j.messages[..|s.node.channels[0].consumed|]
            && (s.phase.Finished? ==> s.node.channels[0].consumed == j.messages)
  {
    RunJobInv(j, schedule);
    var s := RunJob(j, schedule);
    assert ChannelOk(j.Ring(), s.node.channels[0], s.node.staging, s.node.stagingIdx);
    assert j.messages[..|j.messages|] == j.messages;
  }

  /** While the sender waits and no completion is there, the network has something to do. */
  lemma NetworkCanMove(j: Job, s: State) returns (ev: AmRing.Event)
    requires JobInv(j, s) && s.phase.Waiting? && s.node.waiting && s.node.cq == 0
    ensures IsNet(ev) && Enabled(j.Ring(), s.node, ev)
  {
    var c, node, ch := j.Ring(), s.node, s.node.channels[0];
    assert ChannelOk(c, ch, node.staging, node.stagingIdx);
    assert TotalUndelivered(node.channels) == Undelivered(ch) by { assert node.channels[..0] == []; }
    CurrentOp(c, ch, node.staging, node.stagingIdx);
    if ch.log[ch.cursor].Release? { ev := ReleaseDone(0); }
    else if w :| 0 <= w < WORDS && w !in ch.got { ev := Word(0, w); }
    else { ev := BodyDone(0); }
  }

  lemma NetworkChanges(j: Job, s: State, ev: AmRing.Event)
    requires Shape(j.Ring(), s.node) && IsNet(ev) && Enabled(j.Ring(), s.node, ev)
    ensures NextState(j, s, Net(ev)) != s
  {
    assert Step(j.Ring(), s.node, ev).channels[ev.p] != s.node.channels[ev.p];
  }

  lemma MainChanges(j: Job, s: State)
    requires JobInv(j, s) && !s.phase.Finished? && !(s.phase.Waiting? && s.node.waiting && s.node.cq == 0)
    ensures MainNext(j, s) != s
  {
    if s.phase.Polling? {
      assert ChannelOk(j.Ring(), s.node.channels[0], s.node.staging, s.node.stagingIdx);
      if s.phase.k < BatchMsgs(j, s.batch) { PollNeverMisses(j, s); }
    }
  }

  /** Until it has finished, the job can move: some step of the program or the network changes it. */
  lemma JobNeverSticks(j: Job, schedule: seq<Event>) returns (ev: Event)
    requires j.Valid() && !RunJob(j, schedule).phase.Finished?
    ensures NextState(j, RunJob(j, schedule), ev) != RunJob(j, schedule)
  {
    RunJobInv(j, schedule);
    var s := RunJob(j, schedule);
    if s.phase.Waiting? && s.node.waiting && s.node.cq == 0 {
      var net := NetworkCanMove(j, s);
      NetworkChanges(j, s, net);
      ev := Net(net);
    } else {
      MainChanges(j, s);
      ev := Main;
    }
  }
}
