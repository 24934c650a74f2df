/** The two ends of the active-message ring as objects updated in place. */
module AmEndpoint {
  import opened Sums
  import opened Schedules
  import opened BitMask
  import opened AmRing

  // ---------------------------------------------------------------- completion counting

  datatype PollResult = Empty | Success | Error

  datatype WaitResult = Done(used: nat) | Broken(used: nat) | StillWaiting

  function Successes(polls: seq<PollResult>): nat {
    if polls == [] then 0
    else Successes(polls[..|polls| - 1]) + if polls[|polls| - 1].Success? then 1 else 0
  }

  /** The completion loop over what successive queue polls return: it ends at the poll that brings the
      count-th success, or at an error before that. */
  method Wait(count: nat, polls: seq<PollResult>) returns (r: WaitResult)
    ensures r.Done? ==>
              && r.used <= |polls| && Successes(polls[..r.used]) == count && Error !in polls[..r.used]
              && (r.used > 0 ==> polls[r.used - 1].Success?)
    ensures r.Broken? ==>
              && 1 <= r.used <= |polls| && polls[r.used - 1].Error? && Error !in polls[..r.used - 1]
              && Successes(polls[..r.used]) < count
    ensures r.StillWaiting? ==> Error !in polls && Successes(polls) < count
  {
    var completed, used := 0, 0;
    while completed < count
      invariant used <= |polls| && completed == Successes(polls[..used]) <= count && Error !in polls[..used]
      invariant used > 0 && completed == count ==> polls[used - 1].Success?
      decreases |polls| - used
    {
      if used == |polls| {
        assert polls[..used] == polls;
        return StillWaiting;
      }
      assert polls[..used + 1][..used] == polls[..used];
      used := used + 1;
      match polls[used - 1] {
        case Error => return Broken(used);
        case Success => completed := completed + 1;
        case Empty =>
      }
    }
    return Done(used);
  }

  // ---------------------------------------------------------------- sender

  class Sender {
    const c: Config
    const heads: array<nat>
    const logs: array<seq<Op>>
    const staging: array<Slot>
    var stagingIdx: nat
    var pending: nat
    ghost var node: Node

    ghost predicate Valid()
      reads this, heads, logs, staging
    {
      && Shape(c, node) && node.waiting == false && node.stagingIdx == stagingIdx && node.pending == pending
      && heads.Length == logs.Length == c.peers && staging.Length == c.pool && staging[..] == node.staging
      && forall p | 0 <= p < c.peers :: node.channels[p].head == heads[p] && node.channels[p].log == logs[p]
    }

    constructor (c: Config)
      requires c.nslots >= 1
      ensures Valid() && fresh(heads) && fresh(logs) && fresh(staging) && this.c == c && node == Init(c)
    {
      this.c := c;
      heads := new nat[c.peers](_ => 1);
      logs := new seq<Op>[c.peers](_ => []);
      var zero := Slot(0, [0, 0, 0, 0, 0, 0, 0]);
      staging := new Slot[c.pool](_ => zero);
      stagingIdx, pending := 0, 0;
      node := Init(c);
      new;
      assert staging[..] == node.staging;
    }

    /** Stages and posts one message, or refuses when the pool is used up. */
    method SendHandle(dest: nat, words: Words) returns (status: int)
      requires Valid() && dest < c.peers
      modifies this`stagingIdx, this`pending, this`node, heads, logs, staging
      ensures Valid()
      ensures old(stagingIdx) >= c.pool ==> status == -1 && node == old(node)
      ensures old(stagingIdx) < c.pool ==>
                status == 0 && Enabled(c, old(node), Send(dest, words)) && node == Step(c, old(node), Send(dest, words))
    {
      if stagingIdx >= c.pool { return -1; }
      var stage := stagingIdx;
      stagingIdx := stagingIdx + 1;
      var seqNo := heads[dest];
      heads[dest] := heads[dest] + 1;
      staging[stage] := Slot(seqNo, words);
      var slot := SlotOf(seqNo, c.nslots);
      logs[dest] := logs[dest] + [Body(slot, stage)];
      logs[dest] := logs[dest] + [Release(slot, stage)];
      pending := pending + 1;
      ghost var ch := node.channels[dest];
      node := Step(c, node, Send(dest, words));
      assert node.channels[dest].log == (ch.log + [Body(slot, stage)]) + [Release(slot, stage)];
      assert staging[..] == node.staging;
      return 0;
    }

    /** Waits for every posted message and frees the staging pool. `polls` is what the completion queue
        answers, `net` what the network and the receivers do before each poll. The loop spins until the
        completions are in; an error in one of them ends the process. */
    method TriggerAndWait(polls: seq<PollResult>, ghost net: seq<seq<Event>>) returns (r: WaitResult)
      requires Valid() && |net| == |polls| && (Successes(polls) >= pending || Error in polls)
      requires pending > 0 ==> Honest(c, Step(c, node, StartWait), polls, net)
      modifies this`stagingIdx, this`pending, this`node
      ensures Valid() && (r.Done? || r.Broken?)
      ensures Error !in polls || old(pending) == 0 ==> r.Done?
      ensures old(pending) == 0 ==> r == Done(0) && node == old(node)
      ensures r.Done? && old(pending) > 0 ==>
                && stagingIdx == pending == 0
                && 1 <= r.used <= |polls| && polls[r.used - 1].Success? && Error !in polls[..r.used]
                && Successes(polls[..r.used]) == old(pending)
                && node == WaitRun(c, Step(c, old(node), StartWait), polls, net, r.used)
      ensures r.Broken? ==>
                && 1 <= r.used <= |polls| && polls[r.used - 1].Error? && Error !in polls[..r.used - 1]
                && Successes(polls[..r.used]) < old(pending) && node == old(node)
    {
      if pending == 0 { return Done(0); }
      r := Wait(pending, polls);
      if r.Done? {
        ghost var start := Step(c, node, StartWait);
        WaitRunEnds(c, start, polls, net, r.used);
        node := WaitRun(c, start, polls, net, r.used);
        stagingIdx := 0;
        pending := 0;
      }
    }
  }

  // ---------------------------------------------------------------- waiting, in the state machine

  /** Of `evs`, what is not the sender's. */
  function Others(evs: seq<Event>): seq<Event> {
    if evs == [] then []
    else Others(evs[..|evs| - 1]) + if IsOther(evs[|evs| - 1]) then [evs[|evs| - 1]] else []
  }

  lemma {:induction false} NothingDropped(evs: seq<Event>)
    requires forall i | 0 <= i < |evs| :: IsOther(evs[i])
    ensures Others(evs) == evs
  {
    if evs != [] { NothingDropped(evs[..|evs| - 1]); }
  }

  /** The schedule of a wait: before each poll what the others do, and a completion taken at each success. */
  function WaitEvents(polls: seq<PollResult>, net: seq<seq<Event>>, used: nat): seq<Event>
    requires used <= |polls| == |net|
  {
    if used == 0 then []
    else WaitEvents(polls, net, used - 1) + Others(net[used - 1])
         + if polls[used - 1].Success? then [TakeCompletion] else []
  }

  lemma OneMoreEvent(c: Config, schedule: seq<Event>, ev: Event)
    ensures Run(c, schedule + [ev]) == Next(c, Run(c, schedule), ev)
  {
    assert (schedule + [ev])[..|schedule|] == schedule;
  }

  lemma {:induction false} AfterNetIsARun(c: Config, schedule: seq<Event>, evs: seq<Event>)
    ensures AfterNet(c, Run(c, schedule), evs) == Run(c, schedule + Others(evs))
  {
    if evs == [] {
      assert schedule + Others(evs) == schedule;
    } else {
      var front, ev := evs[..|evs| - 1], evs[|evs| - 1];
      AfterNetIsARun(c, schedule, front);
      if IsOther(ev) {
        OneMoreEvent(c, schedule + Others(front), ev);
        assert schedule + Others(evs) == (schedule + Others(front)) + [ev];
      } else {
        assert schedule + Others(evs) == schedule + Others(front);
      }
    }
  }

  /** What the sender's object goes through while it waits is a schedule of the state machine. */
  lemma {:induction false} WaitIsARun(c: Config, schedule: seq<Event>, polls: seq<PollResult>, net: seq<seq<Event>>,
                                      used: nat)
    requires used <= |polls| == |net|
    ensures WaitRun(c, Run(c, schedule), polls, net, used) == Run(c, schedule + WaitEvents(polls, net, used))
  {
    if used == 0 {
      assert schedule + WaitEvents(polls, net, used) == schedule;
    } else {
      var before := WaitEvents(polls, net, used - 1);
      WaitIsARun(c, schedule, polls, net, used - 1);
      AfterNetIsARun(c, schedule + before, net[used - 1]);
      var longer := (schedule + before) + Others(net[used - 1]);
      var last := if polls[used - 1].Success? then [TakeCompletion] else [];
      Regrouped(schedule, before, Others(net[used - 1]), last);
      if polls[used - 1].Success? { OneMoreEvent(c, longer, TakeCompletion); } else { assert longer + last == longer; }
    }
  }

  predicate IsOther(ev: Event) { !ev.Send? && !ev.StartWait? && !ev.TakeCompletion? }

  /** What the network and the receivers do. */
  ghost function AfterNet(c: Config, s: Node, evs: seq<Event>): Node {
    if evs == [] then s
    else
      var before := AfterNet(c, s, evs[..|evs| - 1]);
      if IsOther(evs[|evs| - 1]) then Next(c, before, evs[|evs| - 1]) else before
  }

  /** The node after `used` polls of the completion queue. */
  ghost function WaitRun(c: Config, s: Node, polls: seq<PollResult>, net: seq<seq<Event>>, used: nat): Node
    requires used <= |polls| == |net|
  {
    if used == 0 then s
    else
      var before := AfterNet(c, WaitRun(c, s, polls, net, used - 1), net[used - 1]);
      if polls[used - 1].Success? then Next(c, before, TakeCompletion) else before
  }

  /** The queue answers with a completion only when it holds one. */
  ghost predicate Honest(c: Config, s: Node, polls: seq<PollResult>, net: seq<seq<Event>>) {
    |polls| == |net| &&
    forall i | 0 <= i < |polls| && polls[i].Success? :: AfterNet(c, WaitRun(c, s, polls, net, i), net[i]).cq > 0
  }

  /** What neither the network nor a receiver touches. */
  ghost predicate SameSender(c: Config, s: Node, s': Node) {
    && Shape(c, s) && Shape(c, s') && s'.staging == s.staging && s'.stagingIdx == s.stagingIdx
    && s'.pending == s.pending && s'.waiting == s.waiting && s'.completed == s.completed
    && forall p | 0 <= p < c.peers :: s'.channels[p].head == s.channels[p].head && s'.channels[p].log == s.channels[p].log
  }

  lemma OtherKeepsSender(c: Config, s: Node, ev: Event)
    requires Shape(c, s) && IsOther(ev)
    ensures SameSender(c, s, Next(c, s, ev))
  {
  }

  lemma {:induction false} NetKeepsSender(c: Config, s: Node, evs: seq<Event>)
    requires Shape(c, s)
    ensures SameSender(c, s, AfterNet(c, s, evs))
  {
    if evs != [] {
      NetKeepsSender(c, s, evs[..|evs| - 1]);
      if IsOther(evs[|evs| - 1]) { OtherKeepsSender(c, AfterNet(c, s, evs[..|evs| - 1]), evs[|evs| - 1]); }
    }
  }

  /** While successes are missing the node waits and has counted those it saw. */
  lemma {:induction false} WaitRunCounts(c: Config, s: Node, polls: seq<PollResult>, net: seq<seq<Event>>, used: nat)
    requires Shape(c, s) && s.waiting && s.completed == 0 && Honest(c, s, polls, net) && used <= |polls|
    requires Successes(polls[..used]) < s.pending
    ensures var s' := WaitRun(c, s, polls, net, used);
            SameSender(c, s, s'.(completed := 0)) && s'.completed == Successes(polls[..used])
  {
    if used > 0 {
      assert polls[..used][..used - 1] == polls[..used - 1];
      WaitRunCounts(c, s, polls, net, used - 1);
      NetKeepsSender(c, WaitRun(c, s, polls, net, used - 1), net[used - 1]);
    }
  }

  /** The completion that was still missing. */
  lemma LastCompletion(c: Config, s: Node, now: Node)
    requires SameSender(c, s, now.(completed := 0)) && s.waiting && s.completed == 0
    requires now.completed + 1 == s.pending && now.cq > 0
    ensures SameSender(c, s.(stagingIdx := 0, pending := 0, waiting := false), Next(c, now, TakeCompletion))
  {
  }

  lemma LastSuccess(polls: seq<PollResult>, used: nat)
    requires 0 < used <= |polls| && polls[used - 1].Success?
    ensures Successes(polls[..used]) == Successes(polls[..used - 1]) + 1
  {
    assert polls[..used][..used - 1] == polls[..used - 1];
  }

  /** The last of them frees the pool. */
  lemma WaitRunEnds(c: Config, s: Node, polls: seq<PollResult>, net: seq<seq<Event>>, used: nat)
    requires Shape(c, s) && s.waiting && s.completed == 0 && Honest(c, s, polls, net) && 0 < used <= |polls|
    requires Successes(polls[..used]) == s.pending && polls[used - 1].Success?
    ensures var s' := WaitRun(c, s, polls, net, used);
            SameSender(c, s.(stagingIdx := 0, pending := 0, waiting := false), s')
  {
    LastSuccess(polls, used);
    WaitRunCounts(c, s, polls, net, used - 1);
    var before := WaitRun(c, s, polls, net, used - 1);
    NetKeepsSender(c, before, net[used - 1]);
    LastCompletion(c, s, AfterNet(c, before, net[used - 1]));
  }

  // ---------------------------------------------------------------- receiver

  /** The channel after the receiver has handled `n` more messages. */
  ghost function HandledMany(c: Config, ch: Channel, n: nat): (ch': Channel)
    requires c.nslots >= 1 && |ch.ring| == c.nslots
    ensures ch'.ring == ch.ring
  {
    if n == 0 then ch else Handled(c, HandledMany(c, ch, n - 1))
  }

  ghost predicate TakesPrefix(c: Config, ch: Channel, n: nat)
    requires c.nslots >= 1 && |ch.ring| == c.nslots
  {
    forall m | 0 <= m < n :: MessageThere(c, HandledMany(c, ch, m))
  }

  /** `n` messages are there one after the other, and either `max` is reached or the next is missing. */
  ghost predicate Takes(c: Config, ch: Channel, max: nat, n: nat)
    requires c.nslots >= 1 && |ch.ring| == c.nslots
  {
    && n <= max && TakesPrefix(c, ch, n)
    && (n < max ==> !MessageThere(c, HandledMany(c, ch, n)))
  }

  /** `now` is `ch` with `m` more messages handled. */
  ghost predicate HandledOk(c: Config, ch: Channel, staging: seq<Slot>, used: nat, now: Channel, m: nat)
    requires c.Valid() && |staging| == c.pool
  {
    && ChannelOk(c, now, staging, used) && !now.handling
    && now.sent == ch.sent && now.cursor == ch.cursor && |now.consumed| == |ch.consumed| + m
  }

  lemma OneHandled(c: Config, ch: Channel, staging: seq<Slot>, used: nat, now: Channel, m: nat)
    requires c.Valid() && |staging| == c.pool && HandledOk(c, ch, staging, used, now, m) && MessageThere(c, now)
    ensures HandledOk(c, ch, staging, used, Handled(c, now), m + 1)
  {
    PollKeeps(c, now, staging, used);
    HandleKeeps(c, now.(handling := true), staging, used);
    assert Handled(c, now) == Handled(c, now.(handling := true));
  }

  lemma {:induction false} HandledManyOk(c: Config, ch: Channel, staging: seq<Slot>, used: nat, n: nat)
    requires c.Valid() && |staging| == c.pool && ChannelOk(c, ch, staging, used) && !ch.handling
    requires TakesPrefix(c, ch, n)
    ensures HandledOk(c, ch, staging, used, HandledMany(c, ch, n), n)
  {
    if n > 0 {
      HandledManyOk(c, ch, staging, used, n - 1);
      OneHandled(c, ch, staging, used, HandledMany(c, ch, n - 1), n - 1);
    }
  }

  /** A poll takes everything that has been delivered, up to its limit, and hands over exactly the
      next messages sent. */
  lemma TakesWhatIsThere(c: Config, ch: Channel, staging: seq<Slot>, used: nat, max: nat, n: nat)
    requires c.Valid() && |staging| == c.pool && ChannelOk(c, ch, staging, used) && !ch.handling
    requires Takes(c, ch, max, n)
    ensures var there := Delivered(ch) - |ch.consumed|; n == if there < max then there else max
    ensures ChannelOk(c, HandledMany(c, ch, n), staging, used)
    ensures |ch.consumed| + n <= |ch.sent| && HandledMany(c, ch, n).consumed == ch.sent[..|ch.consumed| + n]
  {
    HandledManyOk(c, ch, staging, used, n);
    PollSeesNextMessage(c, HandledMany(c, ch, n), staging, used);
  }

  class Receiver {
    const c: Config
    const rank: nat
    const inbox: array2<Slot>
    const expected: array<nat>
    const tail: array<nat>
    ghost var chans: seq<Channel>

    ghost predicate Valid()
      reads this, inbox, expected, tail
    {
      && c.nslots >= 1 && |chans| == expected.Length == tail.Length == inbox.Length0 == c.peers
      && inbox.Length1 == c.nslots && expected != tail
      && (forall p | 0 <= p < c.peers :: |chans[p].ring| == c.nslots && !chans[p].handling)
      && (forall p | 0 <= p < c.peers :: chans[p].expected == expected[p])
      && (forall p, x | 0 <= p < c.peers && 0 <= x < c.nslots :: inbox[p, x] == chans[p].ring[x])
    }

    constructor (c: Config, rank: nat)
      requires c.nslots >= 1
      ensures Valid() && fresh(inbox) && fresh(expected) && fresh(tail) && this.c == c && this.rank == rank
      ensures chans == Init(c).channels
    {
      this.c := c;
      this.rank := rank;
      var zero := Slot(0, [0, 0, 0, 0, 0, 0, 0]);
      inbox := new Slot[c.peers, c.nslots]((_, _) => zero);
      expected := new nat[c.peers](_ => 1);
      tail := new nat[c.peers](_ => 0);
      chans := Init(c).channels;
    }

    /** Takes up to `max` messages from one peer. */
    method PollPeer(peer: nat, max: nat) returns (processed: nat)
      requires Valid() && peer < c.peers
      modifies this`chans, expected, tail
      ensures Valid()
      ensures Takes(c, old(chans)[peer], max, processed)
      ensures chans == old(chans)[peer := HandledMany(c, old(chans)[peer], processed)]
      ensures forall p | 0 <= p < c.peers :: tail[p] == if p == peer && processed > 0 then expected[p] else old(tail[p])
    {
      ghost var first := chans[peer];
      processed := 0;
      while processed < max
        invariant Valid() && processed <= max && TakesPrefix(c, first, processed)
        invariant chans == old(chans)[peer := HandledMany(c, first, processed)]
        invariant forall p | 0 <= p < c.peers ::
                    tail[p] == if p == peer && processed > 0 then expected[p] else old(tail[p])
      {
        var there := PollSlot(peer);
        if !there { break; }
        processed := processed + 1;
      }
    }

    /** One look at the slot of the next expected message; a message there is taken. */
    method PollSlot(peer: nat) returns (there: bool)
      requires Valid() && peer < c.peers
      modifies this`chans, expected, tail
      ensures Valid() && there == MessageThere(c, old(chans)[peer])
      ensures chans == if there then old(chans)[peer := Handled(c, old(chans)[peer])] else old(chans)
      ensures forall p | 0 <= p < c.peers :: tail[p] == if p == peer && there then expected[p] else old(tail[p])
    {
      var want := expected[peer];
      var slotIdx := SlotOf(want, c.nslots);
      there := inbox[peer, slotIdx].seqNo == want;
      if there {
        expected[peer] := want + 1;
        tail[peer] := want + 1;
        chans := chans[peer := Handled(c, chans[peer])];
      }
    }

    /** What a pass over all peers does with peer p: its own entry is skipped. */
    ghost predicate TookFrom(p: nat, max: nat, was: Channel, now: Channel, n: nat)
      requires c.nslots >= 1 && |was.ring| == c.nslots
    {
      if p == rank then n == 0 && now == was else Takes(c, was, max, n) && now == HandledMany(c, was, n)
    }

    method PollOther(peer: nat, max: nat) returns (processed: nat)
      requires Valid() && peer < c.peers
      modifies this`chans, expected, tail
      ensures Valid() && TookFrom(peer, max, old(chans)[peer], chans[peer], processed)
      ensures chans == old(chans)[peer := chans[peer]]
      ensures forall p | 0 <= p < c.peers :: tail[p] == if p == peer && processed > 0 then expected[p] else old(tail[p])
    {
      processed := 0;
      if peer != rank { processed := PollPeer(peer, max); }
    }

    /** One pass over all peers. `counts` says what came from whom, and the total is what has been consumed
        on all channels. */
    method PollKernel(max: nat) returns (total: nat, ghost counts: seq<nat>)
      requires Valid()
      modifies this`chans, expected, tail
      ensures Valid() && |counts| == c.peers
      ensures total == Sum(counts) == Consumed(chans) - Consumed(old(chans))
      ensures forall p | 0 <= p < c.peers :: TookFrom(p, max, old(chans)[p], chans[p], counts[p])
      ensures forall p | 0 <= p < c.peers :: tail[p] == if counts[p] > 0 then expected[p] else old(tail[p])
    {
      total, counts := 0, [];
      var peer := 0;
      while peer < c.peers
        invariant 0 <= peer <= c.peers && Valid() && |counts| == peer && total == Sum(counts)
        invariant forall p | 0 <= p < peer :: TookFrom(p, max, old(chans)[p], chans[p], counts[p])
        invariant forall p | peer <= p < c.peers :: chans[p] == old(chans)[p]
        invariant forall p | 0 <= p < c.peers ::
                    tail[p] == if p < peer && counts[p] > 0 then expected[p] else old(tail[p])
      {
        var processed := PollOther(peer, max);
        total := total + processed;
        SumAppend(counts, processed);
        counts := counts + [processed];
        peer := peer + 1;
      }
      forall p | 0 <= p < c.peers ensures |chans[p].consumed| == |old(chans)[p].consumed| + counts[p] {
        if p != rank { HandledManyConsumes(c, old(chans)[p], counts[p]); }
      }
      CountsAddUp(old(chans), chans, counts);
    }
  }

  // ---------------------------------------------------------------- messages consumed

  /** Messages consumed on all channels. */
  ghost function Consumed(chs: seq<Channel>): int {
    if chs == [] then 0 else Consumed(chs[..|chs| - 1]) + |chs[|chs| - 1].consumed|
  }

  lemma {:induction false} HandledManyConsumes(c: Config, ch: Channel, n: nat)
    requires c.nslots >= 1 && |ch.ring| == c.nslots
    ensures |HandledMany(c, ch, n).consumed| == |ch.consumed| + n
  {
    if n > 0 { HandledManyConsumes(c, ch, n - 1); }
  }

  lemma {:induction false} CountsAddUp(before: seq<Channel>, after: seq<Channel>, counts: seq<nat>)
    requires |before| == |after| == |counts|
    requires forall p | 0 <= p < |counts| :: |after[p].consumed| == |before[p].consumed| + counts[p]
    ensures Sum(counts) == Consumed(after) - Consumed(before)
  {
    if counts != [] {
      var n := |counts| - 1;
      CountsAddUp(before[..n], after[..n], counts[..n]);
    }
  }

  /** Each channel counts in full, and none twice. */
  lemma {:induction false} ConsumedOfOneMore(chs: seq<Channel>, p: nat, ch: Channel)
    requires p < |chs| && |ch.consumed| == |chs[p].consumed| + 1
    ensures Consumed(chs[p := ch]) == Consumed(chs) + 1
  {
    var n := |chs| - 1;
    if p == n {
      assert chs[p := ch][..n] == chs[..n];
    } else {
      assert chs[p := ch][..n] == chs[..n][p := ch];
      ConsumedOfOneMore(chs[..n], p, ch);
    }
  }
}
