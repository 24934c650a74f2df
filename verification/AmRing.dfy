/** The active-message ring: a sender stages each message, posts a put of its body and then a put of
    its sequence number into the masked slot of the receiver's ring, and reuses its staging slots
    once the completions it counted have come in. The network executes the puts of one channel in
    order, reading the staging slot only then; the words of a body arrive in any order. */
module AmRing {
  import opened Dissemination
  import opened BitMask

  /** One sender with `peers` receivers, rings of `nslots` slots and a staging pool of `pool`. */
  datatype Config = Config(peers: nat, nslots: nat, pool: nat) {
    ghost predicate Valid() { nslots >= 1 && IsPowerOfTwo(nslots) }
  }

  /** Header and six arguments, eight bytes each. */
  const WORDS := 7

  type Words = w: seq<nat> | |w| == WORDS witness [0, 0, 0, 0, 0, 0, 0]

  datatype Slot = Slot(seqNo: nat, words: Words)

  datatype Op = Body(slot: nat, stage: nat) | Release(slot: nat, stage: nat)

  /** `log` holds the puts posted so far, `cursor` how many the network has finished, `got` the words of
      the current body that have arrived. The receiver is between the test of the sequence
      number and the advance of `expected` while `handling`. */
  datatype Channel = Channel(head: nat, sent: seq<Words>, log: seq<Op>, cursor: nat, got: set<nat>,
                             ring: seq<Slot>, expected: nat, handling: bool, consumed: seq<Words>)

  datatype Node = Node(channels: seq<Channel>, staging: seq<Slot>, stagingIdx: nat, pending: nat,
                       cq: nat, waiting: bool, completed: nat)

  datatype Event =
    | Send(p: nat, words: Words)
    | StartWait
    | TakeCompletion
    | Word(p: nat, w: nat)
    | BodyDone(p: nat)
    | ReleaseDone(p: nat)
    | Poll(p: nat)
    | Handle(p: nat)

  // ---------------------------------------------------------------- actions

  ghost predicate OpFits(c: Config, op: Op) { op.slot < c.nslots && op.stage < c.pool }

  ghost predicate Shape(c: Config, s: Node) {
    && c.nslots >= 1 && |s.channels| == c.peers && |s.staging| == c.pool
    && forall p | 0 <= p < c.peers ::
         && |s.channels[p].ring| == c.nslots && s.channels[p].cursor <= |s.channels[p].log|
         && forall i | 0 <= i < |s.channels[p].log| :: OpFits(c, s.channels[p].log[i])
  }

  predicate Executing(ch: Channel) { ch.cursor < |ch.log| }

  predicate MessageThere(c: Config, ch: Channel)
    requires c.nslots >= 1 && |ch.ring| == c.nslots
  {
    ch.ring[SlotOf(ch.expected, c.nslots)].seqNo == ch.expected
  }

  ghost predicate Enabled(c: Config, s: Node, ev: Event)
    requires Shape(c, s)
  {
    match ev
    case Send(p, _) => p < c.peers && !s.waiting && s.stagingIdx < c.pool
    case StartWait => !s.waiting && s.pending > 0
    case TakeCompletion => s.waiting && s.cq > 0
    case Word(p, w) =>
      && p < c.peers && Executing(s.channels[p]) && s.channels[p].log[s.channels[p].cursor].Body?
      && w < WORDS && w !in s.channels[p].got
    case BodyDone(p) =>
      && p < c.peers && Executing(s.channels[p]) && s.channels[p].log[s.channels[p].cursor].Body?
      && forall w | 0 <= w < WORDS :: w in s.channels[p].got
    case ReleaseDone(p) =>
      p < c.peers && Executing(s.channels[p]) && s.channels[p].log[s.channels[p].cursor].Release?
    case Poll(p) => p < c.peers && !s.channels[p].handling && MessageThere(c, s.channels[p])
    case Handle(p) => p < c.peers && s.channels[p].handling
  }

  ghost function Posted(c: Config, ch: Channel, stage: nat, words: Words): Channel
    requires c.nslots >= 1
  {
    var slot := SlotOf(ch.head, c.nslots);
    ch.(head := ch.head + 1, sent := ch.sent + [words], log := ch.log + [Body(slot, stage), Release(slot, stage)])
  }

  ghost function WordLanded(c: Config, ch: Channel, staging: seq<Slot>, w: nat): Channel
    requires Executing(ch) && OpFits(c, ch.log[ch.cursor]) && |ch.ring| == c.nslots && |staging| == c.pool && w < WORDS
  {
    var op := ch.log[ch.cursor];
    var landed: Words := ch.ring[op.slot].words[w := staging[op.stage].words[w]];
    ch.(ring := ch.ring[op.slot := Slot(ch.ring[op.slot].seqNo, landed)], got := ch.got + {w})
  }

  ghost function ReleaseLanded(c: Config, ch: Channel, staging: seq<Slot>): Channel
    requires Executing(ch) && OpFits(c, ch.log[ch.cursor]) && |ch.ring| == c.nslots && |staging| == c.pool
  {
    var op := ch.log[ch.cursor];
    ch.(ring := ch.ring[op.slot := Slot(staging[op.stage].seqNo, ch.ring[op.slot].words)], cursor := ch.cursor + 1)
  }

  ghost function Handled(c: Config, ch: Channel): Channel
    requires c.nslots >= 1 && |ch.ring| == c.nslots
  {
    ch.(consumed := ch.consumed + [ch.ring[SlotOf(ch.expected, c.nslots)].words], expected := ch.expected + 1,
        handling := false)
  }

  ghost function Step(c: Config, s: Node, ev: Event): Node
    requires Shape(c, s) && Enabled(c, s, ev)
  {
    match ev
    case Send(p, words) =>
      s.(staging := s.staging[s.stagingIdx := Slot(s.channels[p].head, words)], stagingIdx := s.stagingIdx + 1,
         channels := s.channels[p := Posted(c, s.channels[p], s.stagingIdx, words)], pending := s.pending + 1)
    case StartWait => s.(waiting := true, completed := 0)
    case TakeCompletion =>
      if s.completed + 1 < s.pending then s.(cq := s.cq - 1, completed := s.completed + 1)
      else s.(cq := s.cq - 1, completed := 0, waiting := false, stagingIdx := 0, pending := 0)
    case Word(p, w) => s.(channels := s.channels[p := WordLanded(c, s.channels[p], s.staging, w)])
    case BodyDone(p) =>
      s.(channels := s.channels[p := s.channels[p].(cursor := s.channels[p].cursor + 1, got := {})])
    case ReleaseDone(p) =>
      s.(channels := s.channels[p := ReleaseLanded(c, s.channels[p], s.staging)], cq := s.cq + 1)
    case Poll(p) => s.(channels := s.channels[p := s.channels[p].(handling := true)])
    case Handle(p) => s.(channels := s.channels[p := Handled(c, s.channels[p])])
  }

  ghost function ZeroSlot(): Slot { Slot(0, [0, 0, 0, 0, 0, 0, 0]) }

  ghost function Init(c: Config): Node {
    Node(seq(c.peers, p => Channel(1, [], [], 0, {}, seq(c.nslots, x => ZeroSlot()), 1, false, [])),
         seq(c.pool, x => ZeroSlot()), 0, 0, 0, false, 0)
  }

  // ---------------------------------------------------------------- invariant

  function Delivered(ch: Channel): nat { ch.cursor / 2 }

  /** The two puts of message m, body first. */
  ghost predicate PairOk(c: Config, ch: Channel, m: nat)
    requires c.nslots >= 1 && |ch.log| == 2 * |ch.sent| && m < |ch.sent|
  {
    && ch.log[2 * m] == Body(SlotOf(m + 1, c.nslots), ch.log[2 * m].stage)
    && ch.log[2 * m + 1] == Release(SlotOf(m + 1, c.nslots), ch.log[2 * m].stage)
    && ch.log[2 * m].stage < c.pool
  }

  /** An undelivered message still lies in its staging slot. */
  ghost predicate StagedOk(c: Config, ch: Channel, staging: seq<Slot>, used: nat, m: nat)
    requires |ch.log| == 2 * |ch.sent| && m < |ch.sent| && |staging| == c.pool
  {
    ch.log[2 * m].stage < used <= c.pool && staging[ch.log[2 * m].stage] == Slot(m + 1, ch.sent[m])
  }

  /** A delivered, unconsumed message lies in its ring slot. */
  ghost predicate LandedOk(c: Config, ch: Channel, m: nat)
    requires c.nslots >= 1 && |ch.ring| == c.nslots && m < |ch.sent|
  {
    ch.ring[SlotOf(m + 1, c.nslots)] == Slot(m + 1, ch.sent[m])
  }

  ghost predicate ArrivingOk(c: Config, ch: Channel)
    requires c.nslots >= 1 && |ch.ring| == c.nslots
  {
    && (forall w | w in ch.got :: w < WORDS && ch.cursor % 2 == 0 && Delivered(ch) < |ch.sent|)
    && (Delivered(ch) < |ch.sent| ==>
          forall w | 0 <= w < WORDS && (w in ch.got || ch.cursor % 2 == 1) ::
            ch.ring[SlotOf(Delivered(ch) + 1, c.nslots)].words[w] == ch.sent[Delivered(ch)][w])
  }

  ghost predicate Counts(c: Config, ch: Channel) {
    && ch.head == |ch.sent| + 1 && ch.expected == |ch.consumed| + 1
    && |ch.log| == 2 * |ch.sent| && ch.cursor <= |ch.log| && |ch.ring| == c.nslots
    && |ch.consumed| + (if ch.handling then 1 else 0) <= Delivered(ch)
    && |ch.sent| <= |ch.consumed| + c.nslots
  }

  ghost predicate ChannelOk(c: Config, ch: Channel, staging: seq<Slot>, used: nat)
    requires c.nslots >= 1 && |staging| == c.pool
  {
    && Counts(c, ch)
    && ch.consumed == ch.sent[..|ch.consumed|]
    && (forall m | 0 <= m < |ch.sent| :: PairOk(c, ch, m))
    && (forall m | Delivered(ch) <= m < |ch.sent| :: StagedOk(c, ch, staging, used, m))
    && (forall m | |ch.consumed| <= m < Delivered(ch) :: LandedOk(c, ch, m))
    && (forall x | 0 <= x < c.nslots :: ch.ring[x].seqNo <= Delivered(ch))
    && ArrivingOk(c, ch)
  }

  function Undelivered(ch: Channel): int { |ch.sent| - ch.cursor / 2 }

  function TotalUndelivered(chs: seq<Channel>): int {
    if chs == [] then 0 else TotalUndelivered(chs[..|chs| - 1]) + Undelivered(chs[|chs| - 1])
  }

  ghost predicate CountsAgree(c: Config, s: Node) {
    && s.pending == s.stagingIdx <= c.pool
    && s.pending == TotalUndelivered(s.channels) + s.cq + s.completed
    && (if s.waiting then s.completed < s.pending else s.completed == 0)
  }

  ghost predicate Inv(c: Config, s: Node) {
    && Shape(c, s) && CountsAgree(c, s)
    && forall p | 0 <= p < c.peers :: ChannelOk(c, s.channels[p], s.staging, s.stagingIdx)
  }

  lemma {:induction false} TotalOfUpdate(chs: seq<Channel>, p: nat, ch: Channel)
    requires p < |chs|
    ensures TotalUndelivered(chs[p := ch]) == TotalUndelivered(chs) - Undelivered(chs[p]) + Undelivered(ch)
  {
    var n := |chs| - 1;
    if p == n {
      assert chs[p := ch][..n] == chs[..n];
    } else {
      TotalOfUpdate(chs[..n], p, ch);
      assert chs[p := ch][..n] == chs[..n][p := ch];
    }
  }

  lemma {:induction false} NothingLeft(chs: seq<Channel>, p: nat)
    requires p < |chs| && TotalUndelivered(chs) <= 0 && forall q | 0 <= q < |chs| :: Undelivered(chs[q]) >= 0
    ensures Undelivered(chs[p]) == 0 && TotalUndelivered(chs) == 0
  {
    var n := |chs| - 1;
    if n > 0 { AllNonNegative(chs[..n]); }
    if p < n { NothingLeft(chs[..n], p); }
  }

  lemma {:induction false} AllNonNegative(chs: seq<Channel>)
    requires forall q | 0 <= q < |chs| :: Undelivered(chs[q]) >= 0
    ensures TotalUndelivered(chs) >= 0
  {
    if chs != [] { AllNonNegative(chs[..|chs| - 1]); }
  }

  lemma {:induction false} NothingAtFirst(chs: seq<Channel>)
    requires forall q | 0 <= q < |chs| :: Undelivered(chs[q]) == 0
    ensures TotalUndelivered(chs) == 0
  {
    if chs != [] { NothingAtFirst(chs[..|chs| - 1]); }
  }

  lemma InitInv(c: Config)
    requires c.Valid()
    ensures Inv(c, Init(c))
  {
    NothingAtFirst(Init(c).channels);
  }

  // ---------------------------------------------------------------- every action keeps it

  /** Within a window, two messages never share a slot. */
  lemma WindowSlots(c: Config, m: nat, n: nat)
    requires c.Valid() && m < n < m + c.nslots
    ensures SlotOf(m + 1, c.nslots) != SlotOf(n + 1, c.nslots)
  {
    MaskSeparatesIff(c.nslots);
    assert !Clash(m + 1, n - m, c.nslots);
  }

  /** The operation the network executes next belongs to the oldest undelivered message. */
  lemma CurrentOp(c: Config, ch: Channel, staging: seq<Slot>, used: nat)
    requires c.Valid() && |staging| == c.pool && ChannelOk(c, ch, staging, used) && Executing(ch)
    ensures var m := Delivered(ch);
            && m < |ch.sent| && ch.log[ch.cursor].slot == SlotOf(m + 1, c.nslots) && OpFits(c, ch.log[ch.cursor])
            && (ch.log[ch.cursor].Body? <==> ch.cursor % 2 == 0)
            && staging[ch.log[ch.cursor].stage] == Slot(m + 1, ch.sent[m])
  {
    var m := Delivered(ch);
    assert PairOk(c, ch, m) && StagedOk(c, ch, staging, used, m);
    assert ch.cursor == 2 * m || ch.cursor == 2 * m + 1;
  }

  /** Changing the slot of the message under way leaves the others in place. */
  lemma OthersStay(c: Config, ch: Channel, staging: seq<Slot>, used: nat, m: nat)
    requires c.Valid() && |staging| == c.pool && ChannelOk(c, ch, staging, used)
    requires Delivered(ch) < |ch.sent| && |ch.consumed| <= m < Delivered(ch)
    ensures SlotOf(m + 1, c.nslots) != SlotOf(Delivered(ch) + 1, c.nslots)
  {
    WindowSlots(c, m, Delivered(ch));
  }

  lemma WordKeeps(c: Config, ch: Channel, staging: seq<Slot>, used: nat, w: nat)
    requires c.Valid() && |staging| == c.pool && ChannelOk(c, ch, staging, used) && Executing(ch)
    requires OpFits(c, ch.log[ch.cursor]) && ch.log[ch.cursor].Body? && w < WORDS && w !in ch.got
    ensures ChannelOk(c, WordLanded(c, ch, staging, w), staging, used)
  {
    var ch' := WordLanded(c, ch, staging, w);
    CurrentOp(c, ch, staging, used);
    forall m | |ch.consumed| <= m < Delivered(ch) ensures LandedOk(c, ch', m) {
      assert LandedOk(c, ch, m);
      OthersStay(c, ch, staging, used, m);
    }
    forall m | 0 <= m < |ch.sent| ensures PairOk(c, ch', m) { assert PairOk(c, ch, m); }
    forall m | Delivered(ch) <= m < |ch.sent| ensures StagedOk(c, ch', staging, used, m) {
      assert StagedOk(c, ch, staging, used, m);
    }
  }

  lemma BodyKeeps(c: Config, ch: Channel, staging: seq<Slot>, used: nat)
    requires c.Valid() && |staging| == c.pool && ChannelOk(c, ch, staging, used) && Executing(ch)
    requires ch.log[ch.cursor].Body? && forall w | 0 <= w < WORDS :: w in ch.got
    ensures ChannelOk(c, ch.(cursor := ch.cursor + 1, got := {}), staging, used)
    ensures Undelivered(ch.(cursor := ch.cursor + 1, got := {})) == Undelivered(ch)
  {
    var ch' := ch.(cursor := ch.cursor + 1, got := {});
    CurrentOp(c, ch, staging, used);
    assert Delivered(ch') == Delivered(ch);
    forall m | |ch.consumed| <= m < Delivered(ch) ensures LandedOk(c, ch', m) { assert LandedOk(c, ch, m); }
    forall m | 0 <= m < |ch.sent| ensures PairOk(c, ch', m) { assert PairOk(c, ch, m); }
    forall m | Delivered(ch) <= m < |ch.sent| ensures StagedOk(c, ch', staging, used, m) {
      assert StagedOk(c, ch, staging, used, m);
    }
  }

  lemma ReleaseKeeps(c: Config, ch: Channel, staging: seq<Slot>, used: nat)
    requires c.Valid() && |staging| == c.pool && ChannelOk(c, ch, staging, used) && Executing(ch)
    requires OpFits(c, ch.log[ch.cursor]) && ch.log[ch.cursor].Release?
    ensures ChannelOk(c, ReleaseLanded(c, ch, staging), staging, used)
    ensures Undelivered(ReleaseLanded(c, ch, staging)) == Undelivered(ch) - 1
  {
    var ch' := ReleaseLanded(c, ch, staging);
    CurrentOp(c, ch, staging, used);
    assert Delivered(ch') == Delivered(ch) + 1;
    assert ch'.ring[SlotOf(Delivered(ch) + 1, c.nslots)].words == ch.sent[Delivered(ch)];
    forall m | |ch.consumed| <= m < Delivered(ch') ensures LandedOk(c, ch', m) {
      if m < Delivered(ch) {
        assert LandedOk(c, ch, m);
        OthersStay(c, ch, staging, used, m);
      }
    }
    forall m | 0 <= m < |ch.sent| ensures PairOk(c, ch', m) { assert PairOk(c, ch, m); }
    forall m | Delivered(ch') <= m < |ch.sent| ensures StagedOk(c, ch', staging, used, m) {
      assert StagedOk(c, ch, staging, used, m);
    }
  }

  /** What the receiver finds under the expected number is the next message, whole. */
  lemma PollSeesNextMessage(c: Config, ch: Channel, staging: seq<Slot>, used: nat)
    requires c.Valid() && |staging| == c.pool && ChannelOk(c, ch, staging, used)
    ensures MessageThere(c, ch) <==> |ch.consumed| < Delivered(ch)
    ensures MessageThere(c, ch) ==>
              |ch.consumed| < |ch.sent| && ch.ring[SlotOf(ch.expected, c.nslots)].words == ch.sent[|ch.consumed|]
  {
    if |ch.consumed| < Delivered(ch) { assert LandedOk(c, ch, |ch.consumed|); }
  }

  lemma HandleKeeps(c: Config, ch: Channel, staging: seq<Slot>, used: nat)
    requires c.Valid() && |staging| == c.pool && ChannelOk(c, ch, staging, used) && ch.handling
    ensures ChannelOk(c, Handled(c, ch), staging, used)
  {
    var ch' := Handled(c, ch);
    PollSeesNextMessage(c, ch, staging, used);
    forall m | |ch'.consumed| <= m < Delivered(ch) ensures LandedOk(c, ch', m) { assert LandedOk(c, ch, m); }
    forall m | 0 <= m < |ch.sent| ensures PairOk(c, ch', m) { assert PairOk(c, ch, m); }
    forall m | Delivered(ch) <= m < |ch.sent| ensures StagedOk(c, ch', staging, used, m) {
      assert StagedOk(c, ch, staging, used, m);
    }
  }

  lemma PollKeeps(c: Config, ch: Channel, staging: seq<Slot>, used: nat)
    requires c.Valid() && |staging| == c.pool && ChannelOk(c, ch, staging, used) && !ch.handling && MessageThere(c, ch)
    ensures ChannelOk(c, ch.(handling := true), staging, used)
  {
    var ch' := ch.(handling := true);
    PollSeesNextMessage(c, ch, staging, used);
    forall m | |ch.consumed| <= m < Delivered(ch) ensures LandedOk(c, ch', m) { assert LandedOk(c, ch, m); }
    forall m | 0 <= m < |ch.sent| ensures PairOk(c, ch', m) { assert PairOk(c, ch, m); }
    forall m | Delivered(ch) <= m < |ch.sent| ensures StagedOk(c, ch', staging, used, m) {
      assert StagedOk(c, ch, staging, used, m);
    }
  }

  lemma PostKeeps(c: Config, ch: Channel, staging: seq<Slot>, used: nat, words: Words)
    requires c.Valid() && |staging| == c.pool && ChannelOk(c, ch, staging, used) && used < c.pool
    requires |ch.sent| - |ch.consumed| < c.nslots
    ensures ChannelOk(c, Posted(c, ch, used, words), staging[used := Slot(ch.head, words)], used + 1)
    ensures Undelivered(Posted(c, ch, used, words)) == Undelivered(ch) + 1
  {
    var ch', staging', used' := Posted(c, ch, used, words), staging[used := Slot(ch.head, words)], used + 1;
    forall m | |ch.consumed| <= m < Delivered(ch) ensures LandedOk(c, ch', m) { assert LandedOk(c, ch, m); }
    forall m | 0 <= m < |ch'.sent| ensures PairOk(c, ch', m) {
      if m < |ch.sent| { assert PairOk(c, ch, m); }
    }
    forall m | Delivered(ch) <= m < |ch'.sent| ensures StagedOk(c, ch', staging', used', m) {
      if m < |ch.sent| { assert StagedOk(c, ch, staging, used, m); }
    }
    NewHeadArrives(c, ch, ch');
  }

  lemma NewHeadArrives(c: Config, ch: Channel, ch': Channel)
    requires c.nslots >= 1 && Counts(c, ch) && ArrivingOk(c, ch)
    requires ch'.ring == ch.ring && ch'.cursor == ch.cursor && ch'.got == ch.got
    requires |ch'.sent| == |ch.sent| + 1 && ch'.sent[..|ch.sent|] == ch.sent
    ensures ArrivingOk(c, ch')
  {
    assert forall m | 0 <= m < |ch.sent| :: ch'.sent[m] == ch'.sent[..|ch.sent|][m];
  }

  /** Filling a fresh staging slot disturbs no other channel. */
  lemma OtherChannelKeeps(c: Config, ch: Channel, staging: seq<Slot>, used: nat, slot: Slot)
    requires c.Valid() && |staging| == c.pool && ChannelOk(c, ch, staging, used) && used < c.pool
    ensures ChannelOk(c, ch, staging[used := slot], used + 1)
  {
    var staging', used' := staging[used := slot], used + 1;
    forall m | Delivered(ch) <= m < |ch.sent| ensures StagedOk(c, ch, staging', used', m) {
      assert StagedOk(c, ch, staging, used, m);
    }
  }

  /** A send happens only while fewer than w messages are unconsumed. */
  ghost predicate OpenBelow(c: Config, s: Node, ev: Event, w: nat)
    requires Shape(c, s)
  {
    ev.Send? && ev.p < c.peers ==> s.channels[ev.p].head - s.channels[ev.p].expected < w
  }

  ghost predicate WindowOpen(c: Config, s: Node, ev: Event)
    requires Shape(c, s)
  {
    OpenBelow(c, s, ev, c.nslots)
  }

  lemma SendKeepsChannel(c: Config, s: Node, p: nat, words: Words, q: nat)
    requires c.Valid() && Inv(c, s) && Enabled(c, s, Send(p, words)) && WindowOpen(c, s, Send(p, words)) && q < c.peers
    ensures var s' := Step(c, s, Send(p, words));
            ChannelOk(c, s'.channels[q], s'.staging, s'.stagingIdx)
  {
    var ch, staging, used := s.channels[p], s.staging, s.stagingIdx;
    assert ChannelOk(c, ch, staging, used);
    if q == p { PostKeeps(c, ch, staging, used, words); }
    else { OtherChannelKeeps(c, s.channels[q], staging, used, Slot(ch.head, words)); }
  }

  lemma SendKeepsCounts(c: Config, s: Node, p: nat, words: Words)
    requires c.Valid() && Inv(c, s) && Enabled(c, s, Send(p, words)) && WindowOpen(c, s, Send(p, words))
    ensures CountsAgree(c, Step(c, s, Send(p, words))) && Shape(c, Step(c, s, Send(p, words)))
  {
    assert ChannelOk(c, s.channels[p], s.staging, s.stagingIdx);
    PostKeeps(c, s.channels[p], s.staging, s.stagingIdx, words);
    TotalOfUpdate(s.channels, p, Posted(c, s.channels[p], s.stagingIdx, words));
  }

  lemma SendKeepsInv(c: Config, s: Node, p: nat, words: Words)
    requires c.Valid() && Inv(c, s) && Enabled(c, s, Send(p, words)) && WindowOpen(c, s, Send(p, words))
    ensures Inv(c, Step(c, s, Send(p, words)))
  {
    var s' := Step(c, s, Send(p, words));
    SendKeepsCounts(c, s, p, words);
    forall q | 0 <= q < c.peers ensures ChannelOk(c, s'.channels[q], s'.staging, s'.stagingIdx) {
      SendKeepsChannel(c, s, p, words, q);
    }
  }

  /** Staging slots are reused only when every posted put has been executed. */
  lemma CompletionKeepsInv(c: Config, s: Node)
    requires c.Valid() && Inv(c, s) && Enabled(c, s, TakeCompletion)
    ensures Inv(c, Step(c, s, TakeCompletion))
    ensures Step(c, s, TakeCompletion).stagingIdx == 0 ==>
              forall p | 0 <= p < c.peers :: !Executing(s.channels[p])
  {
    var s' := Step(c, s, TakeCompletion);
    if s.completed + 1 >= s.pending {
      forall p | 0 <= p < c.peers ensures !Executing(s.channels[p]) && ChannelOk(c, s.channels[p], s.staging, 0) {
        assert forall q | 0 <= q < c.peers :: ChannelOk(c, s.channels[q], s.staging, s.stagingIdx);
        AllNonNegative(s.channels);
        NothingLeft(s.channels, p);
      }
      assert c.peers == 0 ==> TotalUndelivered(s.channels) == 0;
      if c.peers > 0 {
        assert forall q | 0 <= q < c.peers :: ChannelOk(c, s.channels[q], s.staging, s.stagingIdx);
        AllNonNegative(s.channels);
        NothingLeft(s.channels, 0);
      }
    }
  }

  /** An action on one channel. */
  lemma ChannelStepKeepsInv(c: Config, s: Node, p: nat, ch': Channel, gained: nat)
    requires Inv(c, s) && p < c.peers && ChannelOk(c, ch', s.staging, s.stagingIdx)
    requires forall i | 0 <= i < |ch'.log| :: OpFits(c, ch'.log[i])
    requires Undelivered(ch') == Undelivered(s.channels[p]) - gained
    ensures Inv(c, s.(channels := s.channels[p := ch'], cq := s.cq + gained))
  {
    TotalOfUpdate(s.channels, p, ch');
  }

  lemma WordKeepsInv(c: Config, s: Node, p: nat, w: nat)
    requires c.Valid() && Inv(c, s) && Enabled(c, s, Word(p, w))
    ensures Inv(c, Step(c, s, Word(p, w)))
  {
    WordKeeps(c, s.channels[p], s.staging, s.stagingIdx, w);
    ChannelStepKeepsInv(c, s, p, WordLanded(c, s.channels[p], s.staging, w), 0);
  }

  lemma BodyKeepsInv(c: Config, s: Node, p: nat)
    requires c.Valid() && Inv(c, s) && Enabled(c, s, BodyDone(p))
    ensures Inv(c, Step(c, s, BodyDone(p)))
  {
    BodyKeeps(c, s.channels[p], s.staging, s.stagingIdx);
    ChannelStepKeepsInv(c, s, p, s.channels[p].(cursor := s.channels[p].cursor + 1, got := {}), 0);
  }

  lemma ReleaseKeepsInv(c: Config, s: Node, p: nat)
    requires c.Valid() && Inv(c, s) && Enabled(c, s, ReleaseDone(p))
    ensures Inv(c, Step(c, s, ReleaseDone(p)))
  {
    ReleaseKeeps(c, s.channels[p], s.staging, s.stagingIdx);
    ChannelStepKeepsInv(c, s, p, ReleaseLanded(c, s.channels[p], s.staging), 1);
  }

  lemma ReceiverKeepsInv(c: Config, s: Node, ev: Event)
    requires c.Valid() && Inv(c, s) && Enabled(c, s, ev) && (ev.Poll? || ev.Handle?)
    ensures Inv(c, Step(c, s, ev))
  {
    var ch, staging, used := s.channels[ev.p], s.staging, s.stagingIdx;
    match ev
    case Poll(p) =>
      PollKeeps(c, ch, staging, used);
      ChannelStepKeepsInv(c, s, p, ch.(handling := true), 0);
    case Handle(p) =>
      HandleKeeps(c, ch, staging, used);
      ChannelStepKeepsInv(c, s, p, Handled(c, ch), 0);
  }

  lemma StepKeepsInv(c: Config, s: Node, ev: Event)
    requires c.Valid() && Inv(c, s) && Enabled(c, s, ev) && WindowOpen(c, s, ev)
    ensures Inv(c, Step(c, s, ev))
  {
    match ev
    case Send(p, words) => SendKeepsInv(c, s, p, words);
    case StartWait => StartKeepsInv(c, s);
    case TakeCompletion => CompletionKeepsInv(c, s);
    case Word(p, w) => WordKeepsInv(c, s, p, w);
    case BodyDone(p) => BodyKeepsInv(c, s, p);
    case ReleaseDone(p) => ReleaseKeepsInv(c, s, p);
    case Poll(_) => ReceiverKeepsInv(c, s, ev);
    case Handle(_) => ReceiverKeepsInv(c, s, ev);
  }

  lemma StartKeepsInv(c: Config, s: Node)
    requires Inv(c, s) && Enabled(c, s, StartWait)
    ensures Inv(c, Step(c, s, StartWait))
  {
  }

  // ---------------------------------------------------------------- schedules

  ghost function Next(c: Config, s: Node, ev: Event): Node {
    if Shape(c, s) && Enabled(c, s, ev) then Step(c, s, ev) else s
  }

  ghost function Run(c: Config, schedule: seq<Event>): Node {
    if schedule == [] then Init(c) else Next(c, Run(c, schedule[..|schedule| - 1]), schedule[|schedule| - 1])
  }

  /** The sender never lets more than w messages of a channel go unconsumed. */
  ghost predicate KeepsBound(c: Config, schedule: seq<Event>, w: nat) {
    schedule == [] ||
    (var s := Run(c, schedule[..|schedule| - 1]);
     && KeepsBound(c, schedule[..|schedule| - 1], w)
     && (Shape(c, s) ==> OpenBelow(c, s, schedule[|schedule| - 1], w)))
  }

  /** Nor more than a ring of them. */
  ghost predicate KeepsWindow(c: Config, schedule: seq<Event>) { KeepsBound(c, schedule, c.nslots) }

  lemma {:induction false} RunInv(c: Config, schedule: seq<Event>)
    requires c.Valid() && KeepsWindow(c, schedule)
    ensures Inv(c, Run(c, schedule))
  {
    if schedule == [] {
      InitInv(c);
    } else {
      RunInv(c, schedule[..|schedule| - 1]);
      var s, ev := Run(c, schedule[..|schedule| - 1]), schedule[|schedule| - 1];
      if Enabled(c, s, ev) { StepKeepsInv(c, s, ev); }
    }
  }

  // ---------------------------------------------------------------- theorems

  /** Whatever the interleaving, what a receiver has consumed is what was sent to it: in order, each
      message once, every word intact. */
  lemma ConsumedIsSent(c: Config, schedule: seq<Event>, p: nat)
    requires c.Valid() && KeepsWindow(c, schedule) && p < c.peers
    ensures p < |Run(c, schedule).channels|
    ensures var ch := Run(c, schedule).channels[p];
            |ch.consumed| <= |ch.sent| && ch.consumed == ch.sent[..|ch.consumed|]
  {
    RunInv(c, schedule);
  }

  /** Nothing is lost: when neither the network nor the receiver can move, all has been consumed. */
  lemma NothingIsLost(c: Config, schedule: seq<Event>, p: nat)
    requires c.Valid() && KeepsWindow(c, schedule) && p < c.peers && Shape(c, Run(c, schedule))
    requires !Enabled(c, Run(c, schedule), BodyDone(p)) && !Enabled(c, Run(c, schedule), ReleaseDone(p))
    requires !Enabled(c, Run(c, schedule), Poll(p)) && !Enabled(c, Run(c, schedule), Handle(p))
    requires forall w :: !Enabled(c, Run(c, schedule), Word(p, w))
    ensures Run(c, schedule).channels[p].consumed == Run(c, schedule).channels[p].sent
  {
    RunInv(c, schedule);
    var s := Run(c, schedule);
    var ch := s.channels[p];
    PollSeesNextMessage(c, ch, s.staging, s.stagingIdx);
    if Executing(ch) {
      CurrentOp(c, ch, s.staging, s.stagingIdx);
      if ch.log[ch.cursor].Body? {
        var w :| 0 <= w < WORDS && w !in ch.got;
        assert Enabled(c, s, Word(p, w));
      }
    }
  }

  /** A staging slot is overwritten only when no put that reads it is outstanding. */
  lemma StagingIsFree(c: Config, schedule: seq<Event>, p: nat, words: Words, q: nat, i: nat)
    requires c.Valid() && KeepsWindow(c, schedule) && Shape(c, Run(c, schedule))
    requires Enabled(c, Run(c, schedule), Send(p, words)) && q < c.peers
    requires Run(c, schedule).channels[q].cursor <= i < |Run(c, schedule).channels[q].log|
    ensures Run(c, schedule).channels[q].log[i].stage != Run(c, schedule).stagingIdx
  {
    RunInv(c, schedule);
    var s := Run(c, schedule);
    assert ChannelOk(c, s.channels[q], s.staging, s.stagingIdx);
    PendingIsStaged(c, s.channels[q], s.staging, s.stagingIdx, i);
  }

  lemma PendingIsStaged(c: Config, ch: Channel, staging: seq<Slot>, used: nat, i: nat)
    requires c.nslots >= 1 && |staging| == c.pool && ChannelOk(c, ch, staging, used) && ch.cursor <= i < |ch.log|
    ensures ch.log[i].stage < used
  {
    var m := i / 2;
    assert PairOk(c, ch, m) && StagedOk(c, ch, staging, used, m);
    assert i == 2 * m || i == 2 * m + 1;
  }
}
