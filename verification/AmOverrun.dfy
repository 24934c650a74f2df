/** What the ring loses when the sender does not keep its window: one message more than the ring has
    slots buries the first one for good, on any channel and with any staging pool. */
module AmOverrun {
  import Arithmetic
  import opened Dissemination
  import opened BitMask
  import opened AmRing

  // ---------------------------------------------------------------- what holds without a window

  ghost predicate LogOk(ch: Channel) {
    && ch.head == |ch.sent| + 1 && |ch.log| == 2 * |ch.sent| && ch.cursor <= |ch.log|
    && forall m | 0 <= m < |ch.sent| :: ch.log[2 * m].Body? && ch.log[2 * m + 1].Release?
  }

  ghost predicate Unused(ch: Channel, used: nat) {
    forall i | ch.cursor <= i < |ch.log| :: ch.log[i].stage < used
  }

  /** The counts of puts and completions agree, and puts not executed yet read staging slots in use. */
  ghost predicate Books(c: Config, s: Node) {
    && Shape(c, s) && CountsAgree(c, s)
    && forall p | 0 <= p < c.peers :: LogOk(s.channels[p]) && Unused(s.channels[p], s.stagingIdx)
  }

  lemma CursorParity(ch: Channel)
    requires LogOk(ch) && Executing(ch)
    ensures ch.log[ch.cursor].Body? <==> ch.cursor % 2 == 0
  {
    var m := ch.cursor / 2;
    assert ch.cursor == 2 * m || ch.cursor == 2 * m + 1;
    assert ch.log[2 * m].Body? && ch.log[2 * m + 1].Release?;
  }

  lemma PostKeepsLog(c: Config, ch: Channel, used: nat, words: Words)
    requires c.nslots >= 1 && LogOk(ch) && Unused(ch, used)
    ensures LogOk(Posted(c, ch, used, words)) && Unused(Posted(c, ch, used, words), used + 1)
    ensures Undelivered(Posted(c, ch, used, words)) == Undelivered(ch) + 1
  {
    var ch', slot := Posted(c, ch, used, words), SlotOf(ch.head, c.nslots);
    assert ch'.log == ch.log + [Body(slot, used), Release(slot, used)];
    forall m | 0 <= m < |ch'.sent| ensures ch'.log[2 * m].Body? && ch'.log[2 * m + 1].Release? {
      if m < |ch.sent| { assert ch.log[2 * m].Body? && ch.log[2 * m + 1].Release?; }
    }
  }

  lemma SendKeepsLogs(c: Config, s: Node, p: nat, words: Words, q: nat)
    requires Books(c, s) && Enabled(c, s, Send(p, words)) && q < c.peers
    ensures var s' := Step(c, s, Send(p, words));
            LogOk(s'.channels[q]) && Unused(s'.channels[q], s'.stagingIdx)
  {
    assert LogOk(s.channels[q]) && Unused(s.channels[q], s.stagingIdx);
    if q == p { PostKeepsLog(c, s.channels[p], s.stagingIdx, words); } else { MoreUsed(s.channels[q], s.stagingIdx); }
  }

  lemma SendKeepsCounts(c: Config, s: Node, p: nat, words: Words)
    requires Shape(c, s) && CountsAgree(c, s) && Enabled(c, s, Send(p, words)) && LogOk(s.channels[p])
    requires Unused(s.channels[p], s.stagingIdx)
    ensures CountsAgree(c, Step(c, s, Send(p, words)))
  {
    PostKeepsLog(c, s.channels[p], s.stagingIdx, words);
    TotalOfUpdate(s.channels, p, Posted(c, s.channels[p], s.stagingIdx, words));
  }

  lemma SendKeepsShape(c: Config, s: Node, p: nat, words: Words)
    requires Shape(c, s) && Enabled(c, s, Send(p, words))
    ensures Shape(c, Step(c, s, Send(p, words)))
  {
  }

  lemma SendKeepsBooks(c: Config, s: Node, p: nat, words: Words)
    requires Books(c, s) && Enabled(c, s, Send(p, words))
    ensures Books(c, Step(c, s, Send(p, words)))
  {
    var s' := Step(c, s, Send(p, words));
    assert LogOk(s.channels[p]) && Unused(s.channels[p], s.stagingIdx);
    SendKeepsShape(c, s, p, words);
    SendKeepsCounts(c, s, p, words);
    forall q | 0 <= q < c.peers ensures LogOk(s'.channels[q]) && Unused(s'.channels[q], s'.stagingIdx) {
      SendKeepsLogs(c, s, p, words, q);
    }
  }

  lemma MoreUsed(ch: Channel, used: nat)
    requires Unused(ch, used)
    ensures Unused(ch, used + 1)
  {
  }

  /** The pool is freed only with all puts executed, window or not. */
  lemma CompletionKeepsBooks(c: Config, s: Node)
    requires Books(c, s) && Enabled(c, s, TakeCompletion)
    ensures Books(c, Step(c, s, TakeCompletion))
  {
    if s.completed + 1 >= s.pending {
      assert forall q | 0 <= q < c.peers :: LogOk(s.channels[q]) && Undelivered(s.channels[q]) >= 0;
      AllNonNegative(s.channels);
      if c.peers > 0 { NothingLeft(s.channels, 0); } else { assert TotalUndelivered(s.channels) == 0; }
      forall p | 0 <= p < c.peers ensures Unused(s.channels[p], 0) { NothingLeft(s.channels, p); }
    }
  }

  /** An action on one channel that keeps its log. */
  lemma ChannelStepKeepsBooks(c: Config, s: Node, p: nat, ch': Channel, gained: nat)
    requires Books(c, s) && p < c.peers && |ch'.ring| == c.nslots
    requires ch'.log == s.channels[p].log && ch'.sent == s.channels[p].sent && ch'.head == s.channels[p].head
    requires s.channels[p].cursor <= ch'.cursor <= |ch'.log|
    requires Undelivered(ch') == Undelivered(s.channels[p]) - gained
    ensures Books(c, s.(channels := s.channels[p := ch'], cq := s.cq + gained))
  {
    TotalOfUpdate(s.channels, p, ch');
    assert LogOk(s.channels[p]) && Unused(s.channels[p], s.stagingIdx);
  }

  lemma NetKeepsBooks(c: Config, s: Node, ev: Event)
    requires Books(c, s) && Enabled(c, s, ev) && (ev.Word? || ev.BodyDone? || ev.ReleaseDone?)
    ensures Books(c, Step(c, s, ev))
  {
    var ch, p := s.channels[ev.p], ev.p;
    assert LogOk(ch);
    CursorParity(ch);
    if ev.Word? {
      ChannelStepKeepsBooks(c, s, p, WordLanded(c, ch, s.staging, ev.w), 0);
    } else if ev.BodyDone? {
      ChannelStepKeepsBooks(c, s, p, ch.(cursor := ch.cursor + 1, got := {}), 0);
    } else {
      ChannelStepKeepsBooks(c, s, p, ReleaseLanded(c, ch, s.staging), 1);
    }
  }

  lemma ReceiverKeepsBooks(c: Config, s: Node, ev: Event)
    requires Books(c, s) && Enabled(c, s, ev) && (ev.Poll? || ev.Handle?)
    ensures Books(c, Step(c, s, ev))
  {
    var ch := s.channels[ev.p];
    assert LogOk(ch);
    if ev.Poll? { ChannelStepKeepsBooks(c, s, ev.p, ch.(handling := true), 0); }
    else { ChannelStepKeepsBooks(c, s, ev.p, Handled(c, ch), 0); }
  }

  lemma StepKeepsBooks(c: Config, s: Node, ev: Event)
    requires Books(c, s) && Enabled(c, s, ev)
    ensures Books(c, Step(c, s, ev))
  {
    match ev
    case Send(p, words) => SendKeepsBooks(c, s, p, words);
    case StartWait =>
    case TakeCompletion => CompletionKeepsBooks(c, s);
    case Word(_, _) => NetKeepsBooks(c, s, ev);
    case BodyDone(_) => NetKeepsBooks(c, s, ev);
    case ReleaseDone(_) => NetKeepsBooks(c, s, ev);
    case Poll(_) => ReceiverKeepsBooks(c, s, ev);
    case Handle(_) => ReceiverKeepsBooks(c, s, ev);
  }

  lemma InitBooks(c: Config)
    requires c.nslots >= 1
    ensures Books(c, Init(c))
  {
    NothingAtFirst(Init(c).channels);
  }

  // ---------------------------------------------------------------- a message that stays buried

  /** The slot the receiver waits on holds, and can only ever again receive, later numbers. */
  ghost predicate Hopeless(c: Config, ch: Channel, staging: seq<Slot>)
    requires c.nslots >= 1 && |ch.ring| == c.nslots && |staging| == c.pool
  {
    && ch.expected == 1 && ch.consumed == [] && !ch.handling && ch.head >= 2
    && ch.ring[SlotOf(1, c.nslots)].seqNo >= 2
    && forall i | ch.cursor <= i < |ch.log| :: OpFits(c, ch.log[i]) && staging[ch.log[i].stage].seqNo >= 2
  }

  ghost predicate Buried(c: Config, s: Node, p: nat) {
    Books(c, s) && p < c.peers && Hopeless(c, s.channels[p], s.staging)
  }

  lemma SendStaysHopeless(c: Config, s: Node, p: nat, ev: Event)
    requires Buried(c, s, p) && Enabled(c, s, ev) && ev.Send? && Shape(c, Step(c, s, ev))
    ensures Hopeless(c, Step(c, s, ev).channels[p], Step(c, s, ev).staging)
  {
    assert Unused(s.channels[p], s.stagingIdx);
  }

  lemma NetStaysHopeless(c: Config, s: Node, p: nat, ev: Event)
    requires Buried(c, s, p) && Enabled(c, s, ev) && Shape(c, Step(c, s, ev))
    requires ev.Word? || ev.BodyDone? || ev.ReleaseDone?
    ensures Hopeless(c, Step(c, s, ev).channels[p], Step(c, s, ev).staging)
  {
  }

  lemma OthersStayHopeless(c: Config, s: Node, p: nat, ev: Event)
    requires Buried(c, s, p) && Enabled(c, s, ev) && Shape(c, Step(c, s, ev))
    requires ev.StartWait? || ev.TakeCompletion? || ev.Poll? || ev.Handle?
    ensures Hopeless(c, Step(c, s, ev).channels[p], Step(c, s, ev).staging)
  {
  }

  lemma BuriedStays(c: Config, s: Node, p: nat, ev: Event)
    requires Buried(c, s, p)
    ensures Buried(c, Next(c, s, ev), p)
  {
    if Enabled(c, s, ev) {
      StepKeepsBooks(c, s, ev);
      if ev.Send? { SendStaysHopeless(c, s, p, ev); }
      else if ev.Word? || ev.BodyDone? || ev.ReleaseDone? { NetStaysHopeless(c, s, p, ev); }
      else { OthersStayHopeless(c, s, p, ev); }
    }
  }

  lemma Extend(c: Config, schedule: seq<Event>, s: Node, ev: Event) returns (longer: seq<Event>, s': Node)
    requires s == Run(c, schedule)
    ensures longer == schedule + [ev] && s' == Next(c, s, ev) == Run(c, longer)
    ensures forall w :: KeepsBound(c, schedule, w) && (Shape(c, s) ==> OpenBelow(c, s, ev, w))
              ==> KeepsBound(c, longer, w)
  {
    longer, s' := schedule + [ev], Next(c, s, ev);
    assert longer[..|longer| - 1] == schedule;
  }

  lemma {:induction false} BuriedForever(c: Config, schedule: seq<Event>, s0: Node, p: nat, more: seq<Event>)
      returns (s: Node)
    requires s0 == Run(c, schedule) && Buried(c, s0, p)
    ensures s == Run(c, schedule + more) && Buried(c, s, p)
  {
    if more == [] {
      s := s0;
      assert schedule + more == schedule;
    } else {
      var front, ev := more[..|more| - 1], more[|more| - 1];
      var s1 := BuriedForever(c, schedule, s0, p, front);
      BuriedStays(c, s1, p, ev);
      var longer;
      longer, s := Extend(c, schedule + front, s1, ev);
      assert schedule + more == (schedule + front) + [ev];
    }
  }

  // ---------------------------------------------------------------- flooding a channel

  /** `n` messages sent on channel p, of which all but `open` (none or one) have been executed and waited
      for; of an open one's body the first `w` words are there. None has been consumed. */
  ghost predicate Flood(c: Config, s: Node, p: nat, n: nat, open: nat, w: nat) {
    && Books(c, s) && p < c.peers && open <= 1 && open <= n
    && s.stagingIdx == s.pending == open && s.cq == 0 && !s.waiting
    && var ch := s.channels[p];
       && ch.head == n + 1 && ch.cursor == 2 * (n - open)
       && ch.expected == 1 && ch.consumed == [] && !ch.handling
       && (forall x :: x in ch.got <==> 0 <= x < w)
       && (if open == 0 then n >= 1 ==> ch.ring[SlotOf(n, c.nslots)].seqNo == n
           else ch.log[2 * n - 2] == Body(SlotOf(n, c.nslots), 0) && ch.log[2 * n - 1] == Release(SlotOf(n, c.nslots), 0)
                && s.staging[0].seqNo == n)
  }

  lemma FloodSend(c: Config, s: Node, p: nat, words: Words, n: nat, next: nat)
    requires Flood(c, s, p, n, 0, 0) && c.pool >= 1 && next == n + 1
    ensures Flood(c, Next(c, s, Send(p, words)), p, next, 1, 0)
  {
    SendKeepsBooks(c, s, p, words);
  }

  lemma FloodWord(c: Config, s: Node, p: nat, n: nat, w: nat, next: nat)
    requires Flood(c, s, p, n, 1, w) && w < WORDS && next == w + 1
    ensures Flood(c, Next(c, s, Word(p, w)), p, n, 1, next)
  {
    var ch := s.channels[p];
    assert LogOk(ch) && ch.log[ch.cursor] == Body(SlotOf(n, c.nslots), 0);
    assert Enabled(c, s, Word(p, w));
    NetKeepsBooks(c, s, Word(p, w));
  }

  /** The open message is executed, its completion waited for and the pool freed. */
  lemma FloodSettle(c: Config, s: Node, p: nat, n: nat)
    requires Flood(c, s, p, n, 1, WORDS)
    ensures var s1 := Next(c, s, BodyDone(p));
            var s2 := Next(c, s1, ReleaseDone(p));
            var s3 := Next(c, s2, StartWait);
            Flood(c, Next(c, s3, TakeCompletion), p, n, 0, 0)
  {
    assert LogOk(s.channels[p]);
    var s1 := Step(c, s, BodyDone(p));
    StepKeepsBooks(c, s, BodyDone(p));
    var s2 := Step(c, s1, ReleaseDone(p));
    StepKeepsBooks(c, s1, ReleaseDone(p));
    var s3 := Step(c, s2, StartWait);
    StepKeepsBooks(c, s2, StartWait);
    StepKeepsBooks(c, s3, TakeCompletion);
  }

  lemma {:induction false} SomeWords(c: Config, before: seq<Event>, s0: Node, p: nat, n: nat, w: nat)
    returns (schedule: seq<Event>, s: Node)
    requires s0 == Run(c, before) && Flood(c, s0, p, n, 1, 0) && w <= WORDS
    ensures s == Run(c, schedule) && Flood(c, s, p, n, 1, w)
    ensures forall b :: KeepsBound(c, before, b) ==> KeepsBound(c, schedule, b)
  {
    if w == 0 {
      schedule, s := before, s0;
    } else {
      var sofar, s1 := SomeWords(c, before, s0, p, n, w - 1);
      FloodWord(c, s1, p, n, w - 1, w);
      schedule, s := Extend(c, sofar, s1, Word(p, w - 1));
    }
  }

  lemma Settle(c: Config, before: seq<Event>, s0: Node, p: nat, n: nat) returns (schedule: seq<Event>, s: Node)
    requires s0 == Run(c, before) && Flood(c, s0, p, n, 1, WORDS)
    ensures s == Run(c, schedule) && Flood(c, s, p, n, 0, 0)
    ensures forall b :: KeepsBound(c, before, b) ==> KeepsBound(c, schedule, b)
  {
    FloodSettle(c, s0, p, n);
    schedule, s := Extend(c, before, s0, BodyDone(p));
    schedule, s := Extend(c, schedule, s, ReleaseDone(p));
    schedule, s := Extend(c, schedule, s, StartWait);
    schedule, s := Extend(c, schedule, s, TakeCompletion);
  }

  /** `n` messages one after the other, each waited for, with never more than `n` unconsumed. */
  lemma {:induction false} SendMany(c: Config, words: Words, p: nat, n: nat) returns (schedule: seq<Event>, s: Node)
    requires c.nslots >= 1 && p < c.peers && c.pool >= 1
    ensures s == Run(c, schedule) && Flood(c, s, p, n, 0, 0)
    ensures forall b :: b >= n ==> KeepsBound(c, schedule, b)
  {
    if n == 0 {
      schedule, s := [], Init(c);
      InitBooks(c);
    } else {
      var before, s0 := SendMany(c, words, p, n - 1);
      var posted, s1 := SendOne(c, words, before, s0, p, n - 1, n);
      schedule, s := Execute(c, posted, s1, p, n);
    }
  }

  lemma Execute(c: Config, before: seq<Event>, s0: Node, p: nat, n: nat) returns (schedule: seq<Event>, s: Node)
    requires s0 == Run(c, before) && Flood(c, s0, p, n, 1, 0)
    ensures s == Run(c, schedule) && Flood(c, s, p, n, 0, 0)
    ensures forall b :: KeepsBound(c, before, b) ==> KeepsBound(c, schedule, b)
  {
    var landed, s1 := SomeWords(c, before, s0, p, n, WORDS);
    schedule, s := Settle(c, landed, s1, p, n);
  }

  lemma SendOne(c: Config, words: Words, before: seq<Event>, s0: Node, p: nat, n: nat, next: nat)
    returns (schedule: seq<Event>, s: Node)
    requires s0 == Run(c, before) && Flood(c, s0, p, n, 0, 0) && c.pool >= 1 && next == n + 1
    ensures s == Run(c, schedule) && Flood(c, s, p, next, 1, 0)
    ensures forall b :: b >= next && KeepsBound(c, before, b) ==> KeepsBound(c, schedule, b)
  {
    FloodSend(c, s0, p, words, n, next);
    schedule, s := Extend(c, before, s0, Send(p, words));
  }

  lemma SlotWraps(c: Config)
    requires c.Valid()
    ensures SlotOf(c.nslots + 1, c.nslots) == SlotOf(1, c.nslots)
  {
    var k: nat :| c.nslots == Pow2(k);
    MaskKeepsLowBits(1, k);
    MaskKeepsLowBits(c.nslots + 1, k);
    if c.nslots > 1 { Arithmetic.DivisionUnique(c.nslots + 1, c.nslots, 1, 1); }
  }

  lemma FloodBuries(c: Config, s: Node, p: nat)
    requires c.Valid() && Flood(c, s, p, c.nslots + 1, 0, 0)
    ensures Buried(c, s, p)
  {
    SlotWraps(c);
  }

  /** For every ring, pool and channel: nslots + 1 messages sent and waited for before the receiver looks,
      and whatever happens afterwards, no message of that channel is ever consumed. */
  lemma OverrunLosesEverything(c: Config, words: Words, p: nat) returns (schedule: seq<Event>)
    requires c.Valid() && p < c.peers && c.pool >= 1
    ensures KeepsBound(c, schedule, c.nslots + 1)
    ensures forall more :: |Run(c, schedule + more).channels| == c.peers
    ensures forall more :: Run(c, schedule + more).channels[p].consumed == []
    ensures |Run(c, schedule).channels| == c.peers && Run(c, schedule).channels[p].head == c.nslots + 2
  {
    var s;
    schedule, s := SendMany(c, words, p, c.nslots + 1);
    FloodBuries(c, s, p);
    forall more
      ensures |Run(c, schedule + more).channels| == c.peers && Run(c, schedule + more).channels[p].consumed == []
    {
      var s' := BuriedForever(c, schedule, s, p, more);
    }
  }

  // ---------------------------------------------------------------- the exact window

  /** Neither the network nor the receiver can do anything more on channel p. */
  ghost predicate AtRest(c: Config, s: Node, p: nat)
    requires Shape(c, s) && p < c.peers
  {
    && !Enabled(c, s, BodyDone(p)) && !Enabled(c, s, ReleaseDone(p))
    && !Enabled(c, s, Poll(p)) && !Enabled(c, s, Handle(p))
    && forall w :: !Enabled(c, s, Word(p, w))
  }

  /** At rest, everything sent on channel p has been consumed. */
  ghost predicate Delivers(c: Config, s: Node, p: nat) {
    Shape(c, s) && p < c.peers && (AtRest(c, s, p) ==> s.channels[p].consumed == s.channels[p].sent)
  }

  lemma {:induction false} SmallerBound(c: Config, schedule: seq<Event>, w: nat)
    requires KeepsBound(c, schedule, w) && w <= c.nslots
    ensures KeepsWindow(c, schedule)
  {
    if schedule != [] { SmallerBound(c, schedule[..|schedule| - 1], w); }
  }

  lemma {:induction false} NoPoolNoSend(c: Config, schedule: seq<Event>)
    requires c.Valid() && c.pool == 0
    ensures KeepsWindow(c, schedule) && Inv(c, Run(c, schedule))
    ensures forall p | 0 <= p < c.peers :: Run(c, schedule).channels[p].sent == []
  {
    if schedule != [] {
      NoPoolNoSend(c, schedule[..|schedule| - 1]);
      var s, ev := Run(c, schedule[..|schedule| - 1]), schedule[|schedule| - 1];
      assert forall p | 0 <= p < c.peers :: ChannelOk(c, s.channels[p], s.staging, s.stagingIdx);
    }
    RunInv(c, schedule);
  }

  /** A flooded channel at rest still has everything to consume. */
  lemma FloodDoesNotDeliver(c: Config, s: Node, p: nat, n: nat)
    requires Flood(c, s, p, n, 0, 0) && Buried(c, s, p) && n >= 1
    ensures !Delivers(c, s, p)
  {
    assert LogOk(s.channels[p]);
  }

  /** Bounding what is unconsumed by w guarantees delivery on channel p exactly for w up to the number of
      slots. (Without a staging pool nothing can be sent.) */
  lemma WindowBoundExact(c: Config, p: nat, w: nat)
    requires c.Valid() && p < c.peers
    ensures (forall schedule | KeepsBound(c, schedule, w) :: Delivers(c, Run(c, schedule), p))
            <==> w <= c.nslots || c.pool == 0
  {
    if w <= c.nslots || c.pool == 0 {
      forall schedule | KeepsBound(c, schedule, w) ensures Delivers(c, Run(c, schedule), p) {
        if c.pool == 0 { NoPoolNoSend(c, schedule); } else { SmallerBound(c, schedule, w); }
        RunInv(c, schedule);
        if AtRest(c, Run(c, schedule), p) { NothingIsLost(c, schedule, p); }
      }
    } else {
      var schedule, s := SendMany(c, [0, 0, 0, 0, 0, 0, 0], p, c.nslots + 1);
      FloodBuries(c, s, p);
      FloodDoesNotDeliver(c, s, p, c.nslots + 1);
    }
  }
}
