/** What the calls emulated on the store return, for every program and every interleaving. */
module Pmi2Calls {
  import opened Wrappers
  import opened HexBlob
  import opened KvsKeys
  import opened Pmi2Store

  /** Short enough to be read back. */
  predicate Small(c: Config, data: Bytes) { 2 * |data| + (if c.countsNul then 1 else 0) < LIMIT }

  // ---------------------------------------------------------------- reading the store

  lemma ReadPublished(c: Config, s: State, g: nat, r: nat, k: nat)
    requires Inv(c, s, g) && r < c.size && k < g && PutKey(c, r, k).Some?
    ensures Read(c, s, PutKey(c, r, k).value) ==
              if Small(c, PutData(c, r, k)) then Blob(PutData(c, r, k)) else TooLong
  {
    assert Stored(c, s.committed, r, k);
    FetchOfPublished(PutData(c, r, k), c.countsNul);
  }

  lemma ReadMissing(c: Config, s: State, g: nat, key: string)
    requires Inv(c, s, g) && forall r: nat, k: nat :: k < g ==> !Origin(c, r, k, key)
    ensures Read(c, s, key) == NoKey
  {
  }

  // ---------------------------------------------------------------- point to point

  /** The column before k in which rank r sends with counter value n. */
  function NthSend(c: Config, r: nat, p: Pair, n: nat, k: nat): (j: nat)
    requires c.Valid() && r < c.size && k <= |c.program| && p.src == r && p.dst != r && SeqAt(c, r, p, k) > n
    ensures j < k && SeqAt(c, r, p, j) == n && Sends(c.program[j][r], r, p)
  {
    if SeqAt(c, r, p, k - 1) > n then NthSend(c, r, p, n, k - 1) else k - 1
  }

  /** What a receive under counter `p` at value n returns in column k: the n-th message of that sender,
      if it was sent in this column or before. A rank never gets a message from itself. */
  function P2pOutcome(c: Config, p: Pair, n: nat, k: nat, len: nat): Outcome
    requires c.Valid() && k < |c.program|
  {
    if p.src >= c.size || p.src == p.dst || SeqAt(c, p.src, p, k + 1) <= n then Threw
    else
      var j := NthSend(c, p.src, p, n, k + 1);
      var data := c.program[j][p.src].data;
      if Small(c, data) && |data| == len then Received(data) else Threw
  }

  /** The counter and length a receiving call goes by. */
  function RecvPair(op: Op, r: nat): Pair
    requires op.Recv? || op.SendRecv?
  {
    Pair(if op.Recv? then op.src else op.peer, r, op.tag)
  }

  function RecvLen(op: Op): nat
    requires op.Recv? || op.SendRecv?
  {
    if op.Recv? then op.len else |op.data|
  }

  /** What the receiving call of rank r in column k should return. */
  function Expected(c: Config, r: nat, k: nat): Outcome
    requires c.Valid() && r < c.size && k < |c.program| && (c.program[k][r].Recv? || c.program[k][r].SendRecv?)
  {
    var p := RecvPair(c.program[k][r], r);
    P2pOutcome(c, p, SeqAt(c, r, p, k), k, RecvLen(c.program[k][r]))
  }

  /** The only column that publishes a point-to-point key is the sender's n-th. */
  lemma P2pOrigin(c: Config, p: Pair, n: nat, r: nat, k: nat)
    requires c.Valid() && Origin(c, r, k, P2pKey(n, p))
    ensures r == p.src && SeqAt(c, r, p, k) == n && Sends(c.program[k][r], r, p)
  {
    var op := c.program[k][r];
    KindsDiffer();
    SameKey(SeqAt(c, r, SendPair(op, r), k), SendPair(op, r), n, p);
  }

  lemma ReadP2p(c: Config, s: State, g: nat, p: Pair, n: nat, len: nat)
    requires Inv(c, s, g) && g >= 1 && p.src != p.dst
    ensures ReadBytes(c, s, P2pKey(n, p), len) == P2pOutcome(c, p, n, g - 1, len)
  {
    var key := P2pKey(n, p);
    if p.src < c.size && SeqAt(c, p.src, p, g) > n {
      var j := NthSend(c, p.src, p, n, g);
      assert SendPair(c.program[j][p.src], p.src) == p;
      ReadPublished(c, s, g, p.src, j);
    } else {
      forall r: nat, k: nat | k < g ensures !Origin(c, r, k, key) {
        if Origin(c, r, k, key) {
          P2pOrigin(c, p, n, r, k);
          SeqGrows(c, r, p, k + 1, g);
        }
      }
      ReadMissing(c, s, g, key);
    }
  }

  /** A rank's own sends and receives share one counter, so the value a receive takes was never published. */
  lemma ReadFromSelf(c: Config, s: State, g: nat, r: nat, p: Pair, n: nat, len: nat)
    requires Inv(c, s, g) && g >= 1 && r < c.size && p.src == r && p.dst == r
    requires n == SeqAt(c, r, p, g - 1) + if c.program[g - 1][r].SendRecv? then 1 else 0
    requires c.program[g - 1][r].Recv? || Uses(c.program[g - 1][r], r, p) == 2
    ensures ReadBytes(c, s, P2pKey(n, p), len) == Threw
  {
    var key := P2pKey(n, p);
    forall q: nat, k: nat | k < g ensures !Origin(c, q, k, key) {
      if Origin(c, q, k, key) {
        P2pOrigin(c, p, n, q, k);
        if k < g - 1 { SeqGrows(c, q, p, k + 1, g - 1); }
      }
    }
    ReadMissing(c, s, g, key);
  }

  /** The outcome of every receive and exchange, in every reachable state of every program: the message
      that the counters name, or an error if it has not been published, has another length, is too
      long, or comes from the rank itself. */
  lemma ReceiveOutcome(c: Config, s: State, g: nat, r: nat)
    requires Inv(c, s, g) && Enabled(c, s, Get(r))
    ensures var op := CurrentOp(c, r, s.ranks[r]);
            op.Recv? || op.SendRecv? ==> GetPart(c, s, r, s.ranks[r]).0 == Expected(c, r, s.ranks[r].col)
  {
    var rk := s.ranks[r];
    var op := CurrentOp(c, r, rk);
    assert RankOk(c, r, rk, g);
    if op.Recv? || op.SendRecv? {
      var p := RecvPair(op, r);
      assert Counter(rk.seqs, p) == SeqNow(c, r, rk, p);
      var n := if op.Recv? then SeqAt(c, r, p, rk.col) else rk.ticket;
      if p.src == r { ReadFromSelf(c, s, g, r, p, n, RecvLen(op)); } else { ReadP2p(c, s, g, p, n, RecvLen(op)); }
    }
  }

  // ---------------------------------------------------------------- collectives

  /** All ranks make the same collective in the same column. */
  ghost predicate Uniform(c: Config) {
    && c.Valid()
    && forall k, r, q | 0 <= k < |c.program| && 0 <= r < c.size && 0 <= q < c.size ::
         SameCollective(c.program[k][r], c.program[k][q])
  }

  predicate SameCollective(a: Op, b: Op) {
    && a.AllGather? == b.AllGather? && a.Broadcast? == b.Broadcast?
    && (a.Broadcast? && b.Broadcast? ==> a.root == b.root && |a.data| == |b.data|)
  }

  lemma {:induction false} EpochsAgree(c: Config, r: nat, q: nat, k: nat)
    requires Uniform(c) && r < c.size && q < c.size && k <= |c.program|
    ensures Epoch(c, r, k) == Epoch(c, q, k)
  {
    if k > 0 {
      EpochsAgree(c, r, q, k - 1);
      assert SameCollective(c.program[k - 1][r], c.program[k - 1][q]);
    }
  }

  /** The data of ranks 0..n-1 in column k, in rank order. */
  function Column(c: Config, k: nat, n: nat): (blobs: seq<Bytes>)
    requires c.Valid() && k < |c.program| && n <= c.size
    requires forall r | 0 <= r < n :: c.program[k][r].AllGather?
    ensures |blobs| == n && forall r | 0 <= r < n :: blobs[r] == c.program[k][r].data
  {
    seq(n, r requires 0 <= r < n => c.program[k][r].data)
  }

  /** Column k is an all-gather of data that fits. */
  predicate GathersSmall(c: Config, k: nat)
    requires c.Valid() && k < |c.program|
  {
    forall q | 0 <= q < c.size :: c.program[k][q].AllGather? && Small(c, c.program[k][q].data)
  }

  lemma ReadColumn(c: Config, s: State, g: nat, k: nat, r: nat, q: nat)
    requires Inv(c, s, g) && k < g && Uniform(c) && r < c.size && q < c.size && GathersSmall(c, k)
    ensures Read(c, s, AgKey(Epoch(c, r, k), q)) == Blob(c.program[k][q].data)
  {
    EpochsAgree(c, r, q, k);
    ReadPublished(c, s, g, q, k);
  }

  lemma {:induction false} GatherReadsAll(c: Config, s: State, epoch: nat, blobs: seq<Bytes>, n: nat)
    requires n <= |blobs| && forall q: nat | q < n :: Read(c, s, AgKey(epoch, q)) == Blob(blobs[q])
    ensures Gather(c, s, epoch, n) == Some(blobs[..n])
  {
    if n > 0 {
      GatherReadsAll(c, s, epoch, blobs, n - 1);
      assert blobs[..n] == blobs[..n - 1] + [blobs[n - 1]];
    }
  }

  lemma GatherIsColumn(c: Config, s: State, g: nat, k: nat, r: nat)
    requires Inv(c, s, g) && k < g && Uniform(c) && r < c.size && GathersSmall(c, k)
    ensures Gather(c, s, Epoch(c, r, k), c.size) == Some(Column(c, k, c.size))
  {
    var blobs := Column(c, k, c.size);
    forall q: nat | q < c.size ensures Read(c, s, AgKey(Epoch(c, r, k), q)) == Blob(blobs[q]) {
      ReadColumn(c, s, g, k, r, q);
    }
    GatherReadsAll(c, s, Epoch(c, r, k), blobs, c.size);
    assert blobs[..c.size] == blobs;
  }

  lemma BroadcastIsRoots(c: Config, s: State, g: nat, k: nat, r: nat, root: nat)
    requires Inv(c, s, g) && k < g && Uniform(c) && r < c.size && root < c.size && r != root
    requires c.program[k][r].Broadcast? && c.program[k][r].root == root
    requires c.program[k][root].Broadcast? && Small(c, c.program[k][root].data)
    ensures ReadBytes(c, s, BcKey(Epoch(c, r, k), root), |c.program[k][r].data|) == Received(c.program[k][root].data)
  {
    assert SameCollective(c.program[k][r], c.program[k][root]);
    EpochsAgree(c, r, root, k);
    ReadPublished(c, s, g, root, k);
  }

  // ---------------------------------------------------------------- aligned programs

  /** The call of rank r in column k has what it needs: data that fits, a root that exists, and for a
      receive a message sent no later than this column, of the length asked for. */
  ghost predicate CallOk(c: Config, r: nat, k: nat)
    requires c.Valid() && r < c.size && k < |c.program|
  {
    match c.program[k][r]
    case AllGather(data) => Small(c, data)
    case Broadcast(root, data) => root < c.size && Small(c, data)
    case Recv(_, _, _) => Expected(c, r, k).Received?
    case SendRecv(_, _, _) => Expected(c, r, k).Received?
    case _ => true
  }

  ghost predicate Aligned(c: Config) {
    && Uniform(c) && c.size > 0
    && forall k, r | 0 <= k < |c.program| && 0 <= r < c.size :: CallOk(c, r, k)
  }

  ghost predicate OutcomeOk(c: Config, r: nat, k: nat, o: Outcome)
    requires c.Valid() && r < c.size && k < |c.program|
  {
    match c.program[k][r]
    case Barrier => o == Nothing
    case Send(_, _, _) => o == Nothing
    case AllGather(_) =>
      (forall q | 0 <= q < c.size :: c.program[k][q].AllGather?) && o == Gathered(Column(c, k, c.size))
    case Broadcast(root, _) =>
      root < c.size && c.program[k][root].Broadcast? && o == Received(c.program[k][root].data)
    case Recv(_, _, _) => o == Expected(c, r, k)
    case SendRecv(_, _, _) => o == Expected(c, r, k)
  }

  lemma GatherSucceeds(c: Config, s: State, g: nat, r: nat)
    requires Aligned(c) && Inv(c, s, g) && Enabled(c, s, Get(r)) && CurrentOp(c, r, s.ranks[r]).AllGather?
    ensures OutcomeOk(c, r, s.ranks[r].col, GetPart(c, s, r, s.ranks[r]).0)
  {
    var k := s.ranks[r].col;
    assert RankOk(c, r, s.ranks[r], g);
    forall q | 0 <= q < c.size ensures c.program[k][q].AllGather? && Small(c, c.program[k][q].data) {
      assert SameCollective(c.program[k][r], c.program[k][q]) && CallOk(c, q, k);
    }
    GatherIsColumn(c, s, g, k, r);
  }

  lemma BroadcastSucceeds(c: Config, s: State, g: nat, r: nat)
    requires Aligned(c) && Inv(c, s, g) && Enabled(c, s, Get(r)) && CurrentOp(c, r, s.ranks[r]).Broadcast?
    ensures OutcomeOk(c, r, s.ranks[r].col, GetPart(c, s, r, s.ranks[r]).0)
  {
    var k, op := s.ranks[r].col, CurrentOp(c, r, s.ranks[r]);
    assert RankOk(c, r, s.ranks[r], g) && CallOk(c, r, k);
    assert SameCollective(op, c.program[k][op.root]) && CallOk(c, op.root, k);
    if r != op.root { BroadcastIsRoots(c, s, g, k, r, op.root); }
  }

  lemma GetSucceeds(c: Config, s: State, g: nat, r: nat)
    requires Aligned(c) && Inv(c, s, g) && Enabled(c, s, Get(r))
    ensures var o := GetPart(c, s, r, s.ranks[r]).0; !o.Threw? && OutcomeOk(c, r, s.ranks[r].col, o)
  {
    var op := CurrentOp(c, r, s.ranks[r]);
    if op.AllGather? {
      GatherSucceeds(c, s, g, r);
    } else if op.Broadcast? {
      BroadcastSucceeds(c, s, g, r);
    } else {
      assert CallOk(c, r, s.ranks[r].col);
      ReceiveOutcome(c, s, g, r);
    }
  }

  ghost predicate ResultsOk(c: Config, s: State)
    requires c.Valid() && |s.ranks| == c.size
  {
    forall r | 0 <= r < c.size ::
      && !s.ranks[r].phase.Halted? && |s.ranks[r].out| <= |c.program|
      && forall k | 0 <= k < |s.ranks[r].out| :: OutcomeOk(c, r, k, s.ranks[r].out[k])
  }

  /** In an aligned program no call ever fails, whatever the interleaving, and every call returns what it
      would in a program with real messages: the data of all ranks in rank order, the root's data,
      the matching message. */
  lemma {:induction false} AlignedCallsSucceed(c: Config, schedule: seq<Event>)
    requires Aligned(c)
    ensures ResultsOk(c, Run(c, schedule))
  {
    if schedule != [] {
      var s, ev := Run(c, schedule[..|schedule| - 1]), schedule[|schedule| - 1];
      AlignedCallsSucceed(c, schedule[..|schedule| - 1]);
      var g := RunInv(c, schedule[..|schedule| - 1]);
      if Enabled(c, s, ev) && ev.Get? {
        assert RankOk(c, ev.r, s.ranks[ev.r], g);
        GetSucceeds(c, s, g, ev.r);
      }
    }
  }

  /** And no rank is left waiting: until all have made all their calls, some step is enabled. */
  lemma AlignedNeverSticks(c: Config, schedule: seq<Event>, r: nat) returns (ev: Event)
    requires Aligned(c) && r < c.size && |Run(c, schedule).ranks[r].out| < |c.program|
    ensures Enabled(c, Run(c, schedule), ev)
  {
    AlignedCallsSucceed(c, schedule);
    var g := RunInv(c, schedule);
    var s := Run(c, schedule);
    assert forall q | 0 <= q < c.size :: RankOk(c, q, s.ranks[q], g);
    if q :| 0 <= q < c.size && s.ranks[q].phase.After? {
      ev := Get(q);
    } else if q :| 0 <= q < c.size && s.ranks[q].phase.Before? && s.ranks[q].col < |c.program| {
      ev := Put(q);
    } else {
      ev := Fence;
    }
  }
}
