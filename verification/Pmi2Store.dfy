/** Collectives and point-to-point calls emulated on a put / fence / get store. Every call publishes at
    most one key, fences once, and may then read keys of other ranks. Ranks run freely between
    fences; a fence makes everything published before it visible and lets all ranks go on. */
module Pmi2Store {
  import opened Wrappers
  import opened HexBlob
  import opened KvsKeys

  type Bytes = seq<byte>

  datatype Op =
    | Barrier
    | AllGather(data: Bytes)
    | Broadcast(root: nat, data: Bytes)
    | Send(dest: nat, tag: int, data: Bytes)
    | Recv(src: nat, tag: int, len: nat)
    | SendRecv(peer: nat, tag: int, data: Bytes)

  /** `program[k][r]` is the k-th call of rank r. */
  datatype Config = Config(size: nat, program: seq<seq<Op>>, countsNul: bool) {
    predicate Valid() { forall k | 0 <= k < |program| :: |program[k]| == size }
  }

  /** Counter of messages from src to dst under a tag. */
  datatype Pair = Pair(src: nat, dst: nat, tag: int)

  datatype Outcome = Nothing | Gathered(blobs: seq<Bytes>) | Received(bytes: Bytes) | Threw

  datatype Phase = Before | AtFence | After | Halted

  /** `ticket` is the local counter value a call keeps across its fence. */
  datatype Rank = Rank(col: nat, phase: Phase, epoch: nat, seqs: map<Pair, nat>, ticket: nat, out: seq<Outcome>)

  datatype State = State(ranks: seq<Rank>, committed: map<string, string>, pending: map<string, string>)

  datatype Event = Put(r: nat) | Fence | Get(r: nat)

  // ---------------------------------------------------------------- keys

  function AgKey(epoch: nat, r: nat): string { KvsKey("ag", [epoch, r]) }
  function BcKey(epoch: nat, root: nat): string { KvsKey("bc", [epoch, root]) }
  function P2pKey(n: nat, p: Pair): string { KvsKey("p2p", [n, p.src, p.dst, p.tag]) }

  lemma TwoParts(tag: string, x: int, y: int)
    ensures KvsKey(tag, [x, y]) == "gicc." + tag + "." + ToString(x) + "." + ToString(y)
  {
    KeyText(tag, [], x);
    KeyText(tag, [x], y);
    assert [] + [x] == [x] && [x] + [y] == [x, y];
  }

  /** The keys of the collectives, part by part. */
  lemma CollectiveKeyTexts(epoch: nat, r: nat)
    ensures AgKey(epoch, r) == "gicc." + "ag" + "." + ToString(epoch) + "." + ToString(r)
    ensures BcKey(epoch, r) == "gicc." + "bc" + "." + ToString(epoch) + "." + ToString(r)
  {
    TwoParts("ag", epoch, r);
    TwoParts("bc", epoch, r);
  }

  /** The key of a message, part by part. */
  lemma MessageKeyText(n: nat, p: Pair)
    ensures var numbers: seq<int> := [n, p.src];
            P2pKey(n, p) == KvsKey("p2p", numbers) + "." + ToString(p.dst) + "." + ToString(p.tag)
    ensures var numbers: seq<int> := [n, p.src];
            KvsKey("p2p", numbers) == "gicc." + "p2p" + "." + ToString(n) + "." + ToString(p.src)
  {
    var two: seq<int>, three: seq<int> := [n, p.src], [n, p.src, p.dst];
    TwoParts("p2p", n, p.src);
    KeyText("p2p", two, p.dst);
    KeyText("p2p", three, p.tag);
    assert two + [p.dst] == three && three + [p.tag] == [n, p.src, p.dst, p.tag];
  }

  lemma SameKey(n: nat, p: Pair, n': nat, p': Pair)
    requires P2pKey(n, p) == P2pKey(n', p')
    ensures n == n' && p == p'
  {
    var xs, ys := [n, p.src, p.dst, p.tag], [n', p'.src, p'.dst, p'.tag];
    KeyInjective("p2p", xs, "p2p", ys);
    assert xs[0] == ys[0] && xs[1] == ys[1] && xs[2] == ys[2] && xs[3] == ys[3];
  }

  lemma SameAgKey(e: nat, r: nat, e': nat, r': nat)
    requires AgKey(e, r) == AgKey(e', r')
    ensures e == e' && r == r'
  {
    var xs, ys := [e, r], [e', r'];
    KeyInjective("ag", xs, "ag", ys);
    assert xs[0] == ys[0] && xs[1] == ys[1];
  }

  lemma SameBcKey(e: nat, r: nat, e': nat, r': nat)
    requires BcKey(e, r) == BcKey(e', r')
    ensures e == e' && r == r'
  {
    var xs, ys := [e, r], [e', r'];
    KeyInjective("bc", xs, "bc", ys);
    assert xs[0] == ys[0] && xs[1] == ys[1];
  }

  lemma KindsDiffer()
    ensures forall e: nat, r: nat, e': nat, r': nat :: AgKey(e, r) != BcKey(e', r')
    ensures forall e: nat, r: nat, n: nat, p: Pair :: AgKey(e, r) != P2pKey(n, p) && BcKey(e, r) != P2pKey(n, p)
  {
    forall e: nat, r: nat, e': nat, r': nat ensures AgKey(e, r) != BcKey(e', r') {
      if AgKey(e, r) == BcKey(e', r') { KeyInjective("ag", [e, r], "bc", [e', r']); }
    }
    forall e: nat, r: nat, n: nat, p: Pair ensures AgKey(e, r) != P2pKey(n, p) && BcKey(e, r) != P2pKey(n, p) {
      if AgKey(e, r) == P2pKey(n, p) { KeyInjective("ag", [e, r], "p2p", [n, p.src, p.dst, p.tag]); }
      if BcKey(e, r) == P2pKey(n, p) { KeyInjective("bc", [e, r], "p2p", [n, p.src, p.dst, p.tag]); }
    }
  }

  // ---------------------------------------------------------------- actions

  function Counter(seqs: map<Pair, nat>, p: Pair): nat { if p in seqs then seqs[p] else 0 }

  function Bump(seqs: map<Pair, nat>, p: Pair): map<Pair, nat> { seqs[p := Counter(seqs, p) + 1] }

  function CurrentOp(c: Config, r: nat, rk: Rank): Op
    requires c.Valid() && r < c.size && rk.col < |c.program|
  {
    c.program[rk.col][r]
  }

  /** The half of a call before its fence: counters advanced, and what is published. */
  function PutPart(c: Config, r: nat, rk: Rank): (Rank, Option<(string, Bytes)>)
    requires c.Valid() && r < c.size && rk.col < |c.program|
  {
    var rk' := rk.(phase := AtFence);
    match CurrentOp(c, r, rk)
    case Barrier => (rk', None)
    case AllGather(data) =>
      (rk'.(epoch := rk.epoch + 1, ticket := rk.epoch), Some((AgKey(rk.epoch, r), data)))
    case Broadcast(root, data) =>
      (rk'.(epoch := rk.epoch + 1, ticket := rk.epoch), if r == root then Some((BcKey(rk.epoch, root), data)) else None)
    case Send(dest, tag, data) =>
      var p := Pair(r, dest, tag);
      (rk'.(seqs := Bump(rk.seqs, p)), Some((P2pKey(Counter(rk.seqs, p), p), data)))
    case Recv(_, _, _) => (rk', None)
    case SendRecv(peer, tag, data) =>
      var p, back := Pair(r, peer, tag), Pair(peer, r, tag);
      var seqs := Bump(rk.seqs, p);
      (rk'.(seqs := Bump(seqs, back), ticket := Counter(seqs, back)), Some((P2pKey(Counter(rk.seqs, p), p), data)))
  }

  function Read(c: Config, s: State, key: string): Fetched {
    FetchSpec(if key in s.committed then Some(s.committed[key]) else None, c.countsNul)
  }

  function ReadBytes(c: Config, s: State, key: string, len: nat): Outcome {
    match Read(c, s, key)
    case Blob(bytes) => if |bytes| == len then Received(bytes) else Threw
    case _ => Threw
  }

  /** The blobs of ranks 0..n-1, if all can be read. */
  function Gather(c: Config, s: State, epoch: nat, n: nat): Option<seq<Bytes>> {
    if n == 0 then Some([])
    else
      match (Gather(c, s, epoch, n - 1), Read(c, s, AgKey(epoch, n - 1)))
      case (Some(front), Blob(bytes)) => Some(front + [bytes])
      case _ => None
  }

  /** The half of a call after its fence. */
  function GetPart(c: Config, s: State, r: nat, rk: Rank): (Outcome, map<Pair, nat>)
    requires c.Valid() && r < c.size && rk.col < |c.program|
  {
    match CurrentOp(c, r, rk)
    case AllGather(_) =>
      (match Gather(c, s, rk.ticket, c.size) case Some(blobs) => Gathered(blobs) case None => Threw, rk.seqs)
    case Broadcast(root, data) =>
      (if r == root then Received(data) else ReadBytes(c, s, BcKey(rk.ticket, root), |data|), rk.seqs)
    case Recv(src, tag, len) =>
      var p := Pair(src, r, tag);
      (ReadBytes(c, s, P2pKey(Counter(rk.seqs, p), p), len), Bump(rk.seqs, p))
    case SendRecv(peer, tag, data) => (ReadBytes(c, s, P2pKey(rk.ticket, Pair(peer, r, tag)), |data|), rk.seqs)
    case _ => (Nothing, rk.seqs)
  }

  predicate Enabled(c: Config, s: State, ev: Event)
    requires |s.ranks| == c.size
  {
    match ev
    case Put(r) => r < c.size && s.ranks[r].phase.Before? && s.ranks[r].col < |c.program|
    case Fence => forall r | 0 <= r < c.size :: s.ranks[r].phase.AtFence?
    case Get(r) => r < c.size && s.ranks[r].phase.After? && s.ranks[r].col < |c.program|
  }

  function Passed(ranks: seq<Rank>): (ranks': seq<Rank>)
    ensures |ranks'| == |ranks| && forall r | 0 <= r < |ranks| :: ranks'[r] == ranks[r].(phase := After)
  {
    seq(|ranks|, r requires 0 <= r < |ranks| => ranks[r].(phase := After))
  }

  function Step(c: Config, s: State, ev: Event): State
    requires c.Valid() && |s.ranks| == c.size && Enabled(c, s, ev)
  {
    match ev
    case Put(r) =>
      var (rk', entry) := PutPart(c, r, s.ranks[r]);
      State(s.ranks[r := rk'], s.committed,
            match entry case None => s.pending case Some(kv) => s.pending[kv.0 := Hex(kv.1)])
    case Fence => State(Passed(s.ranks), s.committed + s.pending, map[])
    case Get(r) =>
      var rk := s.ranks[r];
      var (o, seqs) := GetPart(c, s, r, rk);
      s.(ranks := s.ranks[r := if o.Threw? then rk.(phase := Halted, seqs := seqs)
                               else rk.(phase := Before, col := rk.col + 1, seqs := seqs, out := rk.out + [o])])
  }

  function Init(c: Config): State {
    State(seq(c.size, r => Rank(0, Before, 0, map[], 0, [])), map[], map[])
  }

  function Next(c: Config, s: State, ev: Event): State {
    if c.Valid() && |s.ranks| == c.size && Enabled(c, s, ev) then Step(c, s, ev) else s
  }

  function Run(c: Config, schedule: seq<Event>): (s: State)
    ensures |s.ranks| == c.size
  {
    if schedule == [] then Init(c) else Next(c, Run(c, schedule[..|schedule| - 1]), schedule[|schedule| - 1])
  }

  // ---------------------------------------------------------------- what the program says

  predicate IsCollective(op: Op) { op.AllGather? || op.Broadcast? }

  /** Collectives rank r has made before column k. */
  function Epoch(c: Config, r: nat, k: nat): nat
    requires c.Valid() && r < c.size && k <= |c.program|
  {
    if k == 0 then 0 else Epoch(c, r, k - 1) + if IsCollective(c.program[k - 1][r]) then 1 else 0
  }

  /** Whether the call sends under the counter `p` of rank r, and whether it receives under it. */
  predicate Sends(op: Op, r: nat, p: Pair) {
    && p.src == r
    && ((op.Send? && op.dest == p.dst && op.tag == p.tag) || (op.SendRecv? && op.peer == p.dst && op.tag == p.tag))
  }

  predicate Receives(op: Op, r: nat, p: Pair) {
    && p.dst == r
    && ((op.Recv? && op.src == p.src && op.tag == p.tag) || (op.SendRecv? && op.peer == p.src && op.tag == p.tag))
  }

  function Uses(op: Op, r: nat, p: Pair): nat {
    (if Sends(op, r, p) then 1 else 0) + (if Receives(op, r, p) then 1 else 0)
  }

  /** Value of counter `p` on rank r before column k. */
  function SeqAt(c: Config, r: nat, p: Pair, k: nat): nat
    requires c.Valid() && r < c.size && k <= |c.program|
  {
    if k == 0 then 0 else SeqAt(c, r, p, k - 1) + Uses(c.program[k - 1][r], r, p)
  }

  lemma {:induction false} SeqGrows(c: Config, r: nat, p: Pair, j: nat, k: nat)
    requires c.Valid() && r < c.size && j <= k <= |c.program|
    ensures SeqAt(c, r, p, j) <= SeqAt(c, r, p, k)
    decreases k
  {
    if j < k { SeqGrows(c, r, p, j, k - 1); }
  }

  lemma {:induction false} EpochGrows(c: Config, r: nat, j: nat, k: nat)
    requires c.Valid() && r < c.size && j <= k <= |c.program|
    ensures Epoch(c, r, j) <= Epoch(c, r, k)
    decreases k
  {
    if j < k { EpochGrows(c, r, j, k - 1); }
  }

  /** The counter a sending call uses. */
  function SendPair(op: Op, r: nat): Pair
    requires op.Send? || op.SendRecv?
  {
    Pair(r, if op.Send? then op.dest else op.peer, op.tag)
  }

  /** The key rank r publishes in column k, if any. */
  function PutKey(c: Config, r: nat, k: nat): Option<string>
    requires c.Valid() && r < c.size && k < |c.program|
  {
    var op := c.program[k][r];
    match op
    case AllGather(_) => Some(AgKey(Epoch(c, r, k), r))
    case Broadcast(root, _) => if r == root then Some(BcKey(Epoch(c, r, k), root)) else None
    case Send(_, _, _) => Some(P2pKey(SeqAt(c, r, SendPair(op, r), k), SendPair(op, r)))
    case SendRecv(_, _, _) => Some(P2pKey(SeqAt(c, r, SendPair(op, r), k), SendPair(op, r)))
    case _ => None
  }

  function PutData(c: Config, r: nat, k: nat): Bytes
    requires c.Valid() && r < c.size && k < |c.program| && PutKey(c, r, k).Some?
  {
    c.program[k][r].data
  }

  /** Whatever the program, no key is published twice. */
  lemma KeysAreFresh(c: Config, r: nat, k: nat, r': nat, k': nat)
    requires c.Valid() && r < c.size && r' < c.size && k < |c.program| && k' < |c.program|
    requires PutKey(c, r, k).Some? && PutKey(c, r, k) == PutKey(c, r', k')
    ensures r == r' && k == k'
  {
    var op, op' := c.program[k][r], c.program[k'][r'];
    KeysNameTheirRank(c, r, k, r', k');
    if k < k' {
      if IsCollective(op) { EpochGrows(c, r, k + 1, k'); } else { SeqGrows(c, r, SendPair(op, r), k + 1, k'); }
    } else if k' < k {
      if IsCollective(op) { EpochGrows(c, r, k' + 1, k); } else { SeqGrows(c, r, SendPair(op, r), k' + 1, k); }
    }
  }

  lemma KeysNameTheirRank(c: Config, r: nat, k: nat, r': nat, k': nat)
    requires c.Valid() && r < c.size && r' < c.size && k < |c.program| && k' < |c.program|
    requires PutKey(c, r, k).Some? && PutKey(c, r, k) == PutKey(c, r', k')
    ensures r == r'
    ensures var op, op' := c.program[k][r], c.program[k'][r'];
            if IsCollective(op) then IsCollective(op') && Epoch(c, r, k) == Epoch(c, r', k')
            else (op.Send? || op.SendRecv?) && (op'.Send? || op'.SendRecv?) && SendPair(op, r) == SendPair(op', r')
                 && SeqAt(c, r, SendPair(op, r), k) == SeqAt(c, r', SendPair(op', r'), k')
  {
    var op, op' := c.program[k][r], c.program[k'][r'];
    var e, e' := Epoch(c, r, k), Epoch(c, r', k');
    if op.AllGather? && op'.AllGather? { SameAgKey(e, r, e', r'); }
    else if op.Broadcast? && op'.Broadcast? { SameBcKey(e, r, e', r'); }
    else if IsCollective(op) || IsCollective(op') {
      KindsDiffer();
    } else {
      SameKey(SeqAt(c, r, SendPair(op, r), k), SendPair(op, r), SeqAt(c, r', SendPair(op', r'), k'), SendPair(op', r'));
    }
  }

  // ---------------------------------------------------------------- invariant

  /** Columns whose publishing half the rank has behind it. */
  function PutsDone(rk: Rank): nat { if rk.phase.Before? then rk.col else rk.col + 1 }

  /** Value of counter `p` in the rank's current position. */
  function SeqNow(c: Config, r: nat, rk: Rank, p: Pair): nat
    requires c.Valid() && r < c.size && PutsDone(rk) <= |c.program|
  {
    if rk.phase.Before? then SeqAt(c, r, p, rk.col)
    else SeqAt(c, r, p, rk.col) + if c.program[rk.col][r].Recv? then 0 else Uses(c.program[rk.col][r], r, p)
  }

  ghost predicate TicketOk(c: Config, r: nat, rk: Rank)
    requires c.Valid() && r < c.size && rk.col < |c.program|
  {
    match c.program[rk.col][r]
    case AllGather(_) => rk.ticket == Epoch(c, r, rk.col)
    case Broadcast(_, _) => rk.ticket == Epoch(c, r, rk.col)
    case SendRecv(peer, tag, _) =>
      rk.ticket == SeqAt(c, r, Pair(peer, r, tag), rk.col) + if peer == r then 1 else 0
    case _ => true
  }

  /** `g` fences have been passed. */
  ghost predicate RankOk(c: Config, r: nat, rk: Rank, g: nat)
    requires c.Valid() && r < c.size
  {
    && (if rk.phase.Before? || rk.phase.AtFence? then rk.col == g else rk.col + 1 == g)
    && PutsDone(rk) <= |c.program| && |rk.out| == rk.col
    && (!rk.phase.Halted? ==>
          && rk.epoch == Epoch(c, r, PutsDone(rk))
          && forall p: Pair :: Counter(rk.seqs, p) == SeqNow(c, r, rk, p))
    && (rk.phase.AtFence? || rk.phase.After? ==> TicketOk(c, r, rk))
  }

  /** Column k of rank r is the origin of a key. */
  ghost predicate Origin(c: Config, r: nat, k: nat, key: string)
    requires c.Valid()
  {
    r < c.size && k < |c.program| && PutKey(c, r, k) == Some(key)
  }

  ghost predicate Stored(c: Config, m: map<string, string>, r: nat, k: nat)
    requires c.Valid() && r < c.size && k < |c.program|
  {
    PutKey(c, r, k).Some? ==> PutKey(c, r, k).value in m && m[PutKey(c, r, k).value] == Hex(PutData(c, r, k))
  }

  /** The store holds exactly what the first `g` columns publish. */
  ghost predicate CommittedOk(c: Config, m: map<string, string>, g: nat)
    requires c.Valid() && g <= |c.program|
  {
    && (forall r, k | 0 <= r < c.size && 0 <= k < g :: Stored(c, m, r, k))
    && (forall key | key in m :: exists r: nat, k: nat :: k < g && Origin(c, r, k, key))
  }

  ghost predicate PendingOk(c: Config, s: State, g: nat)
    requires c.Valid() && |s.ranks| == c.size && g <= |c.program|
  {
    && (g < |c.program| ==> forall r | 0 <= r < c.size && s.ranks[r].phase.AtFence? :: Stored(c, s.pending, r, g))
    && (forall key | key in s.pending ::
          g < |c.program| && exists r: nat :: Origin(c, r, g, key) && s.ranks[r].phase.AtFence?)
  }

  ghost predicate Inv(c: Config, s: State, g: nat) {
    && c.Valid() && |s.ranks| == c.size && g <= |c.program|
    && (forall r | 0 <= r < c.size :: RankOk(c, r, s.ranks[r], g))
    && CommittedOk(c, s.committed, g) && PendingOk(c, s, g)
  }

  /** What a rank publishes is what its program says, whatever the others do. */
  lemma PutPartOk(c: Config, r: nat, rk: Rank, g: nat)
    requires c.Valid() && r < c.size && g < |c.program| && RankOk(c, r, rk, g) && rk.phase.Before?
    ensures var rk' := PutPart(c, r, rk).0; RankOk(c, r, rk', g) && rk'.phase.AtFence? && rk'.out == rk.out
    ensures PutPart(c, r, rk).1 ==
              if PutKey(c, r, g).Some? then Some((PutKey(c, r, g).value, PutData(c, r, g))) else None
  {
    var (rk', entry) := PutPart(c, r, rk);
    var op := c.program[g][r];
    if op.SendRecv? {
      var back := Pair(op.peer, r, op.tag);
      assert Counter(rk.seqs, back) == SeqNow(c, r, rk, back);
    }
    forall p: Pair ensures Counter(rk'.seqs, p) == SeqNow(c, r, rk', p) {
      assert Counter(rk.seqs, p) == SeqAt(c, r, p, g);
    }
  }

  lemma PutKeepsInv(c: Config, s: State, g: nat, r: nat)
    requires Inv(c, s, g) && Enabled(c, s, Put(r))
    ensures Inv(c, Step(c, s, Put(r)), g)
    ensures PutKey(c, r, g).Some? ==> PutKey(c, r, g).value !in s.committed && PutKey(c, r, g).value !in s.pending
  {
    var s' := Step(c, s, Put(r));
    assert RankOk(c, r, s.ranks[r], g);
    PutPartOk(c, r, s.ranks[r], g);
    if PutKey(c, r, g).Some? { NotThereYet(c, s, g, r); }
    forall q | 0 <= q < c.size && s'.ranks[q].phase.AtFence? ensures Stored(c, s'.pending, q, g) {
      if q != r { assert Stored(c, s.pending, q, g); }
    }
    forall key | key in s'.pending
      ensures exists q: nat :: Origin(c, q, g, key) && s'.ranks[q].phase.AtFence?
    {
      if key in s.pending {
        var q: nat :| Origin(c, q, g, key) && s.ranks[q].phase.AtFence?;
        assert s'.ranks[q].phase.AtFence?;
      } else {
        assert Origin(c, r, g, key);
      }
    }
  }

  lemma NotThereYet(c: Config, s: State, g: nat, r: nat)
    requires Inv(c, s, g) && Enabled(c, s, Put(r)) && g < |c.program| && PutKey(c, r, g).Some?
    ensures PutKey(c, r, g).value !in s.committed && PutKey(c, r, g).value !in s.pending
  {
    var key := PutKey(c, r, g).value;
    if key in s.committed {
      var q: nat, k: nat :| k < g && Origin(c, q, k, key);
      KeysAreFresh(c, r, g, q, k);
    }
    if key in s.pending {
      var q: nat :| Origin(c, q, g, key) && s.ranks[q].phase.AtFence?;
      KeysAreFresh(c, r, g, q, g);
    }
  }

  lemma FenceKeepsRank(c: Config, r: nat, rk: Rank, g: nat)
    requires c.Valid() && r < c.size && RankOk(c, r, rk, g) && rk.phase.AtFence?
    ensures RankOk(c, r, rk.(phase := After), g + 1) && g < |c.program|
  {
    forall p: Pair ensures Counter(rk.seqs, p) == SeqNow(c, r, rk.(phase := After), p) {
      assert Counter(rk.seqs, p) == SeqNow(c, r, rk, p);
    }
  }

  /** What the fence commits was not there before. */
  lemma FenceKeepsStored(c: Config, s: State, g: nat, r: nat, k: nat)
    requires Inv(c, s, g) && Enabled(c, s, Fence) && g < |c.program| && r < c.size && k <= g
    ensures Stored(c, s.committed + s.pending, r, k)
  {
    if k == g {
      assert Stored(c, s.pending, r, g);
    } else {
      assert Stored(c, s.committed, r, k);
      if PutKey(c, r, k).Some? && PutKey(c, r, k).value in s.pending {
        var q: nat :| Origin(c, q, g, PutKey(c, r, k).value) && s.ranks[q].phase.AtFence?;
        KeysAreFresh(c, r, k, q, g);
      }
    }
  }

  lemma FenceKeepsOrigins(c: Config, s: State, g: nat, key: string)
    requires Inv(c, s, g) && key in s.committed + s.pending
    ensures exists r: nat, k: nat :: k < g + 1 && Origin(c, r, k, key)
  {
    if key in s.pending {
      var q: nat :| Origin(c, q, g, key) && s.ranks[q].phase.AtFence?;
    } else {
      var q: nat, k: nat :| k < g && Origin(c, q, k, key);
    }
  }

  lemma FenceKeepsInv(c: Config, s: State, g: nat)
    requires Inv(c, s, g) && Enabled(c, s, Fence) && c.size > 0
    ensures Inv(c, Step(c, s, Fence), g + 1)
  {
    var s' := Step(c, s, Fence);
    FenceKeepsRank(c, 0, s.ranks[0], g);
    forall r | 0 <= r < c.size ensures RankOk(c, r, s'.ranks[r], g + 1) { FenceKeepsRank(c, r, s.ranks[r], g); }
    forall r, k | 0 <= r < c.size && 0 <= k < g + 1 ensures Stored(c, s'.committed, r, k) {
      FenceKeepsStored(c, s, g, r, k);
    }
    forall key | key in s'.committed ensures exists r: nat, k: nat :: k < g + 1 && Origin(c, r, k, key) {
      FenceKeepsOrigins(c, s, g, key);
    }
  }

  lemma GetKeepsRank(c: Config, s: State, g: nat, r: nat)
    requires c.Valid() && r < c.size && |s.ranks| == c.size && RankOk(c, r, s.ranks[r], g) && Enabled(c, s, Get(r))
    ensures RankOk(c, r, Step(c, s, Get(r)).ranks[r], g)
  {
    var rk, rk' := s.ranks[r], Step(c, s, Get(r)).ranks[r];
    if rk'.phase.Before? {
      forall p: Pair ensures Counter(rk'.seqs, p) == SeqNow(c, r, rk', p) {
        assert Counter(rk.seqs, p) == SeqNow(c, r, rk, p);
      }
    }
  }

  lemma GetKeepsInv(c: Config, s: State, g: nat, r: nat)
    requires Inv(c, s, g) && Enabled(c, s, Get(r))
    ensures Inv(c, Step(c, s, Get(r)), g)
  {
    var s' := Step(c, s, Get(r));
    GetKeepsRank(c, s, g, r);
    forall key | key in s'.pending
      ensures exists q: nat :: Origin(c, q, g, key) && s'.ranks[q].phase.AtFence?
    {
      var q: nat :| Origin(c, q, g, key) && s.ranks[q].phase.AtFence?;
      assert s'.ranks[q].phase.AtFence?;
    }
  }

  lemma InitInv(c: Config)
    requires c.Valid()
    ensures Inv(c, Init(c), 0)
  {
  }

  lemma {:induction false} RunInv(c: Config, schedule: seq<Event>) returns (g: nat)
    requires c.Valid() && c.size > 0
    ensures Inv(c, Run(c, schedule), g)
  {
    if schedule == [] {
      InitInv(c);
      g := 0;
    } else {
      g := RunInv(c, schedule[..|schedule| - 1]);
      var s, ev := Run(c, schedule[..|schedule| - 1]), schedule[|schedule| - 1];
      if Enabled(c, s, ev) {
        match ev
        case Put(r) => PutKeepsInv(c, s, g, r);
        case Fence => FenceKeepsInv(c, s, g); g := g + 1;
        case Get(r) => GetKeepsInv(c, s, g, r);
      }
    }
  }
}
