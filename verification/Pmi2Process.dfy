/** One process of the store-backed bootstrap: its counters, updated in place, and the loops of its calls. */
module Pmi2Process {
  import opened Wrappers
  import opened HexBlob
  import opened KvsKeys
  import opened Pmi2Store

  // ---------------------------------------------------------------- local identity

  /** Ranks below `n` on the same host as rank r. */
  function LocalBelow(hosts: seq<string>, r: nat, n: nat): (m: nat)
    requires r < |hosts| && n <= |hosts|
    ensures m <= n
  {
    if n == 0 then 0 else LocalBelow(hosts, r, n - 1) + if hosts[n - 1] == hosts[r] then 1 else 0
  }

  function LocalRank(hosts: seq<string>, r: nat): nat
    requires r < |hosts|
  {
    LocalBelow(hosts, r, r)
  }

  function LocalSize(hosts: seq<string>, r: nat): nat
    requires r < |hosts|
  {
    LocalBelow(hosts, r, |hosts|)
  }

  /** The ranks below `n` on the host of rank r. */
  function OnHost(hosts: seq<string>, r: nat, n: nat): set<nat>
    requires r < |hosts| && n <= |hosts|
  {
    set q: nat | q < n && hosts[q] == hosts[r]
  }

  lemma {:induction false} BelowCounts(hosts: seq<string>, r: nat, n: nat)
    requires r < |hosts| && n <= |hosts|
    ensures LocalBelow(hosts, r, n) == |OnHost(hosts, r, n)|
  {
    if n > 0 {
      BelowCounts(hosts, r, n - 1);
      var fewer := OnHost(hosts, r, n - 1);
      assert OnHost(hosts, r, n) == if hosts[n - 1] == hosts[r] then fewer + {n - 1} else fewer;
    }
  }

  /** The local size is the number of ranks on the host, the local rank the number of those below. */
  lemma LocalIdentityCounts(hosts: seq<string>, r: nat)
    requires r < |hosts|
    ensures LocalSize(hosts, r) == |set q: nat | q < |hosts| && hosts[q] == hosts[r]|
    ensures LocalRank(hosts, r) == |set q: nat | q < r && hosts[q] == hosts[r]|
  {
    BelowCounts(hosts, r, |hosts|);
    BelowCounts(hosts, r, r);
    assert OnHost(hosts, r, |hosts|) == set q: nat | q < |hosts| && hosts[q] == hosts[r];
    assert OnHost(hosts, r, r) == set q: nat | q < r && hosts[q] == hosts[r];
  }

  lemma {:induction false} BelowGrows(hosts: seq<string>, r: nat, m: nat, n: nat)
    requires r < |hosts| && m <= n <= |hosts|
    ensures LocalBelow(hosts, r, m) <= LocalBelow(hosts, r, n)
    decreases n
  {
    if m < n { BelowGrows(hosts, r, m, n - 1); }
  }

  lemma {:induction false} SameHostSameCount(hosts: seq<string>, r: nat, q: nat, n: nat)
    requires r < |hosts| && q < |hosts| && n <= |hosts| && hosts[r] == hosts[q]
    ensures LocalBelow(hosts, r, n) == LocalBelow(hosts, q, n)
  {
    if n > 0 { SameHostSameCount(hosts, r, q, n - 1); }
  }

  /** On one host all ranks agree on the local size, and the local ranks are all different and below it. */
  lemma LocalRanksDistinct(hosts: seq<string>, r: nat, q: nat)
    requires r < q < |hosts| && hosts[r] == hosts[q]
    ensures LocalRank(hosts, r) < LocalRank(hosts, q) < LocalSize(hosts, q) == LocalSize(hosts, r)
  {
    SameHostSameCount(hosts, r, q, r + 1);
    SameHostSameCount(hosts, r, q, |hosts|);
    BelowGrows(hosts, q, r + 1, q);
    BelowGrows(hosts, q, q + 1, |hosts|);
    SameHostSameCount(hosts, r, q, r);
  }

  lemma {:induction false} CoverBelow(hosts: seq<string>, r: nat, l: nat, n: nat) returns (q: nat)
    requires r < |hosts| && n <= |hosts| && l < LocalBelow(hosts, r, n)
    ensures q < n && hosts[q] == hosts[r] && LocalRank(hosts, q) == l
  {
    if l < LocalBelow(hosts, r, n - 1) {
      q := CoverBelow(hosts, r, l, n - 1);
    } else {
      q := n - 1;
      SameHostSameCount(hosts, r, q, q);
    }
  }

  /** Every number below the local size is the local rank of some rank on the host. */
  lemma LocalRanksCover(hosts: seq<string>, r: nat, l: nat) returns (q: nat)
    requires r < |hosts| && l < LocalSize(hosts, r)
    ensures q < |hosts| && hosts[q] == hosts[r] && LocalRank(hosts, q) == l
  {
    q := CoverBelow(hosts, r, l, |hosts|);
  }

  // ---------------------------------------------------------------- the process

  class Process {
    const rank: nat
    const size: nat
    const hostname: string
    const countsNul: bool
    var localRank: int
    var localSize: int
    var collEpoch: nat
    var p2pSeq: map<Pair, nat>

    constructor (rank: nat, size: nat, hostname: string, countsNul: bool)
      ensures this.rank == rank && this.size == size && this.hostname == hostname && this.countsNul == countsNul
      ensures localRank == -1 && localSize == 0 && collEpoch == 0 && p2pSeq == map[]
    {
      this.rank, this.size, this.hostname, this.countsNul := rank, size, hostname, countsNul;
      localRank, localSize, collEpoch, p2pSeq := -1, 0, 0, map[];
    }

    /** The process stands where rank record `rk` of the state machine stands. */
    ghost predicate At(c: Config, rk: Rank)
      reads this
    {
      c.Valid() && rank < c.size == size && c.countsNul == countsNul
      && rk.epoch == collEpoch && forall p: Pair :: Counter(rk.seqs, p) == Counter(p2pSeq, p)
    }

    method NextP2pSeq(p: Pair) returns (n: nat)
      modifies this`p2pSeq
      ensures n == Counter(old(p2pSeq), p) && p2pSeq == Bump(old(p2pSeq), p)
    {
      n := if p in p2pSeq then p2pSeq[p] else 0;
      p2pSeq := p2pSeq[p := n + 1];
    }

    /** The hosts of all ranks, as published, decide the local identity. */
    method ResolveLocalIdentity(hosts: seq<string>)
      requires |hosts| == size && rank < size && hosts[rank] == hostname
      modifies this`localRank, this`localSize
      ensures localRank == LocalRank(hosts, rank) && localSize == LocalSize(hosts, rank)
    {
      var lr, ls, i := 0, 0, 0;
      while i < size
        invariant 0 <= i <= size && ls == LocalBelow(hosts, rank, i)
        invariant lr == LocalBelow(hosts, rank, if i < rank then i else rank)
      {
        if hosts[i] == hostname {
          if i < rank { lr := lr + 1; }
          ls := ls + 1;
        }
        i := i + 1;
      }
      localRank, localSize := lr, ls;
    }

    /** First half of an all-gather: what is published, under which key. */
    method AllgatherPut(c: Config, ghost rk: Rank, data: Bytes) returns (key: string, hex: string, epoch: nat)
      requires At(c, rk) && rk.col < |c.program| && c.program[rk.col][rank] == AllGather(data)
      modifies this`collEpoch
      ensures At(c, PutPart(c, rank, rk).0) && epoch == PutPart(c, rank, rk).0.ticket
      ensures PutPart(c, rank, rk).1 == Some((key, data)) && hex == Hex(data)
    {
      epoch := collEpoch;
      collEpoch := collEpoch + 1;
      key := AgKey(epoch, rank);
      var text := HexEncode(data);
      hex := text[..];
    }

    /** Second half, after the fence: reads every rank's blob, in rank order. */
    method AllgatherGet(c: Config, s: State, epoch: nat) returns (out: Option<seq<Bytes>>)
      requires countsNul == c.countsNul && size == c.size
      ensures out == Gather(c, s, epoch, size)
    {
      var blobs: seq<Bytes> := [];
      var i := 0;
      while i < size
        invariant 0 <= i <= size && Gather(c, s, epoch, i) == Some(blobs)
      {
        var key := AgKey(epoch, i);
        var blob := FetchBlob(if key in s.committed then Some(s.committed[key]) else None, countsNul);
        if !blob.Blob? {
          GatherStops(c, s, epoch, i, size);
          return None;
        }
        blobs := blobs + [blob.bytes];
        i := i + 1;
      }
      return Some(blobs);
    }

    /** First half of an exchange: both counters are taken before anything is published. */
    method SendRecvPut(c: Config, ghost rk: Rank, peer: nat, tag: int, data: Bytes)
      returns (key: string, hex: string, recvSeq: nat)
      requires At(c, rk) && rk.col < |c.program| && c.program[rk.col][rank] == SendRecv(peer, tag, data)
      modifies this`p2pSeq
      ensures At(c, PutPart(c, rank, rk).0) && recvSeq == PutPart(c, rank, rk).0.ticket
      ensures PutPart(c, rank, rk).1 == Some((key, data)) && hex == Hex(data)
    {
      var p, back := Pair(rank, peer, tag), Pair(peer, rank, tag);
      assert Counter(rk.seqs, p) == Counter(p2pSeq, p) && Counter(rk.seqs, back) == Counter(p2pSeq, back);
      var sendSeq := NextP2pSeq(p);
      recvSeq := NextP2pSeq(back);
      key := P2pKey(sendSeq, p);
      var text := HexEncode(data);
      hex := text[..];
      ghost var after := Bump(Bump(rk.seqs, p), back);
      forall x: Pair ensures Counter(after, x) == Counter(p2pSeq, x) {
        assert Counter(rk.seqs, x) == Counter(old(p2pSeq), x);
      }
    }

    /** A receive after its fence. */
    method RecvGet(c: Config, s: State, ghost rk: Rank, src: nat, tag: int, len: nat) returns (o: Outcome)
      requires At(c, rk) && rk.col < |c.program| && c.program[rk.col][rank] == Recv(src, tag, len)
      modifies this`p2pSeq
      ensures o == GetPart(c, s, rank, rk).0 && At(c, rk.(seqs := GetPart(c, s, rank, rk).1))
    {
      var p := Pair(src, rank, tag);
      assert Counter(rk.seqs, p) == Counter(p2pSeq, p);
      var n := NextP2pSeq(p);
      var key := P2pKey(n, p);
      var blob := FetchBlob(if key in s.committed then Some(s.committed[key]) else None, countsNul);
      o := if blob.Blob? && |blob.bytes| == len then Received(blob.bytes) else Threw;
      ghost var after := Bump(rk.seqs, p);
      forall x: Pair ensures Counter(after, x) == Counter(p2pSeq, x) {
        assert Counter(rk.seqs, x) == Counter(old(p2pSeq), x);
      }
    }
  }

  lemma {:induction false} GatherStops(c: Config, s: State, epoch: nat, i: nat, n: nat)
    requires i < n && !Read(c, s, AgKey(epoch, i)).Blob?
    ensures Gather(c, s, epoch, n) == None
  {
    if i < n - 1 { GatherStops(c, s, epoch, i, n - 1); }
  }
}
