/** The arithmetic of the dissemination pattern shared by every barrier of the library:
    how many rounds a barrier of a given size takes, who signals whom in a round, and why
    the chain of signals reaches every rank. */
module Dissemination {

  function Pow2(k: nat): (p: nat)
    ensures p >= 1
  {
    if k == 0 then 1 else 2 * Pow2(k - 1)
  }

  lemma {:induction false} Pow2Monotone(j: nat, k: nat)
    requires j <= k
    ensures Pow2(j) <= Pow2(k)
    decreases k
  {
    if j < k { Pow2Monotone(j, k - 1); }
  }

  ghost predicate IsPowerOfTwo(n: nat) { exists k: nat :: n == Pow2(k) }

  // ---------------------------------------------------------------- round count

  /** The least number of doublings that covers `size` ranks. */
  function Rounds(size: nat): (n: nat)
    ensures size <= Pow2(n)
    ensures n > 0 ==> Pow2(n - 1) < size
  {
    if size <= 1 then 0 else 1 + Rounds((size + 1) / 2)
  }

  lemma RoundsUnique(size: nat, n: nat)
    requires size <= Pow2(n) && (n > 0 ==> Pow2(n - 1) < size)
    ensures n == Rounds(size)
  {
    var m := Rounds(size);
    if n < m { Pow2Monotone(n, m - 1); }
    if m < n { Pow2Monotone(m, n - 1); }
  }

  const MAX_ROUNDS := 12

  datatype RoundCount = RoundCount(rounds: nat) | TooManyRanks

  /** The doubling loop of the GPU barrier's constructor, with its limit on the rank count. */
  method CountByDoubling(size: nat) returns (result: RoundCount)
    ensures result == if size <= 4096 then RoundCount(Rounds(size)) else TooManyRanks
  {
    var n: nat := 0;
    while Pow2(n) < size
      invariant n > 0 ==> Pow2(n - 1) < size
      decreases size - Pow2(n)
    {
      n := n + 1;
    }
    RoundsUnique(size, n);
    assert Pow2(12) == 4096;
    if n > MAX_ROUNDS {
      Pow2Monotone(12, n - 1);
      return TooManyRanks;
    }
    Pow2Monotone(n, 12);
    return RoundCount(n);
  }

  /** The halving loop of the message-passing barrier's constructor. */
  method CountByHalving(size: nat) returns (rounds: nat)
    ensures rounds == Rounds(size)
  {
    rounds := 0;
    var n := size;
    while n > 1
      invariant rounds + Rounds(n) == Rounds(size)
    {
      rounds := rounds + 1;
      n := (n + 1) / 2;
    }
  }

  // ---------------------------------------------------------------- peers of a round

  lemma RoundFits(size: nat, k: nat)
    requires k < Rounds(size)
    ensures Pow2(k) < size
  {
    Pow2Monotone(k, Rounds(size) - 1);
  }

  lemma ModWrap(x: nat, m: nat)
    requires 0 < m && x < 2 * m
    ensures x % m == if x < m then x else x - m
  {
    if m <= x {
      assert x == 1 * m + (x - m);
      assert x / m == 1;
    }
  }

  /** The rank that rank `r` signals in round `k`. */
  function SendTo(size: nat, k: nat, r: nat): (t: nat)
    requires r < size && k < Rounds(size)
    ensures t < size && t != r
  {
    RoundFits(size, k);
    if r + Pow2(k) < size then r + Pow2(k) else r + Pow2(k) - size
  }

  /** The rank that signals rank `r` in round `k`. */
  function RecvFrom(size: nat, k: nat, r: nat): (q: nat)
    requires r < size && k < Rounds(size)
    ensures q < size && q != r
    ensures SendTo(size, k, q) == r
  {
    RoundFits(size, k);
    if Pow2(k) <= r then r - Pow2(k) else r - Pow2(k) + size
  }

  /** The peers are the modular expressions of the sources. */
  lemma PeersModular(size: nat, k: nat, r: nat)
    requires r < size && k < Rounds(size)
    ensures SendTo(size, k, r) == (r + Pow2(k)) % size
    ensures RecvFrom(size, k, r) == (r - Pow2(k) + size) % size
  {
    SendModular(size, k, r);
    RecvModular(size, k, r);
  }

  lemma SendModular(size: nat, k: nat, r: nat)
    requires r < size && k < Rounds(size)
    ensures SendTo(size, k, r) == (r + Pow2(k)) % size
  {
    RoundFits(size, k);
    ModWrap(r + Pow2(k), size);
  }

  lemma RecvModular(size: nat, k: nat, r: nat)
    requires r < size && k < Rounds(size)
    ensures RecvFrom(size, k, r) == (r - Pow2(k) + size) % size
  {
    RoundFits(size, k);
    var x: nat := r - Pow2(k) + size;
    assert RecvFrom(size, k, r) == if x < size then x else x - size;
    ModWrap(x, size);
  }

  lemma PeersInverse(size: nat, k: nat, r: nat)
    requires r < size && k < Rounds(size)
    ensures RecvFrom(size, k, SendTo(size, k, r)) == r
  {
    RoundFits(size, k);
  }

  /** Different rounds use different targets, so a channel carries the signals of one round only. */
  lemma {:induction false} TargetsDistinct(size: nat, j: nat, k: nat, r: nat)
    requires r < size && j < k < Rounds(size)
    ensures SendTo(size, j, r) != SendTo(size, k, r)
    ensures RecvFrom(size, j, r) != RecvFrom(size, k, r)
  {
    RoundFits(size, j);
    RoundFits(size, k);
    Pow2Monotone(j + 1, k);
  }

  // ---------------------------------------------------------------- coverage

  /** The rank at distance `d` behind `r`. */
  function Behind(size: nat, r: nat, d: nat): (q: nat)
    requires r < size && d < size
    ensures q < size
  {
    if d <= r then r - d else r + size - d
  }

  /** Every rank whose arrival a rank that has finished `k` rounds has heard of, directly or
      through others. */
  ghost function Heard(size: nat, k: nat, r: nat): set<nat>
    requires r < size && k <= Rounds(size)
  {
    if k == 0 then {r}
    else Heard(size, k - 1, r) + Heard(size, k - 1, RecvFrom(size, k - 1, r))
  }

  lemma BehindShift(size: nat, r: nat, p: nat, h: nat, d: nat, d': nat)
    requires r < size && d < size && 0 < h < size
    requires p == if r < h then r + size - h else r - h
    requires d' == if d < h then d + size - h else d - h
    ensures d' < size && Behind(size, p, d') == Behind(size, r, d)
  {
  }

  /** After `k` rounds a rank has heard exactly the ranks at a distance below 2^k. */
  lemma {:induction false} HeardIsWindow(size: nat, k: nat, r: nat, d: nat)
    requires r < size && d < size && k <= Rounds(size)
    ensures WindowAt(size, k, r, d)
  {
    if k > 0 {
      RoundFits(size, k - 1);
      HeardIsWindow(size, k - 1, r, d);
      HeardIsWindow(size, k - 1, RecvFrom(size, k - 1, r), Shifted(size, Pow2(k - 1), d));
      WindowStep(size, k - 1, r, d);
    }
  }

  ghost predicate WindowAt(size: nat, k: nat, r: nat, d: nat)
    requires r < size && d < size && k <= Rounds(size)
  {
    Behind(size, r, d) in Heard(size, k, r) <==> d < Pow2(k)
  }

  lemma WindowStep(size: nat, k: nat, r: nat, d: nat)
    requires r < size && d < size && k < Rounds(size) && 0 < Pow2(k) < size
    requires WindowAt(size, k, r, d)
    requires WindowAt(size, k, RecvFrom(size, k, r), Shifted(size, Pow2(k), d))
    ensures WindowAt(size, k + 1, r, d)
  {
    BehindSender(size, k, r, d);
    HeardStep(size, k + 1, r, Behind(size, r, d));
    WindowDoubles(size, Pow2(k), d);
  }

  function Shifted(size: nat, h: nat, d: nat): (d': nat)
    requires d < size && 0 < h < size
    ensures d' < size
  {
    if d < h then d + size - h else d - h
  }

  lemma BehindSender(size: nat, k: nat, r: nat, d: nat)
    requires r < size && d < size && k < Rounds(size) && 0 < Pow2(k) < size
    ensures Behind(size, RecvFrom(size, k, r), Shifted(size, Pow2(k), d)) == Behind(size, r, d)
  {
    BehindShift(size, r, RecvFrom(size, k, r), Pow2(k), d, Shifted(size, Pow2(k), d));
  }

  lemma WindowDoubles(size: nat, h: nat, d: nat)
    requires d < size && 0 < h < size
    ensures (d < h || Shifted(size, h, d) < h) <==> d < 2 * h
  {
  }

  lemma HeardStep(size: nat, k: nat, r: nat, q: nat)
    requires r < size && 1 <= k <= Rounds(size)
    ensures q in Heard(size, k, r) <==>
              q in Heard(size, k - 1, r) || q in Heard(size, k - 1, RecvFrom(size, k - 1, r))
  {
  }

  /** A barrier of `k` rounds informs every rank about all ranks exactly when 2^k covers the size. */
  lemma {:induction false} HeardEveryoneIff(size: nat, k: nat)
    requires size > 0 && k <= Rounds(size)
    ensures (forall r, q | 0 <= r < size && 0 <= q < size :: q in Heard(size, k, r)) <==> size <= Pow2(k)
  {
    if size <= Pow2(k) {
      forall r, q | 0 <= r < size && 0 <= q < size
        ensures q in Heard(size, k, r)
      {
        var d := if q <= r then r - q else r + size - q;
        HeardIsWindow(size, k, r, d);
      }
    } else {
      HeardIsWindow(size, k, 0, Pow2(k));
      assert Behind(size, 0, Pow2(k)) !in Heard(size, k, 0);
    }
  }

  // ---------------------------------------------------------------- causality

  /** How far a rank has come: it is in (or has left) barrier `bar`, with `round` rounds finished. */
  datatype Pos = Pos(bar: nat, round: nat)

  predicate Reached(p: Pos, e: nat, k: nat) {
    p.bar > e || (p.bar == e && p.round >= k)
  }

  /** What every implementation guarantees locally: a rank finishes a round only after its sender
      of that round has begun it. */
  ghost predicate Causal(size: nat, pos: seq<Pos>) {
    && |pos| == size
    && forall r, e, k | 0 <= r < size && 1 <= k <= Rounds(size) :: CausalAt(size, pos, r, e, k)
  }

  predicate CausalAt(size: nat, pos: seq<Pos>, r: nat, e: nat, k: nat)
    requires |pos| == size && r < size && 1 <= k <= Rounds(size)
  {
    Reached(pos[r], e, k) ==> Reached(pos[RecvFrom(size, k - 1, r)], e, k - 1)
  }

  lemma {:induction false} HeardHaveEntered(size: nat, pos: seq<Pos>, e: nat, k: nat, r: nat)
    requires Causal(size, pos) && r < size && k <= Rounds(size)
    requires Reached(pos[r], e, k)
    ensures forall q | q in Heard(size, k, r) :: q < size && Reached(pos[q], e, 0)
  {
    if k > 0 {
      assert CausalAt(size, pos, r, e, k);
      HeardHaveEntered(size, pos, e, k - 1, r);
      HeardHaveEntered(size, pos, e, k - 1, RecvFrom(size, k - 1, r));
    }
  }

  /** The local guarantee makes the barrier: a rank that has finished all rounds of barrier `e`
      knows that every rank has entered barrier `e`. */
  lemma {:induction false} AllHaveEntered(size: nat, pos: seq<Pos>, e: nat, r: nat)
    requires Causal(size, pos) && r < size
    requires Reached(pos[r], e, Rounds(size))
    ensures forall q | 0 <= q < size :: Reached(pos[q], e, 0)
  {
    HeardHaveEntered(size, pos, e, Rounds(size), r);
    HeardEveryoneIff(size, Rounds(size));
    forall q | 0 <= q < size ensures Reached(pos[q], e, 0) {
      assert q in Heard(size, Rounds(size), r);
    }
  }

  // ---------------------------------------------------------------- one barrier ahead

  lemma BehindBehind(size: nat, r: nat, d: nat, h: nat)
    requires r < size && d + h < size
    ensures Behind(size, Behind(size, r, d), h) == Behind(size, r, d + h)
  {
  }

  lemma FullRounds(size: nat)
    requires size >= 2 && IsPowerOfTwo(size + 1)
    ensures size + 1 == Pow2(Rounds(size))
  {
    var m: nat :| size + 1 == Pow2(m);
    RoundsUnique(size, m);
  }

  /** A rank that has finished barrier e tells, round by round from the last one down, how far the ranks
      behind it have come. */
  lemma {:induction false} DownTheRounds(size: nat, pos: seq<Pos>, e: nat, x: nat, j: nat)
    requires Causal(size, pos) && x < size && Reached(pos[x], e, Rounds(size))
    requires 1 <= j <= Rounds(size) && size + 1 == Pow2(Rounds(size))
    ensures 0 <= Pow2(Rounds(size)) - Pow2(j) < size
    ensures Reached(pos[Behind(size, x, Pow2(Rounds(size)) - Pow2(j))], e, j)
    decreases Rounds(size) - j
  {
    Pow2Monotone(1, j);
    Pow2Monotone(j, Rounds(size));
    if j < Rounds(size) {
      DownTheRounds(size, pos, e, x, j + 1);
      var d := Pow2(Rounds(size)) - Pow2(j + 1);
      RoundFits(size, j);
      assert CausalAt(size, pos, Behind(size, x, d), e, j + 1);
      BehindBehind(size, x, d, Pow2(j));
    }
  }

  /** If the number of ranks is 2^n - 1, a rank in round k of barrier e + 1 knows that the rank it signals
      there has finished that round in barrier e. */
  lemma NeverLapped(size: nat, pos: seq<Pos>, e: nat, k: nat, q: nat)
    requires Causal(size, pos) && q < size && k < Rounds(size) && IsPowerOfTwo(size + 1)
    requires Reached(pos[q], e + 1, k)
    ensures Reached(pos[SendTo(size, k, q)], e, k + 1)
  {
    RoundFits(size, k);
    FullRounds(size);
    var near, far := Pow2(k) - 1, Pow2(Rounds(size)) - Pow2(k + 1);
    var x := Behind(size, q, near);
    HeardHaveEntered(size, pos, e + 1, k, q);
    HeardIsWindow(size, k, q, near);
    DownTheRounds(size, pos, e, x, k + 1);
    BehindBehind(size, q, near, far);
  }
}
