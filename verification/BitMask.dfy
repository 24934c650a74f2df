/** Masking a sequence number to a ring index: `seq & (nslots - 1)`. */
module BitMask {
  import opened Dissemination
  import Arithmetic

  function BitAnd(x: nat, y: nat): (z: nat)
    ensures z <= y
  {
    if x == 0 || y == 0 then 0 else 2 * BitAnd(x / 2, y / 2) + if x % 2 == 1 && y % 2 == 1 then 1 else 0
  }

  function SlotOf(seqNo: nat, nslots: nat): (x: nat)
    requires nslots >= 1
    ensures x < nslots
  {
    BitAnd(seqNo, nslots - 1)
  }

  lemma {:induction false} MaskKeepsLowBits(x: nat, k: nat)
    ensures Pow2(k) >= 1 && BitAnd(x, Pow2(k) - 1) == x % Pow2(k)
  {
    if k > 0 {
      MaskKeepsLowBits(x / 2, k - 1);
      HalfMask(x, Pow2(k - 1), Pow2(k));
    }
  }

  /** With a power of two slots, a sequence number's slot is its remainder. */
  lemma SlotIsRemainder(seqNo: nat, k: nat)
    ensures Pow2(k) >= 1 && SlotOf(seqNo, Pow2(k)) == seqNo % Pow2(k)
  {
    MaskKeepsLowBits(seqNo, k);
  }

  /** A mask of one more bit keeps the lowest bit and masks the rest. */
  lemma HalfMask(x: nat, h: nat, m: nat)
    requires h >= 1 && m == 2 * h && BitAnd(x / 2, h - 1) == (x / 2) % h
    ensures BitAnd(x, m - 1) == x % m
  {
    HalfModulo(x, h, m);
    BitAndStep(x, m - 1);
  }

  lemma BitAndStep(x: nat, y: nat)
    requires y % 2 == 1
    ensures BitAnd(x, y) == 2 * BitAnd(x / 2, y / 2) + x % 2
  {
  }

  lemma HalfModulo(x: nat, h: nat, m: nat)
    requires h >= 1 && m == 2 * h
    ensures x % m == 2 * ((x / 2) % h) + x % 2
  {
    var q, r := (x / 2) / h, (x / 2) % h;
    assert x / 2 == q * h + r;
    MulDoubles(q, h, m);
    Arithmetic.DivisionUnique(x, m, q, 2 * r + x % 2);
  }

  lemma MulDoubles(q: nat, h: nat, m: nat)
    requires m == 2 * h
    ensures q * m == 2 * (q * h)
  {
  }

  /** Two different sequence numbers within one ring length that share a slot. */
  predicate Clash(x: nat, d: nat, nslots: nat)
    requires nslots >= 1
  {
    x >= 1 && 1 <= d < nslots && SlotOf(x, nslots) == SlotOf(x + d, nslots)
  }

  /** A mask that is not all ones makes two nearby sequence numbers share a slot. */
  lemma {:induction false} BadMaskClashes(m: nat) returns (x: nat, d: nat)
    requires !IsPowerOfTwo(m + 1)
    ensures Clash(x, d, m + 1)
    decreases m
  {
    assert 1 == Pow2(0);
    if m % 2 == 0 {
      x, d := 2, 1;
      assert BitAnd(2, m) == 2 * BitAnd(1, m / 2);
      assert BitAnd(3, m) == 2 * BitAnd(1, m / 2);
    } else {
      if k: nat :| m / 2 + 1 == Pow2(k) { assert m + 1 == Pow2(k + 1); }
      var x', d' := BadMaskClashes(m / 2);
      x, d := 2 * x', 2 * d';
      assert BitAnd(2 * x', m) == 2 * BitAnd(x', m / 2);
      assert BitAnd(2 * (x' + d'), m) == 2 * BitAnd(x' + d', m / 2);
    }
  }

  /** The masked index keeps a full window of sequence numbers apart exactly when the number of
      slots is a power of two. */
  lemma MaskSeparatesIff(nslots: nat)
    requires nslots >= 1
    ensures IsPowerOfTwo(nslots) <==> forall x: nat, d: nat :: !Clash(x, d, nslots)
  {
    if IsPowerOfTwo(nslots) {
      var k: nat :| nslots == Pow2(k);
      forall x: nat, d: nat ensures !Clash(x, d, nslots) {
        if Clash(x, d, nslots) {
          MaskKeepsLowBits(x, k);
          MaskKeepsLowBits(x + d, k);
          ShiftedModulo(x, d, nslots);
          assert false;
        }
      }
    } else {
      var x, d := BadMaskClashes(nslots - 1);
    }
  }

  lemma ShiftedModulo(x: nat, d: nat, n: nat)
    requires 1 <= d < n
    ensures (x + d) % n != x % n
  {
    var q, r := x / n, x % n;
    assert x == q * n + r;
    if r + d < n {
      Arithmetic.DivisionUnique(x + d, n, q, r + d);
    } else {
      assert x + d == (q + 1) * n + (r + d - n) by { Arithmetic.MulDistributes(q, 1, n); }
      Arithmetic.DivisionUnique(x + d, n, q + 1, r + d - n);
    }
  }
}
