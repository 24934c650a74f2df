/** The barrier every implementation refines: ranks enter and leave, and a rank leaves its e-th
    barrier only after all ranks have entered theirs. */
module AbstractBarrier {

  datatype Barrier = Barrier(entered: seq<nat>, left: seq<nat>)

  predicate Shape(size: nat, b: Barrier) {
    |b.entered| == size && |b.left| == size
  }

  predicate Init(size: nat, b: Barrier) {
    Shape(size, b) && forall r | 0 <= r < size :: b.entered[r] == 0 && b.left[r] == 0
  }

  predicate Enter(size: nat, b: Barrier, b': Barrier, r: nat)
    requires Shape(size, b)
  {
    && r < size
    && b.entered[r] == b.left[r]
    && b' == b.(entered := b.entered[r := b.entered[r] + 1])
  }

  predicate Leave(size: nat, b: Barrier, b': Barrier, r: nat)
    requires Shape(size, b)
  {
    && r < size
    && b.entered[r] == b.left[r] + 1
    && (forall q | 0 <= q < size :: b.entered[q] >= b.entered[r])
    && b' == b.(left := b.left[r := b.left[r] + 1])
  }

  /** One move of rank `r`, or nothing. */
  predicate Move(size: nat, b: Barrier, b': Barrier, r: nat) {
    Shape(size, b) && (b' == b || Enter(size, b, b', r) || Leave(size, b, b', r))
  }

  predicate Inv(size: nat, b: Barrier) {
    && Shape(size, b)
    && (forall r | 0 <= r < size :: b.left[r] <= b.entered[r] <= b.left[r] + 1)
    && (forall r, q | 0 <= r < size && 0 <= q < size :: b.left[r] <= b.entered[q])
  }

  lemma MoveKeepsInv(size: nat, b: Barrier, b': Barrier, r: nat)
    requires Inv(size, b) && Move(size, b, b', r)
    ensures Inv(size, b')
  {
  }

  /** Ranks are never more than one barrier apart. */
  lemma SkewAtMostOne(size: nat, b: Barrier, r: nat, q: nat)
    requires Inv(size, b) && r < size && q < size
    ensures b.entered[r] <= b.entered[q] + 1
  {
    assert b.left[r] <= b.entered[q];
  }
}
