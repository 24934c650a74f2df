/** Blocking exchange schedules under rendezvous sends (section 3.4 of MPI 3.1): a send completes only
    together with its receive. The neighbour exchange ordered by rank parity and the pairwise
    exchange over ascending peers cannot deadlock; sending first everywhere always does. */
module Rendezvous {
  import opened Arithmetic

  datatype Act = Send(to: nat) | Recv(from: nat) | Exchange(peer: nat)

  datatype Kind = ParityRing | SendFirstRing | AscendingPairs

  /** `data[r][q]` is what rank r has for rank q. */
  datatype Config<V> = Config(kind: Kind, size: nat, data: seq<seq<V>>) {
    predicate Valid() { size >= 2 && |data| == size && forall r | 0 <= r < size :: |data[r]| == size }
  }

  /** `pc[r]` counts finished calls of rank r; `got[r]` is what it received, by source. */
  datatype State<V> = State(pc: seq<nat>, got: seq<map<nat, V>>)

  /** A send meeting its receive, or two matching exchanges. */
  datatype Event = Meet(r: nat, q: nat)

  function Left(size: nat, r: nat): (l: nat)
    requires r < size
    ensures l < size && Right(size, l) == r
  {
    if r > 0 then r - 1 else size - 1
  }

  function Right(size: nat, r: nat): (q: nat)
    requires r < size
    ensures q < size
  {
    if r + 1 < size then r + 1 else 0
  }

  /** The neighbours are the modular expressions of the sources. */
  lemma NeighboursModular(size: nat, r: nat)
    requires r < size
    ensures Left(size, r) == (size + r - 1) % size && Right(size, r) == (r + 1) % size
  {
    if r == 0 { DivisionUnique(size - 1, size, 0, size - 1); } else { DivisionUnique(size + r - 1, size, 1, r - 1); }
    if r + 1 < size { DivisionUnique(r + 1, size, 0, r + 1); } else { DivisionUnique(size, size, 1, 0); }
  }

  function Calls(kind: Kind, size: nat): nat
    requires size >= 1
  {
    if kind.AscendingPairs? then size - 1 else 2
  }

  /** The k-th peer of rank r in ascending order, itself left out. */
  function PeerAt(r: nat, k: nat): (p: nat)
    ensures p != r
  {
    if k < r then k else k + 1
  }

  /** The k-th call of rank r. */
  function ActOf(kind: Kind, size: nat, r: nat, k: nat): Act
    requires r < size && k < Calls(kind, size)
  {
    match kind
    case ParityRing => if (r % 2 == 0) == (k == 0) then Send(Left(size, r)) else Recv(Right(size, r))
    case SendFirstRing => if k == 0 then Send(Left(size, r)) else Recv(Right(size, r))
    case AscendingPairs => Exchange(PeerAt(r, k))
  }

  ghost predicate Shape<V>(c: Config<V>, s: State<V>) {
    c.Valid() && |s.pc| == |s.got| == c.size && forall r | 0 <= r < c.size :: s.pc[r] <= Calls(c.kind, c.size)
  }

  predicate At<V>(c: Config<V>, s: State<V>, r: nat, act: Act)
    requires c.Valid() && |s.pc| == c.size && r < c.size
  {
    s.pc[r] < Calls(c.kind, c.size) && ActOf(c.kind, c.size, r, s.pc[r]) == act
  }

  ghost predicate Enabled<V>(c: Config<V>, s: State<V>, ev: Event)
    requires Shape(c, s)
  {
    && ev.r < c.size && ev.q < c.size && ev.r != ev.q
    && (|| (At(c, s, ev.r, Send(ev.q)) && At(c, s, ev.q, Recv(ev.r)))
        || (At(c, s, ev.r, Exchange(ev.q)) && At(c, s, ev.q, Exchange(ev.r))))
  }

  function Received<V>(got: seq<map<nat, V>>, at: nat, from: nat, v: V): seq<map<nat, V>>
    requires at < |got|
  {
    var m: map<nat, V> := got[at][from := v];
    got[at := m]
  }

  ghost function Step<V>(c: Config<V>, s: State<V>, ev: Event): State<V>
    requires Shape(c, s) && Enabled(c, s, ev)
  {
    var r, q := ev.r, ev.q;
    var pc': seq<nat> := s.pc[r := s.pc[r] + 1][q := s.pc[q] + 1];
    var got' := Received(s.got, q, r, c.data[r][q]);
    State(pc', if At(c, s, r, Exchange(q)) then Received(got', r, q, c.data[q][r]) else got')
  }

  ghost function Init<V>(c: Config<V>): State<V> { State(seq(c.size, r => 0), seq(c.size, r => map[])) }

  ghost function Next<V>(c: Config<V>, s: State<V>, ev: Event): State<V> {
    if Shape(c, s) && Enabled(c, s, ev) then Step(c, s, ev) else s
  }

  ghost function Run<V>(c: Config<V>, schedule: seq<Event>): State<V> {
    if schedule == [] then Init(c) else Next(c, Run(c, schedule[..|schedule| - 1]), schedule[|schedule| - 1])
  }

  predicate Complete<V>(c: Config<V>, s: State<V>)
    requires c.size >= 1
  {
    |s.pc| == c.size && forall r | 0 <= r < c.size :: s.pc[r] == Calls(c.kind, c.size)
  }

  // ---------------------------------------------------------------- parity-ordered ring

  predicate SendDone(r: nat, pc: nat) { if r % 2 == 0 then pc >= 1 else pc >= 2 }

  predicate RecvDone(r: nat, pc: nat) { if r % 2 == 0 then pc >= 2 else pc >= 1 }

  /** Both ends of every edge agree on whether its message has passed. */
  ghost predicate RingInv<V>(c: Config<V>, s: State<V>) {
    && Shape(c, s) && c.kind.ParityRing?
    && (forall r | 0 <= r < c.size :: SendDone(r, s.pc[r]) <==> RecvDone(Left(c.size, r), s.pc[Left(c.size, r)]))
    && (forall r | 0 <= r < c.size ::
          RecvDone(r, s.pc[r]) ==> s.got[r] == map[Right(c.size, r) := c.data[Right(c.size, r)][r]])
    && (forall r | 0 <= r < c.size :: !RecvDone(r, s.pc[r]) ==> s.got[r] == map[])
  }

  lemma RingStep<V>(c: Config<V>, s: State<V>, ev: Event)
    requires RingInv(c, s) && Enabled(c, s, ev)
    ensures RingInv(c, Step(c, s, ev))
  {
    assert ev.q == Left(c.size, ev.r) && ev.r == Right(c.size, ev.q);
    var s' := Step(c, s, ev);
    forall r | 0 <= r < c.size
      ensures SendDone(r, s'.pc[r]) <==> RecvDone(Left(c.size, r), s'.pc[Left(c.size, r)])
    {
      assert Right(c.size, Left(c.size, r)) == r;
    }
  }

  /** An even rank that has not sent yet can, or its even left neighbour (rank 0 of an odd ring) can. */
  lemma EvenSends<V>(c: Config<V>, s: State<V>, r: nat) returns (ev: Event)
    requires RingInv(c, s) && r < c.size && r % 2 == 0 && s.pc[r] == 0
    ensures Enabled(c, s, ev)
  {
    var l := Left(c.size, r);
    assert Right(c.size, l) == r;
    if l % 2 == 0 && s.pc[l] == 0 {
      ev := Meet(l, l - 1);
      assert Left(c.size, l) == l - 1 && Right(c.size, l - 1) == l;
    } else {
      ev := Meet(r, l);
    }
  }

  lemma RingCanMove<V>(c: Config<V>, s: State<V>, r: nat) returns (ev: Event)
    requires RingInv(c, s) && r < c.size && s.pc[r] < 2
    ensures Enabled(c, s, ev)
  {
    var l, q := Left(c.size, r), Right(c.size, r);
    assert Left(c.size, q) == r && Right(c.size, l) == r && Left(c.size, Right(c.size, q)) == q;
    if r % 2 == 0 {
      if s.pc[r] == 0 {
        ev := EvenSends(c, s, r);
      } else if q % 2 == 1 && s.pc[q] == 0 {
        ev := EvenSends(c, s, Right(c.size, q));
      } else {
        ev := Meet(q, r);
      }
    } else if s.pc[r] == 0 {
      ev := Meet(q, r);
    } else if s.pc[l] == 0 {
      ev := EvenSends(c, s, l);
    } else {
      ev := Meet(r, l);
    }
  }

  // ---------------------------------------------------------------- ascending pairs

  /** The peer rank r is at; `size` when it has been through all of them. */
  function Cur<V>(s: State<V>, r: nat): nat
    requires r < |s.pc|
  {
    PeerAt(r, s.pc[r])
  }

  /** Whether rank i has been past peer j, and what it got if so. */
  ghost predicate PairOk<V>(c: Config<V>, s: State<V>, i: nat, j: nat)
    requires c.Valid() && |s.pc| == |s.got| == c.size && i < c.size && j < c.size
  {
    if Cur(s, i) > j then j in s.got[i] && s.got[i][j] == c.data[j][i] else j !in s.got[i]
  }

  ghost predicate PairsInv<V>(c: Config<V>, s: State<V>) {
    && Shape(c, s) && c.kind.AscendingPairs?
    && (forall i, j | 0 <= i < c.size && 0 <= j < c.size && i != j :: Cur(s, i) > j <==> Cur(s, j) > i)
    && (forall i, j | 0 <= i < c.size && 0 <= j < c.size && i != j :: PairOk(c, s, i, j))
    && (forall i, j | 0 <= i < c.size && j in s.got[i] :: j < c.size && j != i)
  }

  /** A meeting takes exactly its two ranks past each other. */
  lemma MeetingPasses<V>(c: Config<V>, s: State<V>, ev: Event, i: nat, j: nat)
    requires Shape(c, s) && c.kind.AscendingPairs? && Enabled(c, s, ev) && i < c.size && j < c.size && i != j
    ensures var s' := Step(c, s, ev);
            && |s'.pc| == |s'.got| == c.size
            && (Cur(s', i) > j <==> Cur(s, i) > j || (i == ev.r && j == ev.q) || (i == ev.q && j == ev.r))
            && (PairOk(c, s, i, j) ==> PairOk(c, s', i, j))
  {
    var s', r, q := Step(c, s, ev), ev.r, ev.q;
    assert s'.got[r] == s.got[r][q := c.data[q][r]] && s'.got[q] == s.got[q][r := c.data[r][q]];
    assert i != r && i != q ==> s'.pc[i] == s.pc[i] && s'.got[i] == s.got[i];
  }

  lemma PairsStep<V>(c: Config<V>, s: State<V>, ev: Event)
    requires PairsInv(c, s) && Enabled(c, s, ev)
    ensures PairsInv(c, Step(c, s, ev))
  {
    var s' := Step(c, s, ev);
    forall i, j | 0 <= i < c.size && 0 <= j < c.size && i != j
      ensures (Cur(s', i) > j <==> Cur(s', j) > i) && PairOk(c, s', i, j)
    {
      MeetingPasses(c, s, ev, i, j);
      MeetingPasses(c, s, ev, j, i);
      assert PairOk(c, s, i, j);
    }
  }

  lemma SmallestUnfinished<V>(c: Config<V>, s: State<V>, r: nat) returns (i: nat)
    requires Shape(c, s) && r < c.size && s.pc[r] < Calls(c.kind, c.size)
    ensures i < c.size && s.pc[i] < Calls(c.kind, c.size)
    ensures forall k | 0 <= k < i :: s.pc[k] == Calls(c.kind, c.size)
  {
    i := 0;
    while s.pc[i] == Calls(c.kind, c.size)
      invariant i <= r && forall k | 0 <= k < i :: s.pc[k] == Calls(c.kind, c.size)
      decreases r - i
    {
      i := i + 1;
    }
  }

  /** The smallest unfinished rank always finds its peer waiting for it. */
  lemma PairsCanMove<V>(c: Config<V>, s: State<V>, r: nat) returns (ev: Event)
    requires PairsInv(c, s) && r < c.size && s.pc[r] < Calls(c.kind, c.size)
    ensures Enabled(c, s, ev)
  {
    var i := SmallestUnfinished(c, s, r);
    var j := Cur(s, i);
    assert forall k | 0 <= k < i :: Cur(s, k) == c.size;
    assert j < c.size;
    assert Cur(s, i) > j <==> Cur(s, j) > i;
    var k := Cur(s, j);
    assert k < c.size ==> (Cur(s, j) > k <==> Cur(s, k) > j);
    ev := Meet(i, j);
  }

  // ---------------------------------------------------------------- every run

  ghost predicate Inv<V>(c: Config<V>, s: State<V>) {
    if c.kind.ParityRing? then RingInv(c, s) else PairsInv(c, s)
  }

  lemma {:induction false} RunInv<V>(c: Config<V>, schedule: seq<Event>)
    requires c.Valid() && !c.kind.SendFirstRing?
    ensures Inv(c, Run(c, schedule))
  {
    if schedule == [] {
      assert forall i | 0 <= i < c.size :: Cur(Init(c), i) == if i == 0 then 1 else 0;
    } else {
      RunInv(c, schedule[..|schedule| - 1]);
      var s, ev := Run(c, schedule[..|schedule| - 1]), schedule[|schedule| - 1];
      if Enabled(c, s, ev) {
        if c.kind.ParityRing? { RingStep(c, s, ev); } else { PairsStep(c, s, ev); }
      }
    }
  }

  /** Whoever meets whom first, an unfinished exchange can always go on. */
  lemma NeverDeadlocks<V>(c: Config<V>, schedule: seq<Event>) returns (ev: Event)
    requires c.Valid() && !c.kind.SendFirstRing? && !Complete(c, Run(c, schedule))
    ensures Shape(c, Run(c, schedule)) && Enabled(c, Run(c, schedule), ev)
  {
    RunInv(c, schedule);
    var s := Run(c, schedule);
    var r :| 0 <= r < c.size && s.pc[r] != Calls(c.kind, c.size);
    if c.kind.ParityRing? { ev := RingCanMove(c, s, r); } else { ev := PairsCanMove(c, s, r); }
  }

  /** Finished, every rank of the ring holds its right neighbour's data, and every rank of the pairwise
      exchange holds what each peer had for it, and nothing else. */
  lemma EveryoneHasTheData<V>(c: Config<V>, schedule: seq<Event>, r: nat)
    requires c.Valid() && !c.kind.SendFirstRing? && r < c.size && Complete(c, Run(c, schedule))
    ensures |Run(c, schedule).got| == c.size
    ensures c.kind.ParityRing? ==> Run(c, schedule).got[r] == map[Right(c.size, r) := c.data[Right(c.size, r)][r]]
    ensures c.kind.AscendingPairs? ==>
              forall q: nat ::
                               if q < c.size && q != r
                               then q in Run(c, schedule).got[r] && Run(c, schedule).got[r][q] == c.data[q][r]
                               else q !in Run(c, schedule).got[r]
  {
    RunInv(c, schedule);
    var s := Run(c, schedule);
    if c.kind.AscendingPairs? {
      assert Cur(s, r) == c.size;
      forall q: nat
        ensures if q < c.size && q != r then q in s.got[r] && s.got[r][q] == c.data[q][r] else q !in s.got[r]
      {
        assert q < c.size && q != r ==> Cur(s, r) > q && PairOk(c, s, r, q);
      }
    }
  }

  /** With every rank sending first nothing ever happens, for any number of ranks. */
  lemma {:induction false} SendFirstDeadlocks<V>(c: Config<V>, schedule: seq<Event>)
    requires c.Valid() && c.kind.SendFirstRing?
    ensures Run(c, schedule) == Init(c) && !Complete(c, Run(c, schedule))
  {
    if schedule != [] {
      SendFirstDeadlocks(c, schedule[..|schedule| - 1]);
    } else {
      assert Init(c).pc[0] == 0;
    }
  }

  // ---------------------------------------------------------------- meetings are counted

  function Total(pc: seq<nat>): nat { if pc == [] then 0 else Total(pc[..|pc| - 1]) + pc[|pc| - 1] }

  lemma {:induction false} TotalOfUpdate(pc: seq<nat>, r: nat, v: nat)
    requires r < |pc|
    ensures Total(pc[r := v]) == Total(pc) - pc[r] + v
  {
    var n := |pc| - 1;
    if r == n {
      assert pc[r := v][..n] == pc[..n];
    } else {
      TotalOfUpdate(pc[..n], r, v);
      assert pc[r := v][..n] == pc[..n][r := v];
    }
  }

  lemma {:induction false} TotalBounded(pc: seq<nat>, m: nat)
    requires forall r | 0 <= r < |pc| :: pc[r] <= m
    ensures Total(pc) <= Times(|pc|, m)
    ensures Total(pc) == Times(|pc|, m) <==> forall r | 0 <= r < |pc| :: pc[r] == m
  {
    if pc != [] { TotalBounded(pc[..|pc| - 1], m); }
  }

  /** Number of meetings in a schedule. */
  ghost function Meetings<V>(c: Config<V>, schedule: seq<Event>): nat {
    if schedule == [] then 0
    else
      var s, ev := Run(c, schedule[..|schedule| - 1]), schedule[|schedule| - 1];
      Meetings(c, schedule[..|schedule| - 1]) + if Shape(c, s) && Enabled(c, s, ev) then 1 else 0
  }

  lemma MeetingCounts<V>(c: Config<V>, s: State<V>, ev: Event)
    requires Shape(c, s) && Enabled(c, s, ev)
    ensures Shape(c, Step(c, s, ev)) && Total(Step(c, s, ev).pc) == Total(s.pc) + 2
  {
    TotalOfUpdate(s.pc, ev.r, s.pc[ev.r] + 1);
    var once: seq<nat> := s.pc[ev.r := s.pc[ev.r] + 1];
    TotalOfUpdate(once, ev.q, s.pc[ev.q] + 1);
  }

  lemma {:induction false} MeetingsCounted<V>(c: Config<V>, schedule: seq<Event>)
    requires c.Valid()
    ensures Shape(c, Run(c, schedule)) && 2 * Meetings(c, schedule) == Total(Run(c, schedule).pc)
  {
    if schedule == [] {
      AllZero(Init(c).pc);
    } else {
      MeetingsCounted(c, schedule[..|schedule| - 1]);
      var s, ev := Run(c, schedule[..|schedule| - 1]), schedule[|schedule| - 1];
      if Enabled(c, s, ev) { MeetingCounts(c, s, ev); }
    }
  }

  lemma {:induction false} AllZero(pc: seq<nat>)
    requires forall r | 0 <= r < |pc| :: pc[r] == 0
    ensures Total(pc) == 0
  {
    if pc != [] { AllZero(pc[..|pc| - 1]); }
  }

  /** The exchange is over exactly after size * calls / 2 meetings, and no schedule has more. */
  lemma FinishedIff<V>(c: Config<V>, schedule: seq<Event>)
    requires c.Valid()
    ensures 2 * Meetings(c, schedule) <= Times(c.size, Calls(c.kind, c.size))
    ensures Complete(c, Run(c, schedule)) <==> 2 * Meetings(c, schedule) == Times(c.size, Calls(c.kind, c.size))
  {
    MeetingsCounted(c, schedule);
    TotalBounded(Run(c, schedule).pc, Calls(c.kind, c.size));
  }
}
