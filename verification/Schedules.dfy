/** Schedules put together from others. */
module Schedules {

  function Repeat<E>(ev: E, n: nat): (evs: seq<E>)
    ensures |evs| == n && forall i | 0 <= i < n :: evs[i] == ev
  {
    seq(n, i => ev)
  }

  lemma RepeatOneMore<E>(schedule: seq<E>, ev: E, n: nat)
    ensures (schedule + [ev]) + Repeat(ev, n) == schedule + Repeat(ev, n + 1)
  {
  }

  lemma FrontOf<E>(a: seq<E>, b: seq<E>)
    requires b != []
    ensures (a + b)[..|a + b| - 1] == a + b[..|b| - 1] && (a + b)[|a + b| - 1] == b[|b| - 1]
  {
  }

  lemma Regrouped<E>(a: seq<E>, b: seq<E>, d: seq<E>, e: seq<E>)
    ensures a + (b + d + e) == ((a + b) + d) + e
  {
  }

  lemma Joined<E>(a: seq<E>, ev: E, b: seq<E>)
    ensures a + ([ev] + b) == (a + [ev]) + b && a + [] == a
  {
  }
}
