/** Keys of the key-value store: `gicc.<tag>.<n>.<n>...` with decimal numbers. Different parts never
    make the same key. */
module KvsKeys {

  // ---------------------------------------------------------------- decimal numbers

  function Digits(n: nat): (s: string)
    ensures |s| >= 1
  {
    var last := ('0' as int + n % 10) as char;
    if n < 10 then [last] else Digits(n / 10) + [last]
  }

  function ToString(n: int): string { if n < 0 then "-" + Digits(-n) else Digits(n) }

  function Value(s: string): int {
    if s == "" then 0 else 10 * Value(s[..|s| - 1]) + (s[|s| - 1] as int - '0' as int)
  }

  lemma {:induction false} DigitsOk(n: nat)
    ensures Value(Digits(n)) == n && forall i | 0 <= i < |Digits(n)| :: '0' <= Digits(n)[i] <= '9'
  {
    var last := ('0' as int + n % 10) as char;
    if n < 10 {
      assert Digits(n)[..0] == "";
    } else {
      DigitsOk(n / 10);
      assert Digits(n)[..|Digits(n)| - 1] == Digits(n / 10);
    }
  }

  lemma ToStringInjective(m: int, n: int)
    requires ToString(m) == ToString(n)
    ensures m == n
  {
    DigitsOk(if m < 0 then -m else m);
    DigitsOk(if n < 0 then -n else n);
    assert ToString(m)[0] == '-' <==> m < 0;
    assert ToString(n)[0] == '-' <==> n < 0;
    if m < 0 { assert ToString(m)[1..] == Digits(-m) && ToString(n)[1..] == Digits(-n); }
  }

  predicate NoDot(s: string) { '.' !in s }

  lemma ToStringHasNoDot(n: int)
    ensures NoDot(ToString(n))
  {
    DigitsOk(if n < 0 then -n else n);
  }

  // ---------------------------------------------------------------- keys

  function Parts(xs: seq<int>): (s: string)
    ensures s == "" || s[0] == '.'
  {
    if xs == [] then "" else "." + ToString(xs[0]) + Parts(xs[1..])
  }

  function KvsKey(tag: string, xs: seq<int>): string { "gicc." + tag + Parts(xs) }

  lemma {:induction false} PartsAppend(xs: seq<int>, x: int)
    ensures Parts(xs + [x]) == Parts(xs) + "." + ToString(x)
  {
    if xs == [] {
      assert Parts([x]) == "." + ToString(x) + Parts([]);
    } else {
      PartsAppend(xs[1..], x);
      assert (xs + [x])[1..] == xs[1..] + [x];
    }
  }

  /** A key is read from left to right: the tag after the common prefix, then a dot and a number each. */
  lemma KeyText(tag: string, xs: seq<int>, x: int)
    ensures KvsKey(tag, []) == "gicc." + tag
    ensures KvsKey(tag, xs + [x]) == KvsKey(tag, xs) + "." + ToString(x)
  {
    PartsAppend(xs, x);
  }

  /** Numbers are written in decimal, with a minus sign in front of a negative one. */
  lemma NumberText(n: int)
    ensures n >= 0 ==> Value(ToString(n)) == n && forall i | 0 <= i < |ToString(n)| :: '0' <= ToString(n)[i] <= '9'
    ensures n < 0 ==> ToString(n) == "-" + ToString(-n)
    ensures n >= 10 ==> ToString(n)[0] != '0'
  {
    DigitsOk(if n < 0 then -n else n);
    if n >= 10 { NoLeadingZero(n); }
  }

  lemma {:induction false} NoLeadingZero(n: nat)
    requires n >= 1
    ensures Digits(n)[0] != '0'
  {
    if n >= 10 { NoLeadingZero(n / 10); }
  }

  /** A text without dots is recovered from in front of a dot or the end. */
  lemma FirstPart(a: string, b: string, s: string, t: string)
    requires NoDot(a) && NoDot(b) && a + s == b + t
    requires (s == "" || s[0] == '.') && (t == "" || t[0] == '.')
    ensures a == b && s == t
  {
    var w := a + s;
    assert forall i | 0 <= i < |b| :: w[i] == b[i];
    assert forall i | 0 <= i < |a| :: w[i] == a[i];
    assert |a| < |w| ==> w[|a|] == '.';
    assert |b| < |w| ==> w[|b|] == '.';
    assert a == w[..|a|] && s == w[|a|..];
    assert b == w[..|b|] && t == w[|b|..];
  }

  lemma PrefixCancels(p: string, a: string, s: string, b: string, t: string)
    requires p + a + s == p + b + t
    ensures a + s == b + t
  {
    var w := p + a + s;
    assert w[|p|..] == a + s && w[|p|..] == b + t;
  }

  lemma {:induction false} PartsInjective(xs: seq<int>, ys: seq<int>)
    requires Parts(xs) == Parts(ys)
    ensures xs == ys
  {
    if xs != [] && ys != [] {
      var a, s, b, t := ToString(xs[0]), Parts(xs[1..]), ToString(ys[0]), Parts(ys[1..]);
      ToStringHasNoDot(xs[0]);
      ToStringHasNoDot(ys[0]);
      PrefixCancels(".", a, s, b, t);
      FirstPart(a, b, s, t);
      ToStringInjective(xs[0], ys[0]);
      PartsInjective(xs[1..], ys[1..]);
    }
  }

  /** Keys are equal only when tag and numbers are. */
  lemma KeyInjective(tag: string, xs: seq<int>, tag': string, ys: seq<int>)
    requires NoDot(tag) && NoDot(tag') && KvsKey(tag, xs) == KvsKey(tag', ys)
    ensures tag == tag' && xs == ys
  {
    PrefixCancels("gicc.", tag, Parts(xs), tag', Parts(ys));
    FirstPart(tag, tag', Parts(xs), Parts(ys));
    PartsInjective(xs, ys);
  }
}
