/** Bytes as lower-case hex text (base 16 of section 8 of RFC 4648, with lower-case output), and the
    retry loop that reads such text back from the key-value store. */
module HexBlob {
  import opened Wrappers

  type byte = x: int | 0 <= x < 256

  const DIGITS := "0123456789abcdef"

  // ---------------------------------------------------------------- nibbles

  /** Value of a hex digit of either case, or -1. */
  function HexNibble(c: char): (v: int)
    ensures -1 <= v < 16
    ensures v >= 0 ==> Digit(v) == Lower(c)
  {
    if '0' <= c <= '9' then c as int - '0' as int
    else if 'a' <= c <= 'f' then 10 + (c as int - 'a' as int)
    else if 'A' <= c <= 'F' then 10 + (c as int - 'A' as int)
    else -1
  }

  function Lower(c: char): char {
    if 'A' <= c <= 'F' then (c as int - 'A' as int + 'a' as int) as char else c
  }

  predicate IsHex(c: char) { HexNibble(c) >= 0 }

  /** The lower-case digit of value v. */
  function Digit(v: nat): char
    requires v < 16
  {
    if v < 10 then ('0' as int + v) as char else ('a' as int + v - 10) as char
  }

  /** The digit table spells them out. */
  lemma DigitTable(v: nat)
    requires v < 16
    ensures |DIGITS| == 16 && DIGITS[v] == Digit(v)
  {
    var d := "0123456789abcdef";
    assert d[v] == Digit(v);
  }

  lemma NibbleOfDigit(v: nat)
    requires v < 16
    ensures HexNibble(Digit(v)) == v && Lower(Digit(v)) == Digit(v) && Digit(v) != '\0'
  {
  }

  function HexByte(b: byte): (s: string)
    ensures |s| == 2
  {
    [Digit(b / 16), Digit(b % 16)]
  }

  function UnhexByte(hi: char, lo: char): Option<byte> {
    if IsHex(hi) && IsHex(lo) then Some(16 * HexNibble(hi) + HexNibble(lo)) else None
  }

  lemma ByteRoundTrip(b: byte)
    ensures UnhexByte(HexByte(b)[0], HexByte(b)[1]) == Some(b)
  {
    NibbleOfDigit(b / 16);
    NibbleOfDigit(b % 16);
  }

  lemma NibblesSplit(h: nat, l: nat, b: byte)
    requires h < 16 && l < 16 && b == 16 * h + l
    ensures HexByte(b) == [Digit(h), Digit(l)]
  {
    assert b / 16 == h;
    assert b % 16 == l;
  }

  lemma TextRoundTrip(hi: char, lo: char)
    requires IsHex(hi) && IsHex(lo)
    ensures HexByte(UnhexByte(hi, lo).value) == [Lower(hi), Lower(lo)]
  {
    var h, l := HexNibble(hi), HexNibble(lo);
    NibblesSplit(h, l, 16 * h + l);
    assert Digit(h) == Lower(hi) && Digit(l) == Lower(lo);
  }

  // ---------------------------------------------------------------- what the loops compute

  function Hex(data: seq<byte>): (s: string)
    ensures |s| == 2 * |data|
  {
    if data == [] then "" else Hex(data[..|data| - 1]) + HexByte(data[|data| - 1])
  }

  /** The bytes spelled by `s`, unless its length is odd or a character is no hex digit. */
  function Unhex(s: string): Option<seq<byte>> {
    if s == "" then Some([])
    else if |s| == 1 then None
    else
      match (Unhex(s[..|s| - 2]), UnhexByte(s[|s| - 2], s[|s| - 1]))
      case (Some(front), Some(b)) => Some(front + [b])
      case _ => None
  }

  function LowerAll(s: string): (t: string)
    ensures |t| == |s|
  {
    if s == "" then "" else LowerAll(s[..|s| - 1]) + [Lower(s[|s| - 1])]
  }

  // ---------------------------------------------------------------- round trips

  lemma {:induction false} DecodeAfterEncode(data: seq<byte>)
    ensures Unhex(Hex(data)) == Some(data)
  {
    if data != [] {
      var n := |data| - 1;
      DecodeAfterEncode(data[..n]);
      ByteRoundTrip(data[n]);
      var s := Hex(data);
      assert s[..2 * n] == Hex(data[..n]) && s[2 * n..] == HexByte(data[n]);
      assert s[2 * n] == s[2 * n..][0] && s[2 * n + 1] == s[2 * n..][1];
      assert data[..n] + [data[n]] == data;
    }
  }

  /** Character by character: byte i is two digits of the table, high nibble first. */
  lemma {:induction false} HexSpells(data: seq<byte>, i: nat)
    requires i < |data|
    ensures |DIGITS| == 16
    ensures Hex(data)[2 * i] == DIGITS[data[i] / 16] && Hex(data)[2 * i + 1] == DIGITS[data[i] % 16]
  {
    var n := |data| - 1;
    if i < n {
      HexSpells(data[..n], i);
    } else {
      DigitTable(data[n] / 16);
      DigitTable(data[n] % 16);
    }
  }

  lemma HexSnoc(data: seq<byte>, b: byte)
    ensures Hex(data + [b]) == Hex(data) + HexByte(b)
  {
    assert (data + [b])[..|data|] == data;
  }

  lemma LowerOne(s: string)
    requires |s| >= 1
    ensures LowerAll(s) == LowerAll(s[..|s| - 1]) + [Lower(s[|s| - 1])]
  {
  }

  lemma AppendTwo(a: string, p: char, q: char)
    ensures (a + [p]) + [q] == a + [p, q]
  {
  }

  lemma LowerSnoc(s: string)
    requires |s| >= 2
    ensures LowerAll(s) == LowerAll(s[..|s| - 2]) + [Lower(s[|s| - 2]), Lower(s[|s| - 1])]
  {
    var n := |s| - 2;
    var front, back := s[..n + 1], s[..n];
    assert front[..n] == back && front[n] == s[n];
    LowerOne(s);
    LowerOne(front);
    AppendTwo(LowerAll(back), Lower(s[n]), Lower(s[n + 1]));
  }

  /** Decoding loses nothing but the case of the letters. */
  lemma {:induction false} EncodeAfterDecode(s: string)
    requires Unhex(s).Some?
    ensures Hex(Unhex(s).value) == LowerAll(s)
  {
    if s != "" {
      var n := |s| - 2;
      EncodeAfterDecode(s[..n]);
      TextRoundTrip(s[n], s[n + 1]);
      HexSnoc(Unhex(s[..n]).value, UnhexByte(s[n], s[n + 1]).value);
      LowerSnoc(s);
    }
  }

  /** Decoding fails exactly on odd lengths and foreign characters. */
  lemma {:induction false} DecodesIff(s: string)
    ensures Unhex(s).Some? <==> |s| % 2 == 0 && forall i | 0 <= i < |s| :: IsHex(s[i])
  {
    if |s| >= 2 {
      DecodesIff(s[..|s| - 2]);
      assert forall i | 0 <= i < |s| - 2 :: s[..|s| - 2][i] == s[i];
    }
  }

  // ---------------------------------------------------------------- the loops

  lemma OneMoreByte(data: seq<byte>, i: nat)
    requires i < |data|
    ensures Hex(data[..i + 1]) == Hex(data[..i]) + HexByte(data[i])
  {
    assert data[..i + 1][..i] == data[..i];
  }

  lemma OneMorePair(s: string, i: nat)
    requires 2 * i + 1 < |s|
    ensures var front, b := Unhex(s[..2 * i]), UnhexByte(s[2 * i], s[2 * i + 1]);
            Unhex(s[..2 * i + 2]) == if front.Some? && b.Some? then Some(front.value + [b.value]) else None
  {
    assert s[..2 * i + 2][..2 * i] == s[..2 * i];
  }

  method HexEncode(data: seq<byte>) returns (out: array<char>)
    ensures fresh(out) && out[..] == Hex(data)
  {
    out := new char[2 * |data|](_ => '0');
    var i := 0;
    while i < |data|
      invariant 0 <= i <= |data| && out.Length == 2 * |data|
      invariant out[..2 * i] == Hex(data[..i])
    {
      OneMoreByte(data, i);
      var hi, lo := data[i] / 16, data[i] % 16;
      DigitTable(hi);
      DigitTable(lo);
      out[2 * i] := DIGITS[hi];
      out[2 * i + 1] := DIGITS[lo];
      assert out[..2 * (i + 1)] == out[..2 * i] + [out[2 * i], out[2 * i + 1]];
      i := i + 1;
    }
    assert data[..i] == data && out[..2 * i] == out[..];
  }

  method HexDecode(s: string) returns (r: Option<seq<byte>>)
    ensures r == Unhex(s)
  {
    DecodesIff(s);
    if |s| % 2 != 0 { return None; }
    var out: array<byte> := new byte[|s| / 2](_ => 0);
    var i := 0;
    while i < |s| / 2
      invariant 0 <= i <= |s| / 2 && out.Length == |s| / 2
      invariant Unhex(s[..2 * i]) == Some(out[..i])
    {
      OneMorePair(s, i);
      var hi, lo := HexNibble(s[2 * i]), HexNibble(s[2 * i + 1]);
      if hi < 0 || lo < 0 { return None; }
      ghost var front := out[..i];
      var value: byte := 16 * hi + lo;
      assert UnhexByte(s[2 * i], s[2 * i + 1]) == Some(value);
      out[i] := value;
      assert out[..i + 1] == front + [value];
      i := i + 1;
    }
    assert s[..2 * i] == s && out[..i] == out[..];
    return Some(out[..]);
  }

  // ---------------------------------------------------------------- reading back

  datatype Fetched = Blob(bytes: seq<byte>) | NoKey | TooLong | NotHex

  const FIRST_BUFFER := 16 * 1024
  const ATTEMPTS := 4

  /** Buffer size of attempt `i`. */
  function BufferSize(i: nat): nat { if i == 0 then FIRST_BUFFER else 4 * BufferSize(i - 1) }

  /** Values of this length or more are never read: the last buffer tried has 1 MiB. */
  const LIMIT := 1024 * 1024

  /** What the store leaves in a buffer of `size` characters: the value and its trailing NUL, cut off. */
  function StoreGet(value: string, size: nat): string {
    if |value| + 1 <= size then value + ['\0'] else value[..(if |value| <= size then |value| else size)]
  }

  function TrimNul(s: string): string {
    if s != "" && s[|s| - 1] == '\0' then TrimNul(s[..|s| - 1]) else s
  }

  function FetchSpec(value: Option<string>, countsNul: bool): Fetched {
    match value
    case None => NoKey
    case Some(v) =>
      if |v| + (if countsNul then 1 else 0) >= LIMIT then TooLong
      else
        match Unhex(TrimNul(v))
        case None => NotHex
        case Some(bytes) => Blob(bytes)
  }

  /** The loop that grows its buffer until the value fits. `countsNul` says whether the store counts the
      trailing NUL in the length it reports. */
  method FetchBlob(value: Option<string>, countsNul: bool) returns (r: Fetched)
    ensures r == FetchSpec(value, countsNul)
  {
    if value == None { return NoKey; }
    var v := value.value;
    var vallen := |v| + if countsNul then 1 else 0;
    var size, attempt := FIRST_BUFFER, 0;
    while attempt < ATTEMPTS
      invariant 0 <= attempt <= ATTEMPTS && size == BufferSize(attempt)
      invariant attempt > 0 ==> vallen >= BufferSize(attempt - 1)
    {
      var buf := StoreGet(v, size);
      if vallen < size {
        ReadWhole(v, size, countsNul);
        BufferLimits();
        var hexLen := TrimLength(buf, vallen);
        var bytes := HexDecode(buf[..hexLen]);
        return match bytes case None => NotHex case Some(b) => Blob(b);
      }
      size := size * 4;
      attempt := attempt + 1;
    }
    BufferLimits();
    return TooLong;
  }

  /** In a buffer with room to spare the value is there whole. */
  lemma ReadWhole(v: string, size: nat, countsNul: bool)
    requires |v| + (if countsNul then 1 else 0) < size
    ensures var vallen := |v| + if countsNul then 1 else 0;
            vallen <= |StoreGet(v, size)| && TrimNul(StoreGet(v, size)[..vallen]) == TrimNul(v)
  {
    var nul := v + ['\0'];
    assert nul[..|v|] == v && nul[..|nul|] == nul;
    assert TrimNul(nul) == TrimNul(v);
  }

  /** Length without the trailing NULs. */
  method TrimLength(buf: string, vallen: nat) returns (hexLen: nat)
    requires vallen <= |buf|
    ensures hexLen <= vallen && buf[..hexLen] == TrimNul(buf[..vallen])
  {
    hexLen := vallen;
    while hexLen > 0 && buf[hexLen - 1] == '\0'
      invariant 0 <= hexLen <= vallen && TrimNul(buf[..hexLen]) == TrimNul(buf[..vallen])
    {
      assert buf[..hexLen][..hexLen - 1] == buf[..hexLen - 1];
      hexLen := hexLen - 1;
    }
  }

  lemma BufferLimits()
    ensures BufferSize(3) == LIMIT == 1048576
    ensures BufferSize(0) <= BufferSize(1) <= BufferSize(2) <= BufferSize(3)
  {
    assert BufferSize(1) == 4 * FIRST_BUFFER;
    assert BufferSize(2) == 16 * FIRST_BUFFER;
  }

  lemma {:induction false} HexHasNoNul(data: seq<byte>)
    ensures forall i | 0 <= i < |Hex(data)| :: Hex(data)[i] != '\0'
  {
    if data != [] {
      HexHasNoNul(data[..|data| - 1]);
      NibbleOfDigit(data[|data| - 1] / 16);
      NibbleOfDigit(data[|data| - 1] % 16);
    }
  }

  /** What was published is read back byte for byte, exactly when its text stays under the limit; the
      store may or may not count the trailing NUL. */
  lemma FetchOfPublished(data: seq<byte>, countsNul: bool)
    ensures var r := FetchSpec(Some(Hex(data)), countsNul);
            if 2 * |data| + (if countsNul then 1 else 0) < LIMIT then r == Blob(data) else r == TooLong
  {
    DecodeAfterEncode(data);
    HexHasNoNul(data);
    NothingToTrim(Hex(data));
  }

  lemma NothingToTrim(s: string)
    requires s != "" ==> s[|s| - 1] != '\0'
    ensures TrimNul(s) == s
  {
  }
}
