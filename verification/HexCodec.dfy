/** The adapter's hexadecimal codec (src/server/driver/skf_adapter.c:161-212). */
module HexCodec {
  import opened Common
  import opened CStrings
  import Numerals

  type Byte = x: int | 0 <= x < 256

  function HexDigit(c: char): (v: int)
    ensures -1 <= v < 16
  {
    if '0' <= c <= '9' then c as int - 48
    else if 'a' <= c <= 'f' then c as int - 97 + 10
    else if 'A' <= c <= 'F' then c as int - 65 + 10
    else -1
  }

  predicate IsSeparator(c: char) { c == ' ' || c == ':' || c == '-' }

  /** `decode_hex` from `s` on, with the bytes `done` already written; `None` is its -1 return. */
  function Decode(s: string, cap: nat, done: seq<Byte>): Option<seq<Byte>>
    decreases |s|
  {
    if s == "" then Some(done)
    else if IsSeparator(s[0]) then Decode(s[1..], cap, done)
    else if |s| < 2 then None
    else
      var hi, lo := HexDigit(s[0]), HexDigit(s[1]);
      if hi < 0 || lo < 0 || |done| >= cap then None
      else Decode(s[2..], cap, done + [16 * hi + lo])
  }

  method DecodeHex(hex: string, out: array<Byte>, cap: nat) returns (rc: int, len: nat)
    requires cap <= out.Length
    modifies out
    ensures rc == 0 || rc == -1
    ensures rc == 0 <==> Decode(hex, cap, []).Some?
    ensures len <= cap && (rc == 0 ==> Decode(hex, cap, []) == Some(out[..len]))
    ensures out[cap..] == old(out[cap..])
  {
    len := 0;
    var p := 0;
    assert hex[0..] == hex && out[..0] == [];
    while p < |hex|
      invariant 0 <= p <= |hex| && len <= cap
      invariant Decode(hex, cap, []) == Decode(hex[p..], cap, out[..len])
      invariant out[cap..] == old(out[cap..])
    {
      while p < |hex| && IsSeparator(hex[p])
        invariant 0 <= p <= |hex|
        invariant Decode(hex, cap, []) == Decode(hex[p..], cap, out[..len])
      {
        assert hex[p..][1..] == hex[p + 1..];
        p := p + 1;
      }
      if p == |hex| { break; }
      var hi := HexDigit(hex[p]);
      if p + 1 == |hex| { return -1, len; }
      var lo := HexDigit(hex[p + 1]);
      if hi < 0 || lo < 0 || len >= cap { return -1, len; }
      assert hex[p..][2..] == hex[p + 2..];
      ghost var done := out[..len];
      out[len] := 16 * hi + lo;
      len := len + 1;
      assert out[..len] == done + [16 * hi + lo];
      p := p + 2;
    }
    assert hex[p..] == "";
    return 0, len;
  }

  function Digit(d: nat): (c: char)
    requires d < 16
    ensures HexDigit(c) == d && !IsSeparator(c) && c != '\0'
  {
    if d < 10 then (48 + d) as char else (87 + d) as char
  }

  function Pair(b: Byte): string { [Digit(b / 16), Digit(b % 16)] }

  function HexOf(bytes: seq<Byte>): string {
    if bytes == [] then "" else Pair(bytes[0]) + HexOf(bytes[1..])
  }

  lemma {:induction false} HexOfAppend(bytes: seq<Byte>, b: Byte)
    ensures HexOf(bytes + [b]) == HexOf(bytes) + Pair(b)
  {
    if bytes == [] {
      assert bytes + [b] == [b] && [b][1..] == [];
    } else {
      assert (bytes + [b])[1..] == bytes[1..] + [b];
      HexOfAppend(bytes[1..], b);
    }
  }

  lemma {:induction false} HexOfShape(bytes: seq<Byte>)
    ensures |HexOf(bytes)| == 2 * |bytes| && NulFree(HexOf(bytes))
  {
    if bytes != [] { HexOfShape(bytes[1..]); }
  }

  /** How many whole bytes a buffer of `size` characters shows. */
  function Shown(n: nat, size: nat): nat
    requires size > 0
  {
    if n <= (size - 1) / 2 then n else (size - 1) / 2
  }

  method BytesToHex(input: seq<Byte>, out: array<char>)
    modifies out
    ensures out.Length > 0 ==> CStr(out[..]) == HexOf(input[..Shown(|input|, out.Length)])
  {
    if out.Length == 0 { return; }
    var pos, i := 0, 0;
    while i < |input| && pos + 2 < out.Length
      invariant 0 <= i <= |input| && pos == 2 * i && pos < out.Length
      invariant out[..pos] == HexOf(input[..i])
    {
      ghost var before := out[..pos];
      out[pos] := Digit(input[i] / 16);
      out[pos + 1] := Digit(input[i] % 16);
      assert out[..pos + 2] == before + Pair(input[i]);
      assert input[..i + 1] == input[..i] + [input[i]];
      HexOfAppend(input[..i], input[i]);
      pos, i := pos + 2, i + 1;
    }
    assert i == Shown(|input|, out.Length);
    HexOfShape(input[..i]);
    ghost var text := out[..pos];
    out[pos] := '\0';
    assert out[..pos] == text;
    CStrIs(text, out[..]);
  }

  // ------------------------------------------------------------- the codec's laws

  predicate AllSeparators(g: string) { forall i :: 0 <= i < |g| ==> IsSeparator(g[i]) }

  /** The bytes in hexadecimal with a gap before each pair and after the last. */
  function Spaced(bytes: seq<Byte>, gaps: seq<string>): string
    requires |gaps| == |bytes| + 1
  {
    if bytes == [] then gaps[0] else gaps[0] + (Pair(bytes[0]) + Spaced(bytes[1..], gaps[1..]))
  }

  lemma {:induction false} GapSkipped(g: string, rest: string, cap: nat, done: seq<Byte>)
    requires AllSeparators(g)
    ensures Decode(g + rest, cap, done) == Decode(rest, cap, done)
  {
    if g == "" {
      assert g + rest == rest;
    } else {
      assert (g + rest)[1..] == g[1..] + rest;
      GapSkipped(g[1..], rest, cap, done);
    }
  }

  /** Spaces, colons and dashes between pairs never change what is decoded. */
  lemma {:induction false} SeparatorsIgnored(bytes: seq<Byte>, gaps: seq<string>, cap: nat, done: seq<Byte>)
    requires |gaps| == |bytes| + 1 && forall i :: 0 <= i < |gaps| ==> AllSeparators(gaps[i])
    ensures Decode(Spaced(bytes, gaps), cap, done) == if bytes == [] || |done| + |bytes| <= cap then Some(done + bytes) else None
    decreases |bytes|
  {
    if bytes == [] {
      assert gaps[0] + "" == gaps[0] && done + bytes == done;
      GapSkipped(gaps[0], "", cap, done);
    } else {
      var b, rest := bytes[0], Spaced(bytes[1..], gaps[1..]);
      GapSkipped(gaps[0], Pair(b) + rest, cap, done);
      var s := Pair(b) + rest;
      assert s[0] == Digit(b / 16) && s[1] == Digit(b % 16) && s[2..] == rest;
      assert 16 * (b / 16) + b % 16 == b;
      if |done| < cap {
        assert forall i :: 0 <= i < |gaps[1..]| ==> gaps[1..][i] == gaps[i + 1];
        SeparatorsIgnored(bytes[1..], gaps[1..], cap, done + [b]);
        assert done + [b] + bytes[1..] == done + bytes;
      }
    }
  }

  function NoGaps(n: nat): seq<string> { seq(n, _ => "") }

  lemma {:induction false} HexOfIsSpaced(bytes: seq<Byte>)
    ensures HexOf(bytes) == Spaced(bytes, NoGaps(|bytes| + 1))
  {
    if bytes != [] {
      HexOfIsSpaced(bytes[1..]);
      assert NoGaps(|bytes| + 1)[1..] == NoGaps(|bytes|);
    }
  }

  /** Printing into a buffer of `size` and decoding gives back exactly the bytes that were shown. */
  lemma HexRoundTrip(bytes: seq<Byte>, size: nat, cap: nat)
    requires size > 0 && |bytes| <= cap
    ensures Decode(HexOf(bytes[..Shown(|bytes|, size)]), cap, []) == Some(bytes[..Shown(|bytes|, size)])
  {
    var shown := bytes[..Shown(|bytes|, size)];
    HexOfIsSpaced(shown);
    SeparatorsIgnored(shown, NoGaps(|shown| + 1), cap, []);
    assert [] + shown == shown;
  }

  function LowerHex(c: char): char { if 'A' <= c <= 'F' then (c as int + 32) as char else c }

  /** The text without separators, in lower case. */
  function Stripped(s: string): string {
    if s == "" then "" else (if IsSeparator(s[0]) then "" else [LowerHex(s[0])]) + Stripped(s[1..])
  }

  /** A pair of digits: what is left of it is the byte's printed pair, and the byte comes first. */
  lemma PairIsByte(s: string, b: Byte, rest: seq<Byte>)
    requires |s| >= 2 && HexDigit(s[0]) >= 0 && HexDigit(s[1]) >= 0 && b == 16 * HexDigit(s[0]) + HexDigit(s[1])
    requires Stripped(s[2..]) == HexOf(rest)
    ensures Stripped(s) == HexOf([b] + rest)
  {
    var hi, lo := HexDigit(s[0]), HexDigit(s[1]);
    LowerIsDigit(s[0]);
    LowerIsDigit(s[1]);
    NibblesOf(b, hi, lo);
    assert s[1..][1..] == s[2..];
    StrippedStep(s, s[1..]);
    StrippedStep(s[1..], s[2..]);
    HexOfStep(b, hi, lo, rest);
  }

  lemma NibblesOf(b: Byte, hi: nat, lo: nat)
    requires hi < 16 && lo < 16 && b == 16 * hi + lo
    ensures b / 16 == hi && b % 16 == lo
  {
  }

  lemma StrippedStep(s: string, rest: string)
    requires s != "" && rest == s[1..] && !IsSeparator(s[0])
    ensures Stripped(s) == [LowerHex(s[0])] + Stripped(rest)
  {
  }

  lemma HexOfStep(b: Byte, hi: nat, lo: nat, rest: seq<Byte>)
    requires hi < 16 && lo < 16 && b / 16 == hi && b % 16 == lo
    ensures HexOf([b] + rest) == [Digit(hi)] + ([Digit(lo)] + HexOf(rest))
  {
    assert ([b] + rest)[1..] == rest;
    assert Pair(b) + HexOf(rest) == [Digit(hi)] + ([Digit(lo)] + HexOf(rest));
  }

  /** Conversely, whatever decodes is the hexadecimal form of its bytes up to case and separators,
      and has no more bytes than the buffer. */
  lemma {:induction false} DecodedTextIsHex(s: string, cap: nat, done: seq<Byte>)
    requires Decode(s, cap, done).Some? && |done| <= cap
    ensures var r := Decode(s, cap, done).value;
      |done| <= |r| <= cap && r[..|done|] == done && Stripped(s) == HexOf(r[|done|..])
    decreases |s|
  {
    if s == "" {
    } else if IsSeparator(s[0]) {
      DecodedTextIsHex(s[1..], cap, done);
    } else {
      var b := 16 * HexDigit(s[0]) + HexDigit(s[1]);
      DecodedTextIsHex(s[2..], cap, done + [b]);
      var r := Decode(s, cap, done).value;
      FirstOfRest(r, done, b);
      PairIsByte(s, b, r[|done| + 1..]);
    }
  }

  lemma FirstOfRest(r: seq<Byte>, done: seq<Byte>, b: Byte)
    requires |done| < |r| && r[..|done| + 1] == done + [b]
    ensures r[..|done|] == done && r[|done|..] == [b] + r[|done| + 1..]
  {
    assert r[..|done| + 1][..|done|] == r[..|done|];
    assert r[..|done| + 1][|done|] == r[|done|];
  }

  lemma LowerIsDigit(c: char)
    requires HexDigit(c) >= 0
    ensures LowerHex(c) == Digit(HexDigit(c)) && !IsSeparator(c)
  {
  }

  // ------------------------------------------------------------- the codec against numerals

  /** A space, a colon or a dash. */
  predicate IsGap(g: string) { forall i :: 0 <= i < |g| ==> g[i] in " :-" }

  lemma GapIffSeparators(g: string)
    ensures IsGap(g) <==> AllSeparators(g)
  {
    forall i | 0 <= i < |g| ensures g[i] in " :-" <==> IsSeparator(g[i]) { GapByCharacter(g[i]); }
  }

  lemma GapByCharacter(c: char)
    ensures c in " :-" <==> IsSeparator(c)
  {
    var gap := " :-";
    assert gap[0] == ' ' && gap[1] == ':' && gap[2] == '-';
  }

  /** Spaces, colons and dashes may stand before, between and behind the pairs: all bytes are decoded as
      long as the buffer has room for them. */
  lemma GapsIgnored(bytes: seq<Byte>, gaps: seq<string>, cap: nat)
    requires |gaps| == |bytes| + 1 && forall i :: 0 <= i < |gaps| ==> IsGap(gaps[i])
    ensures Decode(Spaced(bytes, gaps), cap, []) == if |bytes| <= cap then Some(bytes) else None
  {
    forall i | 0 <= i < |gaps| ensures AllSeparators(gaps[i]) { GapIffSeparators(gaps[i]); }
    SeparatorsIgnored(bytes, gaps, cap, []);
    assert [] + bytes == bytes;
  }

  /** A byte is printed as the two digits of its value in base sixteen, in lower case. */
  lemma PairIsNumeral(b: Byte)
    ensures |Pair(b)| == 2 && Numerals.ValueOf(Pair(b), 16) == b
    ensures forall i :: 0 <= i < 2 ==> Numerals.DigitOf(Pair(b)[i]) < 16
  {
    var hi, lo := Digit(b / 16), Digit(b % 16);
    DigitOfDigit(b / 16);
    DigitOfDigit(b % 16);
    Numerals.ZeroDigit([hi], 16);
    Numerals.ValueAppend([hi], lo, 16);
    assert Pair(b) == [hi] + [lo];
  }

  lemma DigitOfDigit(d: nat)
    requires d < 16
    ensures Numerals.DigitOf(Digit(d)) == d
  {
  }

  /** A digit is read in either case, and nothing else is. */
  lemma HexDigitIff(c: char, v: nat)
    requires v < 16
    ensures HexDigit(c) == v <==> Numerals.DigitOf(c) == v || (v >= 10 && c in "ABCDEF" && c as int == 'A' as int + (v - 10))
  {
    CapitalDigits(c);
  }

  lemma CapitalDigits(c: char)
    ensures c in "ABCDEF" <==> 'A' <= c <= 'F'
  {
    var s := "ABCDEF";
    if 'A' <= c <= 'F' { assert s[c as int - 65] == c; }
  }
}
