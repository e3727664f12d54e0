/** The C library's string functions as the gateway uses them.  A C string is the sequence of
    its characters before the terminating NUL; a `char` stands for one byte. */
module CStrings {
  import opened Common

  /** What `snprintf(dst, size, "%s", s)` leaves in `dst`: at most `size - 1` characters. */
  function Clip(s: string, size: nat): (r: string)
    requires size > 0
    ensures r <= s && |r| < size
    ensures |s| < size ==> r == s
    ensures |s| >= size ==> |r| == size - 1
  {
    if |s| < size then s else s[..size - 1]
  }

  lemma ClipOfPrefix(a: string, b: string, size: nat)
    requires |a| < size && (b == "" || |a| == size - 1)
    ensures Clip(a + b, size) == a
  {
  }

  predicate NulFree(s: string) { '\0' !in s }

  /** The C string that a character buffer holds. */
  function CStr(b: seq<char>): (r: string)
    ensures NulFree(r) && r <= b
  {
    if b == [] || b[0] == '\0' then "" else [b[0]] + CStr(b[1..])
  }

  lemma {:induction false} CStrIs(s: string, b: seq<char>)
    requires NulFree(s) && |s| < |b| && s <= b && b[|s|] == '\0'
    ensures CStr(b) == s
  {
    if s != "" {
      assert s[0] in s && s[0] == b[0];
      assert s[1..] <= b[1..];
      CStrIs(s[1..], b[1..]);
    }
  }

  /** `snprintf(out, size, "%s", s)` into a buffer of `size = out.Length` bytes. */
  method Snprintf(out: array<char>, s: string)
    requires out.Length > 0 && NulFree(s)
    modifies out
    ensures CStr(out[..]) == Clip(s, out.Length)
  {
    var i := 0;
    while i < |s| && i + 1 < out.Length
      invariant 0 <= i <= |s| && i < out.Length
      invariant out[..i] == s[..i]
    {
      out[i] := s[i];
      i := i + 1;
    }
    out[i] := '\0';
    assert s[..i] == Clip(s, out.Length);
    CStrIs(s[..i], out[..]);
  }

  // ------------------------------------------------------------- strstr and strchr

  predicate OccursAt(s: string, pat: string, i: int) {
    0 <= i <= |s| - |pat| && s[i..i + |pat|] == pat
  }

  /** `strstr`: the first occurrence of `pat` at or after `start`. */
  function Find(s: string, pat: string, start: nat): (r: Option<nat>)
    ensures r.Some? ==> start <= r.value && r.value + |pat| <= |s|
    decreases |s| - start
  {
    if start + |pat| > |s| then None
    else if s[start..start + |pat|] == pat then Some(start)
    else Find(s, pat, start + 1)
  }

  lemma {:induction false} FindIsFirst(s: string, pat: string, start: nat)
    ensures var r := Find(s, pat, start);
      && (r.Some? ==> OccursAt(s, pat, r.value))
      && forall i :: start <= i && (r.Some? ==> i < r.value) ==> !OccursAt(s, pat, i)
    decreases |s| - start
  {
    if start + |pat| <= |s| && s[start..start + |pat|] != pat { FindIsFirst(s, pat, start + 1); }
  }

  /** `strchr`: the first index of `c` at or after `start`. */
  function FindChar(s: string, c: char, start: nat): (r: Option<nat>)
    ensures r.Some? ==> start <= r.value < |s| && s[r.value] == c
    ensures r.Some? ==> forall i :: start <= i < r.value ==> s[i] != c
    ensures r.None? ==> forall i :: start <= i < |s| ==> s[i] != c
    decreases |s| - start
  {
    if start >= |s| then None
    else if s[start] == c then Some(start)
    else FindChar(s, c, start + 1)
  }

  lemma {:induction false} FindIs(s: string, pat: string, start: nat, k: nat)
    requires start <= k && OccursAt(s, pat, k)
    requires forall i :: start <= i < k ==> !OccursAt(s, pat, i)
    ensures Find(s, pat, start) == Some(k)
    decreases k - start
  {
    if start < k {
      assert !OccursAt(s, pat, start);
      FindIs(s, pat, start + 1, k);
    }
  }

  lemma {:induction false} FindCharIs(s: string, c: char, start: nat, k: nat)
    requires start <= k < |s| && s[k] == c
    requires forall i :: start <= i < k ==> s[i] != c
    ensures FindChar(s, c, start) == Some(k)
    decreases k - start
  {
    if start < k { FindCharIs(s, c, start + 1, k); }
  }

  // ------------------------------------------------------------- strcmp

  /** `strcmp(a, b) < 0`: the first differing byte decides and a proper prefix is smaller. */
  predicate Less(a: string, b: string) {
    if b == "" then false
    else if a == "" then true
    else if a[0] != b[0] then a[0] < b[0]
    else Less(a[1..], b[1..])
  }

  lemma {:induction false} LessIrreflexive(a: string)
    ensures !Less(a, a)
  {
    if a != "" { LessIrreflexive(a[1..]); }
  }

  lemma {:induction false} LessTransitive(a: string, b: string, c: string)
    requires Less(a, b) && Less(b, c)
    ensures Less(a, c)
  {
    if a != "" && a[0] == b[0] && b[0] == c[0] { LessTransitive(a[1..], b[1..], c[1..]); }
  }

  lemma {:induction false} LessTotal(a: string, b: string)
    requires a != b
    ensures Less(a, b) || Less(b, a)
  {
    if a != "" && b != "" && a[0] == b[0] {
      assert a == [a[0]] + a[1..] && b == [b[0]] + b[1..];
      LessTotal(a[1..], b[1..]);
    }
  }

  /** The texts agree on their first `n` bytes, and there `a` ends or has the smaller byte. */
  predicate LessAt(a: string, b: string, n: nat) {
    n <= |a| && n < |b| && a[..n] == b[..n] && (n == |a| || a[n] < b[n])
  }

  lemma {:induction false} LessFound(a: string, b: string) returns (n: nat)
    requires Less(a, b)
    ensures LessAt(a, b, n)
  {
    n := 0;
    if a != "" && a[0] == b[0] {
      var m := LessFound(a[1..], b[1..]);
      n := m + 1;
      assert a[..n] == [a[0]] + a[1..][..m] && b[..n] == [b[0]] + b[1..][..m];
    }
  }

  lemma {:induction false} LessShown(a: string, b: string, n: nat)
    requires LessAt(a, b, n)
    ensures Less(a, b)
  {
    if n > 0 {
      assert a[0] == a[..n][0] == b[..n][0] == b[0];
      assert a[1..][..n - 1] == a[..n][1..] && b[1..][..n - 1] == b[..n][1..];
      LessShown(a[1..], b[1..], n - 1);
    }
  }

  /** The order of `strcmp`: the first difference decides, and a proper prefix is smaller. */
  lemma LessIff(a: string, b: string)
    ensures Less(a, b) <==> exists n: nat :: LessAt(a, b, n)
  {
    if Less(a, b) { var n := LessFound(a, b); }
    if n: nat :| LessAt(a, b, n) { LessShown(a, b, n); }
  }

  // ------------------------------------------------------------- strtok_r

  /** Length of the longest prefix of `s` without `d`. */
  function Span(s: string, d: char): (n: nat)
    ensures n <= |s| && (forall i :: 0 <= i < n ==> s[i] != d)
    ensures n < |s| ==> s[n] == d
  {
    if s == "" || s[0] == d then 0 else 1 + Span(s[1..], d)
  }

  /** All the tokens that repeated `strtok_r` calls return: the maximal runs without `d`. */
  function Tokens(s: string, d: char): (ts: seq<string>)
    ensures forall t :: t in ts ==> t != "" && d !in t
    decreases |s|
  {
    if s == "" then []
    else if s[0] == d then Tokens(s[1..], d)
    else
      var n := Span(s, d);
      [s[..n]] + Tokens(s[n..], d)
  }

  function JoinWith(parts: seq<string>, d: char): string {
    if parts == [] then "" else if |parts| == 1 then parts[0] else parts[0] + [d] + JoinWith(parts[1..], d)
  }

  lemma {:induction false} SpanOf(a: string, d: char, rest: string)
    requires d !in a && (rest == "" || rest[0] == d)
    ensures Span(a + rest, d) == |a|
  {
    if a == "" {
      assert a + rest == rest;
    } else {
      assert (a + rest)[1..] == a[1..] + rest;
      SpanOf(a[1..], d, rest);
    }
  }

  /** The first token, cut off the text behind it. */
  lemma TokensHead(a: string, rest: string, d: char)
    requires a != "" && d !in a && (rest == "" || rest[0] == d)
    ensures Tokens(a + rest, d) == [a] + Tokens(rest, d)
  {
    SpanOf(a, d, rest);
    var s := a + rest;
    assert s[0] == a[0] && a[0] in a;
    assert s[..|a|] == a && s[|a|..] == rest;
  }

  lemma TokensSkip(d: char, rest: string)
    ensures Tokens([d] + rest, d) == Tokens(rest, d)
  {
    assert ([d] + rest)[1..] == rest;
  }

  /** One `strtok_r` call: skip delimiters, cut at the next one, leave the rest in the save pointer. */
  method NextToken(s: string, d: char) returns (token: Option<string>, rest: string)
    ensures token.None? ==> Tokens(s, d) == []
    ensures token.Some? ==> Tokens(s, d) == [token.value] + Tokens(rest, d) && |rest| < |s|
    ensures NulFree(s) ==> NulFree(rest) && (token.Some? ==> NulFree(token.value))
  {
    var i := 0;
    while i < |s| && s[i] == d
      invariant 0 <= i <= |s|
      invariant Tokens(s[i..], d) == Tokens(s, d)
    {
      SkipDelimiter(s, d, i);
      i := i + 1;
    }
    if i == |s| { return None, ""; }
    var j := i;
    while j < |s| && s[j] != d
      invariant i <= j <= |s|
      invariant d !in s[i..j]
    {
      j := j + 1;
    }
    CutToken(s, d, i, j);
    token := Some(s[i..j]);
    rest := if j < |s| then s[j + 1..] else "";
  }

  lemma SkipDelimiter(s: string, d: char, i: nat)
    requires i < |s| && s[i] == d
    ensures Tokens(s[i..], d) == Tokens(s[i + 1..], d)
  {
    assert s[i..] == [d] + s[i + 1..];
    TokensSkip(d, s[i + 1..]);
  }

  lemma CutToken(s: string, d: char, i: nat, j: nat)
    requires i < j <= |s| && d !in s[i..j] && (j < |s| ==> s[j] == d)
    ensures Tokens(s[i..], d) == [s[i..j]] + Tokens(if j < |s| then s[j + 1..] else "", d)
    ensures NulFree(s) ==> NulFree(s[i..j]) && NulFree(if j < |s| then s[j + 1..] else "")
  {
    assert s[i..] == s[i..j] + s[j..];
    TokensHead(s[i..j], s[j..], d);
    if j < |s| { SkipDelimiter(s, d, j); }
  }

  /** Tokenizing undoes joining: this is what lets `strtok_r` undo a printer. */
  lemma {:induction false} TokensOfJoin(parts: seq<string>, d: char)
    requires forall p :: p in parts ==> p != "" && d !in p
    ensures Tokens(JoinWith(parts, d), d) == parts
  {
    if parts != [] {
      var a, more := parts[0], JoinWith(parts[1..], d);
      assert a in parts && parts == [a] + parts[1..];
      if |parts| == 1 {
        TokensHead(a, "", d);
        assert a + "" == a;
      } else {
        assert forall p :: p in parts[1..] ==> p in parts;
        TokensOfJoin(parts[1..], d);
        TokensHead(a, [d] + more, d);
        TokensSkip(d, more);
        assert a + ([d] + more) == a + [d] + more;
      }
    }
  }

  lemma {:induction false} TokensAreShort(s: string, d: char, j: nat)
    requires j < |Tokens(s, d)|
    ensures |Tokens(s, d)[j]| <= |s|
    decreases |s|
  {
    if s[0] == d {
      TokensAreShort(s[1..], d, j);
    } else if j > 0 {
      TokensAreShort(s[Span(s, d)..], d, j - 1);
    }
  }

  /** A delimiter between two texts separates their tokens. */
  lemma {:induction false} TokensOfTwo(a: string, d: char, b: string)
    ensures Tokens(a + ([d] + b), d) == Tokens(a, d) + Tokens(b, d)
    decreases |a|
  {
    if a == "" {
      assert a + ([d] + b) == [d] + b;
      TokensSkip(d, b);
    } else if a[0] == d {
      TokensOfTwo(a[1..], d, b);
      TokensSkip(d, a[1..]);
      TokensSkip(d, a[1..] + ([d] + b));
      assert [d] + a[1..] == a;
      SkipInTwo(a, a[1..], d, b);
    } else {
      var n := Span(a, d);
      TokensOfTwo(a[n..], d, b);
      HeadInTwo(a[..n], a[n..], d, b);
      assert a[..n] + a[n..] == a;
    }
  }

  lemma SkipInTwo(a: string, rest: string, d: char, b: string)
    requires a == [d] + rest
    ensures a + ([d] + b) == [d] + (rest + ([d] + b))
  {
  }

  lemma HeadInTwo(head: string, rest: string, d: char, b: string)
    requires head != "" && d !in head && (rest == "" || rest[0] == d)
    ensures Tokens(head + rest, d) == [head] + Tokens(rest, d)
    ensures Tokens(head + rest + ([d] + b), d) == [head] + Tokens(rest + ([d] + b), d)
  {
    TokensHead(head, rest, d);
    TokensHead(head, rest + ([d] + b), d);
    assert head + rest + ([d] + b) == head + (rest + ([d] + b));
  }

  predicate OnlyDelimiters(s: string, d: char) { forall i :: 0 <= i < |s| ==> s[i] == d }

  lemma {:induction false} NoTokensIff(s: string, d: char)
    ensures Tokens(s, d) == [] <==> OnlyDelimiters(s, d)
  {
    if s != "" && s[0] == d {
      NoTokensIff(s[1..], d);
      assert s == [d] + s[1..];
    }
  }

  // ------------------------------------------------------------- tokens of a text that was cut

  /** `us` are the first of the tokens `ts`, but the last of them may be cut short. */
  predicate FirstTokens(us: seq<string>, ts: seq<string>) {
    && |us| <= |ts|
    && (forall i :: 0 <= i < |us| - 1 ==> us[i] == ts[i])
    && (us != [] ==> us[|us| - 1] <= ts[|us| - 1])
  }

  /** Cutting a text keeps its first tokens, and all of them exactly when only delimiters are cut off. */
  lemma {:induction false} TokensOfCut(s: string, n: nat, d: char)
    requires n <= |s|
    ensures FirstTokens(Tokens(s[..n], d), Tokens(s, d))
    ensures Tokens(s[..n], d) == Tokens(s, d) <==> OnlyDelimiters(s[n..], d)
    decreases |s|
  {
    if n == 0 {
      NoTokensIff(s, d);
      assert s[0..] == s;
    } else if s[0] == d {
      TokensOfCut(s[1..], n - 1, d);
      CutSkips(s, n, d);
    } else {
      var k := Span(s, d);
      if k < n {
        TokensOfCut(s[k..], n - k, d);
        CutPeels(s, n, k, d);
      } else {
        CutInFirst(s, n, k, d);
      }
    }
  }

  lemma CutSkips(s: string, n: nat, d: char)
    requires 0 < n <= |s| && s[0] == d
    ensures Tokens(s[..n], d) == Tokens(s[1..][..n - 1], d) && Tokens(s, d) == Tokens(s[1..], d)
    ensures s[n..] == s[1..][n - 1..]
  {
    TokensSkip(d, s[1..]);
    TokensSkip(d, s[1..][..n - 1]);
    assert [d] + s[1..] == s && [d] + s[1..][..n - 1] == s[..n];
  }

  lemma CutPeels(s: string, n: nat, k: nat, d: char)
    requires 0 < k < n <= |s| && s[k] == d && d !in s[..k]
    requires FirstTokens(Tokens(s[k..][..n - k], d), Tokens(s[k..], d))
    ensures FirstTokens(Tokens(s[..n], d), Tokens(s, d))
    ensures Tokens(s[..n], d) == Tokens(s, d) <==> Tokens(s[k..][..n - k], d) == Tokens(s[k..], d)
    ensures s[n..] == s[k..][n - k..]
  {
    TokensHead(s[..k], s[k..][..n - k], d);
    TokensHead(s[..k], s[k..], d);
    assert s[..k] + s[k..] == s && s[..k] + s[k..][..n - k] == s[..n];
    OneMoreFirst(s[..k], Tokens(s[k..][..n - k], d), Tokens(s[k..], d));
  }

  lemma OneMoreFirst(t: string, us: seq<string>, ts: seq<string>)
    requires FirstTokens(us, ts)
    ensures FirstTokens([t] + us, [t] + ts) && ([t] + us == [t] + ts <==> us == ts)
  {
    if [t] + us == [t] + ts { assert us == ([t] + us)[1..] && ts == ([t] + ts)[1..]; }
  }

  lemma CutInFirst(s: string, n: nat, k: nat, d: char)
    requires 0 < n <= k <= |s| && d !in s[..k] && (k < |s| ==> s[k] == d)
    ensures FirstTokens(Tokens(s[..n], d), Tokens(s, d))
    ensures Tokens(s[..n], d) == Tokens(s, d) <==> OnlyDelimiters(s[n..], d)
  {
    var us, rest := Tokens(s[..n], d), Tokens(s[k..], d);
    TokensHead(s[..n], "", d);
    assert s[..n] + "" == s[..n] && us == [s[..n]];
    TokensHead(s[..k], s[k..], d);
    assert s[..k] + s[k..] == s && Tokens(s, d) == [s[..k]] + rest;
    NoTokensIff(s[k..], d);
    if n < k { assert s[n..][0] == s[..k][n]; }
  }

  lemma TokensOfClip(s: string, size: nat, d: char)
    requires size > 0
    ensures FirstTokens(Tokens(Clip(s, size), d), Tokens(s, d))
    ensures Tokens(Clip(s, size), d) == Tokens(s, d) <==> |s| < size || OnlyDelimiters(s[size - 1..], d)
  {
    if |s| >= size { TokensOfCut(s, size - 1, d); }
  }
}
