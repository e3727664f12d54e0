/** Where the field finder's needle can occur: a quoted name is found at the first quoted piece that
    equals it, key or value, because the quotes of a message alternate. */
module FieldFinder {
  import opened Common
  import opened CStrings
  import opened Names
  import opened RequestParser
  import opened RequestCodec
  import Json

  predicate IsName(n: string) {
    0 < |n| < 100 && '"' !in n && ':' !in n && ',' !in n
  }

  function Sized(x: Option<string>, size: nat): Extracted {
    if x.None? then Missing else if |x.value| >= size then TooLong else Value(x.value)
  }

  /** `a"b"rest` */
  function Around(a: string, b: string, rest: string): string { a + ("\"" + (b + ("\"" + rest))) }

  lemma {:induction false} FindFrom(s: string, pat: string, start: nat, k: nat)
    requires start <= k
    requires forall i :: start <= i < k ==> !OccursAt(s, pat, i)
    ensures Find(s, pat, start) == Find(s, pat, k)
    decreases k - start
  {
    if start < k {
      assert !OccursAt(s, pat, start);
      FindFrom(s, pat, start + 1, k);
      if start + |pat| > |s| { assert Find(s, pat, k).None?; }
    }
  }

  lemma SameWindow(s: string, t: string, d: nat, i: nat, n: nat)
    requires d <= |s| && t == s[d..] && d + i + n <= |s|
    ensures t[i..i + n] == s[d + i..d + i + n]
  {
  }

  lemma {:induction false} FindInSuffix(s: string, t: string, pat: string, d: nat, start: nat)
    requires d <= |s| && t == s[d..]
    ensures Find(s, pat, d + start) == match Find(t, pat, start) { case None => None case Some(i) => Some(d + i) }
    decreases |s| - start
  {
    if d + start + |pat| <= |s| {
      SameWindow(s, t, d, start, |pat|);
      FindInSuffix(s, t, pat, d, start + 1);
    }
  }

  /** No needle starts in a quote-free prefix, nor at the quote that opens a different piece. */
  lemma NeedleNotAt(a: string, b: string, rest: string, name: string, i: nat)
    requires '"' !in a && '"' !in b && '"' !in name && (i < |a| || (i == |a| && b != name))
    ensures !OccursAt(Around(a, b, rest), "\"" + name + "\"", i)
  {
    var s, pat := Around(a, b, rest), "\"" + name + "\"";
    if i + |pat| <= |s| && s[i..i + |pat|] == pat {
      assert s[i] == s[i..i + |pat|][0] == '"';
      assert i == |a|;
      PieceAt(a, b, rest, name);
    }
  }

  lemma PieceAt(a: string, b: string, rest: string, name: string)
    requires '"' !in b && '"' !in name
    requires OccursAt(Around(a, b, rest), "\"" + name + "\"", |a|)
    ensures b == name
  {
    var s, pat := Around(a, b, rest), "\"" + name + "\"";
    var t, rest' := s[|a| + 1..], s[|a| + |pat|..];
    assert t == b + ("\"" + rest);
    assert t == name + ("\"" + rest') by {
      assert s[|a|..] == s[|a|..|a| + |pat|] + rest';
      assert t == s[|a|..][1..];
    }
    SpanOf(b, '"', "\"" + rest);
    SpanOf(name, '"', "\"" + rest');
    assert b == t[..|b|] == name;
  }

  lemma NeedleIs(name: string)
    requires IsName(name)
    ensures Needle(name) == "\"" + name + "\""
  {
  }

  lemma NameInside(a: string, name: string, rest: string)
    ensures var s, pat := Around(a, name, rest), "\"" + name + "\"";
      |s| >= |a| + |pat| && s[|a|..|a| + |pat|] == pat && s[|a| + |pat|..] == rest
  {
    var s, pat := Around(a, name, rest), "\"" + name + "\"";
    assert s == a + (pat + rest);
  }

  /** The piece is the name: extraction goes on behind it. */
  lemma FoundHere(a: string, rest: string, name: string, size: nat)
    requires '"' !in a && IsName(name)
    ensures Extract(Around(a, name, rest), name, size) == ReadValue(rest, size)
  {
    NeedleIs(name);
    NameInside(a, name, rest);
    FoundAt(Around(a, name, rest), Needle(name), a, name, rest);
  }

  lemma FoundAt(s: string, pat: string, a: string, name: string, rest: string)
    requires '"' !in a && '"' !in name && s == Around(a, name, rest) && pat == "\"" + name + "\""
    requires |s| >= |a| + |pat| && s[|a|..|a| + |pat|] == pat
    ensures Find(s, pat, 0) == Some(|a|)
  {
    forall i | 0 <= i < |a| ensures !OccursAt(s, pat, i) { NeedleNotAt(a, name, rest, name, i); }
    FindIs(s, pat, 0, |a|);
  }

  /** The piece is not the name: the search goes on with that piece as the new prefix. */
  lemma FoundLater(a: string, b: string, rest: string, name: string, size: nat)
    requires '"' !in a && '"' !in b && b != name && IsName(name)
    ensures Extract(Around(a, b, rest), name, size) == Extract(b + ("\"" + rest), name, size)
  {
    NeedleIs(name);
    var s, pat, d := Around(a, b, rest), Needle(name), |a| + 1;
    forall i | 0 <= i < d ensures !OccursAt(s, pat, i) { NeedleNotAt(a, b, rest, name, i); }
    assert s[d..] == b + ("\"" + rest);
    ExtractFromSuffix(s, name, d, size);
  }

  lemma ExtractFromSuffix(s: string, name: string, d: nat, size: nat)
    requires d <= |s| && forall i :: 0 <= i < d ==> !OccursAt(s, Needle(name), i)
    ensures Extract(s, name, size) == Extract(s[d..], name, size)
  {
    var t, pat := s[d..], Needle(name);
    var at := FindShifted(s, pat, d);
    ReadShifted(s, t, d, at, |pat|, size);
  }

  lemma ReadShifted(s: string, t: string, d: nat, at: Option<nat>, n: nat, size: nat)
    requires d <= |s| && t == s[d..] && (at.Some? ==> at.value + n <= |t|)
    ensures ReadAt(s, if at.Some? then Some(d + at.value) else None, n, size) == ReadAt(t, at, n, size)
  {
    if at.Some? { DropTwice(s, d, at.value + n); }
  }

  lemma DropTwice(s: string, d: nat, i: nat)
    requires d + i <= |s|
    ensures s[d..][i..] == s[d + i..]
  {
  }

  lemma FindShifted(s: string, pat: string, d: nat) returns (at: Option<nat>)
    requires d <= |s| && forall i :: 0 <= i < d ==> !OccursAt(s, pat, i)
    ensures at == Find(s[d..], pat, 0)
    ensures Find(s, pat, 0) == if at.Some? then Some(d + at.value) else None
    ensures at.Some? ==> d + at.value + |pat| <= |s|
  {
    FindFrom(s, pat, 0, d);
    FindInSuffix(s, s[d..], pat, d, 0);
    at := Find(s[d..], pat, 0);
  }

  lemma QuoteInside(b: string, n: string, r: string)
    requires b == n + ("\"" + r)
    ensures '"' in b
  {
    assert b[|n|] == '"';
  }

  lemma NeedsTwoQuotes(a: string, b: string, name: string, i: nat)
    requires '"' !in a && '"' !in b
    ensures !OccursAt(a + ("\"" + b), "\"" + name + "\"", i)
  {
    var s, pat := a + ("\"" + b), "\"" + name + "\"";
    if OccursAt(s, pat, i) {
      assert s[i] == s[i..i + |pat|][0] == '"';
      assert i == |a|;
      assert s[i..i + |pat|][1..] == b[..|pat| - 1];
      assert pat[1..] == name + ("\"" + "");
      QuoteInside(b[..|pat| - 1], name, "");
    }
  }

  /** Fewer than two quotes: nothing is found. */
  lemma NotFound(a: string, b: string, name: string, size: nat)
    requires '"' !in a && '"' !in b && IsName(name)
    ensures Extract(a + ("\"" + b), name, size) == Missing
  {
    NeedleIs(name);
    var s, pat := a + ("\"" + b), Needle(name);
    FindIsFirst(s, pat, 0);
    if Find(s, pat, 0).Some? { NeedsTwoQuotes(a, b, name, Find(s, pat, 0).value); }
  }

  // ------------------------------------------------------------- reading the value

  lemma QuotedReads(v: string, tail: string, size: nat)
    requires '"' !in v
    ensures ReadQuoted(v + ("\"" + tail), size) == Sized(Some(v), size)
  {
    SpanOf(v, '"', "\"" + tail);
    assert (v + ("\"" + tail))[..|v|] == v;
  }

  /** A member as people write it, with white space around the colon, is found behind quote-free text. */
  lemma SpacedFieldIsFound(a: string, name: string, before: string, after: string, v: string, rest: string, size: nat)
    requires '"' !in a && IsName(name) && Blank(before) && Blank(after) && '"' !in v && |v| < size
    ensures Extract(Around(a, name, before + (":" + (after + ("\"" + (v + ("\"" + rest)))))), name, size) == Value(v)
  {
    FoundHere(a, before + (":" + (after + ("\"" + (v + ("\"" + rest))))), name, size);
    SpacedValueIsRead(before, after, v, rest, size);
  }

  /** Behind a key comes its value. */
  lemma ReadHere(v: string, tail: string, size: nat)
    requires '"' !in v
    ensures ReadValue(Around(":", v, tail), size) == Sized(Some(v), size)
  {
    var s := Around(":", v, tail);
    FindCharIs(s, ':', 0, 0);
    assert s[1..][0] == '"';
    assert s[1..][1..] == v + ("\"" + tail);
    QuotedReads(v, tail, size);
  }

  /** Behind a value comes the next field: its key is skipped and its value read. */
  lemma ReadNext(n: string, v: string, tail: string, size: nat)
    requires IsName(n) && '"' !in v
    ensures ReadValue(Around(",", n, Around(":", v, tail)), size) == Sized(Some(v), size)
  {
    var s := Around(",", n, Around(":", v, tail));
    var k := 3 + |n|;
    assert s[k] == ':';
    forall i | 0 <= i < k ensures s[i] != ':' {
      if 2 <= i < 2 + |n| { assert s[i] == n[i - 2]; }
    }
    FindCharIs(s, ':', 0, k);
    assert s[k + 1..] == "\"" + (v + ("\"" + tail));
    assert s[k + 1..][0] == '"';
    assert s[k + 1..][1..] == v + ("\"" + tail);
    QuotedReads(v, tail, size);
  }

  lemma ReadEnd(size: nat)
    ensures ReadValue("}", size) == Missing
  {
  }

  // ------------------------------------------------------------- the finder on a whole message

  /** What the finder returns, on the level of fields: the value of the first field whose key is the
      name, unless an earlier value equals the name; then the field after that one is read. */
  function Lookup(fs: seq<Field>, name: string): Option<string> {
    if fs == [] then None
    else if Name(fs[0]) == name then Some(Json.Escape(fs[0].value))
    else if Json.Escape(fs[0].value) == name then
      if |fs| > 1 then Some(Json.Escape(fs[1].value)) else None
    else Lookup(fs[1..], name)
  }

  predicate QuoteFree(fs: seq<Field>) {
    forall i :: 0 <= i < |fs| ==> '"' !in fs[i].value && IsName(Name(fs[i]))
  }

  function Rest(fs: seq<Field>): string { Render(fs, false) + "}" }

  lemma RenderPieces(a: string, fs: seq<Field>, first: bool)
    requires fs != []
    ensures a + (Render(fs, first) + "}") ==
      Around(a + (if first then "" else ","), Name(fs[0]), Around(":", Json.Escape(fs[0].value), Rest(fs[1..])))
  {
    var c, n, e := if first then "" else ",", Name(fs[0]), Json.Escape(fs[0].value);
    PiecesOf(a, c, n, e, Render(fs[1..], false));
  }

  lemma PiecesOf(a: string, c: string, n: string, e: string, r: string)
    ensures a + (((c + "\"" + n + "\":\"" + e + "\"") + r) + "}") == Around(a + c, n, Around(":", e, r + "}"))
  {
  }

  lemma {:induction false} FinderOnFields(a: string, fs: seq<Field>, first: bool, name: string, size: nat)
    requires fs != [] && QuoteFree(fs) && IsName(name) && '"' !in a
    ensures Extract(a + (Render(fs, first) + "}"), name, size) == Sized(Lookup(fs, name), size)
    decreases |fs|
  {
    var n, e, rest := Name(fs[0]), Json.Escape(fs[0].value), Rest(fs[1..]);
    Json.EscapeWithoutQuote(fs[0].value);
    RenderPieces(a, fs, first);
    var a' := a + if first then "" else ",";
    if n == name {
      FoundField(a', n, e, rest, size);
    } else if e == name {
      FoundValue(a', n, e, rest, size);
      BehindValue(fs, size);
    } else {
      SkipOne(a', n, e, rest, name, size);
      AfterField(e, fs, name, size);
    }
  }

  lemma FoundField(a: string, n: string, e: string, rest: string, size: nat)
    requires '"' !in a && '"' !in e && IsName(n)
    ensures Extract(Around(a, n, Around(":", e, rest)), n, size) == Sized(Some(e), size)
  {
    FoundHere(a, Around(":", e, rest), n, size);
    ReadHere(e, rest, size);
  }

  lemma FoundValue(a: string, n: string, e: string, rest: string, size: nat)
    requires '"' !in a && '"' !in n && n != e && IsName(e)
    ensures Extract(Around(a, n, Around(":", e, rest)), e, size) == ReadValue(rest, size)
  {
    FoundLater(a, n, Around(":", e, rest), e, size);
    PrefixedPiece(n, e, rest);
    FoundLater(n, ":", e + ("\"" + rest), e, size);
    assert ":" + ("\"" + (e + ("\"" + rest))) == Around(":", e, rest);
    FoundHere(":", rest, e, size);
  }

  lemma SkipOne(a: string, n: string, e: string, rest: string, name: string, size: nat)
    requires '"' !in a && '"' !in n && '"' !in e && n != name && e != name && IsName(name)
    ensures Extract(Around(a, n, Around(":", e, rest)), name, size) == Extract(e + ("\"" + rest), name, size)
  {
    FoundLater(a, n, Around(":", e, rest), name, size);
    PrefixedPiece(n, e, rest);
    FoundLater(n, ":", e + ("\"" + rest), name, size);
    assert ":" + ("\"" + (e + ("\"" + rest))) == Around(":", e, rest);
    FoundLater(":", e, rest, name, size);
  }

  lemma PrefixedPiece(n: string, e: string, rest: string)
    ensures n + ("\"" + Around(":", e, rest)) == Around(n, ":", e + ("\"" + rest))
  {
  }

  lemma BehindValue(fs: seq<Field>, size: nat)
    requires fs != [] && QuoteFree(fs)
    ensures ReadValue(Rest(fs[1..]), size) == Sized(if |fs| > 1 then Some(Json.Escape(fs[1].value)) else None, size)
  {
    if |fs| == 1 {
      assert Rest(fs[1..]) == "}";
      ReadEnd(size);
    } else {
      RenderPieces("", fs[1..], false);
      Json.EscapeWithoutQuote(fs[1].value);
      ReadNextField(Rest(fs[1..]), Name(fs[1]), Json.Escape(fs[1].value), Rest(fs[1..][1..]), size);
    }
  }

  lemma ReadNextField(text: string, n: string, v: string, tail: string, size: nat)
    requires "" + text == Around("" + ",", n, Around(":", v, tail)) && IsName(n) && '"' !in v
    ensures ReadValue(text, size) == Sized(Some(v), size)
  {
    assert "" + text == text && "" + "," == ",";
    ReadNext(n, v, tail, size);
  }

  lemma {:induction false} AfterField(e: string, fs: seq<Field>, name: string, size: nat)
    requires fs != [] && QuoteFree(fs) && IsName(name) && '"' !in e
    ensures Extract(e + ("\"" + Rest(fs[1..])), name, size) == Sized(Lookup(fs[1..], name), size)
    decreases |fs|, 0
  {
    if |fs| == 1 {
      assert Rest(fs[1..]) == "}";
      NotFound(e, "}", name, size);
    } else {
      var gs := fs[1..];
      RenderPieces("", gs, false);
      assert "" + "," == ",";
      SkipCommaText(e, Name(gs[0]), Around(":", Json.Escape(gs[0].value), Rest(gs[1..])), Rest(gs), name, size);
      FinderOnFields("", gs, false, name, size);
    }
  }

  lemma SkipCommaText(e: string, n: string, inner: string, text: string, name: string, size: nat)
    requires '"' !in e && IsName(name) && "" + text == Around(",", n, inner)
    ensures Extract(e + ("\"" + text), name, size) == Extract("" + text, name, size)
  {
    assert "" + text == text;
    PrefixedComma(e, n, inner);
    FoundLater(e, ",", n + ("\"" + inner), name, size);
  }

  lemma PrefixedComma(e: string, n: string, tail: string)
    ensures e + ("\"" + Around(",", n, tail)) == Around(e, ",", n + ("\"" + tail))
    ensures "," + ("\"" + (n + ("\"" + tail))) == Around(",", n, tail)
  {
  }

  /** The finder, run on a message whose values have no quote, is `Lookup`. */
  lemma FinderIsLookup(fs: seq<Field>, name: string, size: nat)
    requires fs != [] && QuoteFree(fs) && IsName(name)
    ensures Extract(Message(fs), name, size) == Sized(Lookup(fs, name), size)
  {
    assert Message(fs) == "{" + (Render(fs, true) + "}");
    FinderOnFields("{", fs, true, name, size);
  }
}
