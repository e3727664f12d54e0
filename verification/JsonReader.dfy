/** A reader of flat JSON objects, written from sections 2 to 7 of RFC 8259 and not from this program:
    an object is a list of members, each a name and a string or a number.  It says what the messages
    of client and server mean to a reader who knows the standard only. */
module JsonReader {
  import opened Common
  import opened CStrings
  import Json
  import Numerals

  datatype Member = Text(name: string, value: string) | Number(name: string, number: nat)

  /** The characters up to the quote that ends a string, and what is behind that quote. */
  datatype Cut = Cut(raw: string, rest: string)

  function Longer(piece: string, c: Option<Cut>): Option<Cut> {
    if c.Some? then Some(Cut(piece + c.value.raw, c.value.rest)) else None
  }

  /** A backslash takes the next character along; any other quote ends the string. */
  function CutString(s: string): (r: Option<Cut>)
    ensures r.Some? ==> |r.value.rest| < |s|
    decreases |s|
  {
    if s == "" then None
    else if s[0] == '"' then Some(Cut("", s[1..]))
    else if s[0] != '\\' then Longer([s[0]], CutString(s[1..]))
    else if |s| < 2 then None
    else Longer([s[0], s[1]], CutString(s[2..]))
  }

  /** How many decimal digits a text starts with. */
  function DigitSpan(s: string): (n: nat)
    ensures n <= |s|
  {
    if s == "" || Numerals.DigitOf(s[0]) >= 10 then 0 else 1 + DigitSpan(s[1..])
  }

  /** One member and what is behind it. */
  datatype First = First(member: Member, rest: string)

  function ReadValue(name: string, s: string): (r: Option<First>)
    ensures r.Some? ==> |r.value.rest| < |s|
  {
    if s != "" && s[0] == '"' then
      var c := CutString(s[1..]);
      if c.None? || Json.Unescape(c.value.raw).None? then None
      else Some(First(Text(name, Json.Unescape(c.value.raw).value), c.value.rest))
    else
      var n := DigitSpan(s);
      if !Numerals.IsNumeral(s[..n], 10) then None
      else Some(First(Number(name, Numerals.ValueOf(s[..n], 10)), s[n..]))
  }

  function ReadMember(s: string): (r: Option<First>)
    ensures r.Some? ==> |r.value.rest| < |s|
  {
    if s == "" || s[0] != '"' then None
    else
      var c := CutString(s[1..]);
      if c.None? || Json.Unescape(c.value.raw).None? || c.value.rest == "" || c.value.rest[0] != ':' then None
      else ReadValue(Json.Unescape(c.value.raw).value, c.value.rest[1..])
  }

  function Before(m: Member, more: Option<seq<Member>>): Option<seq<Member>> {
    if more.Some? then Some([m] + more.value) else None
  }

  /** The members up to the closing brace, which must end the text. */
  function ReadMembers(s: string): Option<seq<Member>>
    decreases |s|
  {
    var first := ReadMember(s);
    if first.None? then None
    else if first.value.rest == "}" then Some([first.value.member])
    else if first.value.rest != "" && first.value.rest[0] == ',' then Before(first.value.member, ReadMembers(first.value.rest[1..]))
    else None
  }

  function ReadObject(s: string): Option<seq<Member>> {
    if s == "" || s[0] != '{' then None else ReadMembers(s[1..])
  }

  // ------------------------------------------------------------- what the printers write is read

  lemma EscapeOneCut(c: char, rest: string)
    ensures CutString(Json.EscapeChar(c) + rest) == Longer(Json.EscapeChar(c), CutString(rest))
  {
    var e := Json.EscapeChar(c);
    var t := e + rest;
    if |e| == 1 {
      assert t[1..] == rest;
    } else if |e| == 2 {
      assert t[2..] == rest && t[0] == '\\' && [t[0], t[1]] == e;
    } else {
      HexDigitsAreOrdinary(c);
      assert t[2..] == e[2..] + rest;
      FourOrdinary(e[2], e[3], e[4], e[5], rest);
      assert e[2..] == [e[2], e[3], e[4], e[5]] && [t[0], t[1]] + e[2..] == e;
      LongerTwice([t[0], t[1]], e[2..], CutString(rest));
    }
  }

  lemma HexDigitsAreOrdinary(c: char)
    requires |Json.EscapeChar(c)| > 2
    ensures var e := Json.EscapeChar(c);
      |e| == 6 && e[0] == '\\' && forall i :: 2 <= i < 6 ==> e[i] != '"' && e[i] != '\\'
  {
    assert c < ' ';
    Json.HexDigitValue(c as int / 16);
    Json.HexDigitValue(c as int % 16);
  }

  lemma FourOrdinary(a: char, b: char, c: char, d: char, rest: string)
    requires a != '"' && a != '\\' && b != '"' && b != '\\' && c != '"' && c != '\\' && d != '"' && d != '\\'
    ensures CutString([a, b, c, d] + rest) == Longer([a, b, c, d], CutString(rest))
  {
    Ordinary(d, rest);
    Ordinary(c, [d] + rest);
    Ordinary(b, [c] + ([d] + rest));
    Ordinary(a, [b] + ([c] + ([d] + rest)));
    assert [a, b, c, d] + rest == [a] + ([b] + ([c] + ([d] + rest)));
    assert [a] + ([b] + ([c] + [d])) == [a, b, c, d];
    LongerTwice([c], [d], CutString(rest));
    LongerTwice([b], [c] + [d], CutString(rest));
    LongerTwice([a], [b] + ([c] + [d]), CutString(rest));
  }

  lemma Ordinary(c: char, rest: string)
    requires c != '"' && c != '\\'
    ensures CutString([c] + rest) == Longer([c], CutString(rest))
  {
    assert ([c] + rest)[1..] == rest;
  }

  lemma LongerTwice(a: string, b: string, c: Option<Cut>)
    ensures Longer(a, Longer(b, c)) == Longer(a + b, c)
  {
    if c.Some? { assert a + (b + c.value.raw) == a + b + c.value.raw; }
  }

  lemma ThreeTexts(a: string, b: string, c: string)
    ensures a + b + c == a + (b + c)
  {
  }

  lemma EmptyIsCut(rest: string)
    ensures CutString("" + ("\"" + rest)) == Some(Cut("", rest))
  {
    assert "" + ("\"" + rest) == "\"" + rest && ("\"" + rest)[1..] == rest;
  }

  /** An escaped text is cut at its own end, whatever follows. */
  lemma {:induction false} EscapedIsCut(v: string, rest: string)
    ensures CutString(Json.Escape(v) + ("\"" + rest)) == Some(Cut(Json.Escape(v), rest))
  {
    if v == "" {
      EmptyIsCut(rest);
    } else {
      var e, t, tail := Json.EscapeChar(v[0]), Json.Escape(v[1..]), "\"" + rest;
      EscapedIsCut(v[1..], rest);
      EscapeOneCut(v[0], t + tail);
      ThreeTexts(e, t, tail);
    }
  }

  /** A string in quotes behind a colon. */
  lemma TextIsRead(name: string, v: string, rest: string)
    ensures ReadValue(name, "\"" + (Json.Escape(v) + ("\"" + rest))) == Some(First(Text(name, v), rest))
  {
    EscapedIsCut(v, rest);
    Json.UnescapeEscape(v);
    assert ("\"" + (Json.Escape(v) + ("\"" + rest)))[1..] == Json.Escape(v) + ("\"" + rest);
  }

  lemma NameIsRead(name: string, tail: string)
    requires Json.Clean(name)
    ensures ReadMember("\"" + (name + ("\"" + (":" + tail)))) == ReadValue(name, tail)
  {
    Json.EscapeIsIdentity(name);
    Json.UnescapeEscape(name);
    EscapedIsCut(name, ":" + tail);
    assert ("\"" + (name + ("\"" + (":" + tail))))[1..] == name + ("\"" + (":" + tail));
    assert (":" + tail)[1..] == tail;
  }

  lemma FieldPieces(name: string, e: string, rest: string)
    ensures ("" + "\"" + name + "\":\"" + e + "\"") + rest == "\"" + (name + ("\"" + (":" + ("\"" + (e + ("\"" + rest))))))
  {
  }

  /** A printed field is one member. */
  lemma FieldIsRead(name: string, v: string, rest: string)
    requires Json.Clean(name)
    ensures ReadMember(Json.Field(name, v, false) + rest) == Some(First(Text(name, v), rest))
  {
    FieldPieces(name, Json.Escape(v), rest);
    NameIsRead(name, "\"" + (Json.Escape(v) + ("\"" + rest)));
    TextIsRead(name, v, rest);
  }

  lemma {:induction false} DigitsEnd(s: string, rest: string)
    requires (forall i :: 0 <= i < |s| ==> Numerals.DigitOf(s[i]) < 10) && (rest == "" || Numerals.DigitOf(rest[0]) >= 10)
    ensures DigitSpan(s + rest) == |s|
  {
    if s == "" {
      assert s + rest == rest;
    } else {
      assert (s + rest)[1..] == s[1..] + rest;
      DigitsEnd(s[1..], rest);
    }
  }

  /** A number behind a colon, up to the comma or brace. */
  lemma NumberIsRead(name: string, s: string, n: nat, rest: string)
    requires Numerals.Writes(s, 10, n) && rest != "" && (rest[0] == ',' || rest[0] == '}')
    ensures ReadValue(name, s + rest) == Some(First(Number(name, n), rest))
  {
    DigitsEnd(s, rest);
    assert (s + rest)[..|s|] == s && (s + rest)[|s|..] == rest;
    assert Numerals.DigitOf('"') == 16 && (s + rest)[0] == s[0];
  }

  /** Reading on behind a member: the last one, or one that a comma follows. */
  lemma MembersStep(s: string, m: Member, rest: string)
    requires ReadMember(s) == Some(First(m, rest))
    ensures rest == "}" ==> ReadMembers(s) == Some([m])
    ensures rest != "" && rest[0] == ',' ==> ReadMembers(s) == Before(m, ReadMembers(rest[1..]))
  {
  }
}
