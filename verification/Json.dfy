/** JSON strings: the escaping that client and server share, its inverse, and the bounded output
    buffer that both sides fill piece by piece. */
module Json {
  import opened Common
  import opened CStrings

  const HEX_DIGITS: seq<char> := "0123456789abcdef"

  function EscapeChar(c: char): (r: string)
    ensures 1 <= |r| <= 6
  {
    if c == '"' || c == '\\' then ['\\', c]
    else if c == '\n' then "\\n"
    else if c == '\r' then "\\r"
    else if c == '\t' then "\\t"
    else if c < ' ' then "\\u00" + [HEX_DIGITS[c as int / 16], HEX_DIGITS[c as int % 16]]
    else [c]
  }

  function Escape(s: string): string {
    if s == "" then "" else EscapeChar(s[0]) + Escape(s[1..])
  }

  function HexValue(c: char): (v: int)
    ensures -1 <= v < 16
  {
    if '0' <= c <= '9' then c as int - 48
    else if 'a' <= c <= 'f' then c as int - 87
    else if 'A' <= c <= 'F' then c as int - 55
    else -1
  }

  /** The reader of section 7 of RFC 8259, written from the grammar and not from this program:
      a character at or above U+0020 other than the quote and the backslash stands for itself, the
      rest comes as an escape.  (Code points from U+D800 up do not occur here.) */
  function Unescape(t: string): Option<string>
    decreases |t|
  {
    if t == "" then Some("")
    else if t[0] != '\\' then
      if t[0] < ' ' || t[0] == '"' then None else Prepend(t[0], Unescape(t[1..]))
    else if |t| < 2 then None
    else if t[1] == 'u' then
      if |t| < 6 then None
      else
        var a, b, c, d := HexValue(t[2]), HexValue(t[3]), HexValue(t[4]), HexValue(t[5]);
        if a < 0 || b < 0 || c < 0 || d < 0 || a >= 13 then None
        else Prepend((4096 * a + 256 * b + 16 * c + d) as char, Unescape(t[6..]))
    else
      var plain := SimpleEscape(t[1]);
      if plain.None? then None else Prepend(plain.value, Unescape(t[2..]))
  }

  function SimpleEscape(c: char): Option<char> {
    if c == '"' || c == '\\' || c == '/' then Some(c)
    else if c == 'b' then Some(8 as char)
    else if c == 'f' then Some(12 as char)
    else if c == 'n' then Some('\n')
    else if c == 'r' then Some('\r')
    else if c == 't' then Some('\t')
    else None
  }

  function Prepend(c: char, s: Option<string>): Option<string> {
    if s.Some? then Some([c] + s.value) else None
  }

  lemma HexDigitValue(i: nat)
    requires i < 16
    ensures HexValue(HEX_DIGITS[i]) == i && HEX_DIGITS[i] >= ' ' && HEX_DIGITS[i] != '"'
  {
  }

  lemma UnescapeOne(c: char, rest: string)
    ensures Unescape(EscapeChar(c) + rest) == Prepend(c, Unescape(rest))
  {
    var e := EscapeChar(c);
    var t := e + rest;
    assert t[|e|..] == rest;
    if c < ' ' && c != '\n' && c != '\r' && c != '\t' {
      HexDigitValue(c as int / 16);
      HexDigitValue(c as int % 16);
      assert t[0] == '\\' && t[1] == 'u' && t[2] == '0' && t[3] == '0';
      assert t[4] == HEX_DIGITS[c as int / 16] && t[5] == HEX_DIGITS[c as int % 16];
    } else {
      assert t[0] == e[0];
      if |e| == 2 { assert t[1] == e[1]; }
    }
  }

  /** Escaping loses nothing: the standard's reader gives every string back. */
  lemma {:induction false} UnescapeEscape(s: string)
    ensures Unescape(Escape(s)) == Some(s)
  {
    if s != "" {
      UnescapeOne(s[0], Escape(s[1..]));
      UnescapeEscape(s[1..]);
      assert s == [s[0]] + s[1..];
    }
  }

  /** Nothing below U+0020 gets through, so a line break only ever ends a message. */
  lemma {:induction false} EscapeHasNoControl(s: string, i: nat)
    requires i < |Escape(s)|
    ensures Escape(s)[i] >= ' '
  {
    var e := EscapeChar(s[0]);
    if i < |e| {
      HexDigitValue(s[0] as int % 16);
      if s[0] < ' ' { HexDigitValue(s[0] as int / 16); }
    } else {
      EscapeHasNoControl(s[1..], i - |e|);
    }
  }

  /** A character that goes out as itself. */
  predicate Plain(c: char) { c != '"' && c != '\\' && c >= ' ' }

  predicate Clean(s: string) { forall i :: 0 <= i < |s| ==> Plain(s[i]) }

  lemma {:induction false} EscapeLength(s: string)
    ensures |s| <= |Escape(s)| <= 6 * |s|
  {
    if s != "" { EscapeLength(s[1..]); }
  }

  /** Escaping changes a string exactly when it has something to escape. */
  lemma {:induction false} EscapeIsIdentity(s: string)
    ensures Escape(s) == s <==> Clean(s)
  {
    if s != "" {
      EscapeIsIdentity(s[1..]);
      EscapeLength(s[1..]);
      assert s == [s[0]] + s[1..];
      if Plain(s[0]) {
        assert Escape(s)[1..] == Escape(s[1..]);
        assert Clean(s) <==> Clean(s[1..]) by {
          if Clean(s) { forall i | 0 <= i < |s[1..]| ensures Plain(s[1..][i]) { assert Plain(s[i + 1]); } }
          if Clean(s[1..]) { forall i | 0 < i < |s| ensures Plain(s[i]) { assert Plain(s[1..][i - 1]); } }
        }
      }
    }
  }

  lemma {:induction false} EscapeConcat(a: string, b: string)
    ensures Escape(a + b) == Escape(a) + Escape(b)
  {
    if a == "" {
      assert a + b == b;
    } else {
      assert (a + b)[1..] == a[1..] + b;
      EscapeConcat(a[1..], b);
    }
  }

  lemma {:induction false} EscapeWithoutQuote(s: string)
    requires '"' !in s
    ensures '"' !in Escape(s)
  {
    if s != "" {
      if s[0] < ' ' { HexDigitValue(s[0] as int / 16); HexDigitValue(s[0] as int % 16); }
      assert '"' !in EscapeChar(s[0]);
      EscapeWithoutQuote(s[1..]);
    }
  }

  // ------------------------------------------------------------- the output buffer

  /** `"name":"value"`, after a comma if asked. */
  function Field(name: string, value: string, comma: bool): string {
    (if comma then "," else "") + "\"" + name + "\":\"" + Escape(value) + "\""
  }

  lemma Assoc(w: string, a: string, b: string, c: string, d: string, e: string)
    ensures w + ((((a + b) + c) + d) + e) == ((((w + a) + b) + c) + d) + e
  {
  }

  lemma FieldPieces(was: string, opening: string, name: string, value: string, comma: bool)
    requires opening == if comma then ",\"" else "\""
    ensures was + Field(name, value, comma) == ((((was + opening) + name) + "\":\"") + Escape(value)) + "\""
    ensures |Field(name, value, comma)| == |opening| + |name| + 3 + |Escape(value)| + 1
  {
    assert opening == (if comma then "," else "") + "\"";
    Assoc(was, opening, name, "\":\"", Escape(value), "\"");
  }

  lemma OpenedPieces(was: string, opening: string, name: string, value: string, comma: bool)
    requires opening == (if comma then "," else "") + "\"" + name + "\":\""
    ensures was + Field(name, value, comma) == ((was + opening) + Escape(value)) + "\""
    ensures |Field(name, value, comma)| == |opening| + |Escape(value)| + 1
  {
  }

  /** A caller's `char out[size]` with the write position `pos`. */
  class Writer {
    const buf: array<char>
    var pos: nat

    ghost predicate Valid()
      reads this
    {
      pos < buf.Length
    }

    ghost function Text(): string
      reads this, buf
      requires Valid()
    {
      buf[..pos]
    }

    constructor (size: nat)
      requires size > 0
      ensures Valid() && fresh(buf) && buf.Length == size && Text() == ""
    {
      buf := new char[size];
      pos := 0;
    }

    /** `snprintf(out + pos, size - pos, "%s", s)` and the test for truncation. */
    method AppendRaw(s: string) returns (ok: bool)
      requires Valid()
      modifies this`pos, buf
      ensures Valid()
      ensures ok == (old(pos) + |s| < buf.Length)
      ensures Text() == if ok then old(Text()) + s else old(Text())
    {
      ghost var was := Text();
      var i := 0;
      while i < |s| && pos + i + 1 < buf.Length
        invariant 0 <= i <= |s| && pos + i < buf.Length
        invariant pos == old(pos) && buf[..pos] == was && buf[pos..pos + i] == s[..i]
      {
        buf[pos + i] := s[i];
        assert buf[pos..pos + i + 1] == buf[pos..pos + i] + [s[i]];
        i := i + 1;
      }
      buf[pos + i] := '\0';
      assert buf[pos..pos + i] == s[..i];
      if pos + |s| >= buf.Length { return false; }
      assert buf[..pos + |s|] == was + s;
      pos := pos + |s|;
      return true;
    }

    /** The scratch string of the client's `append_json_string`. */
    static method EscapeInto(c: char) returns (tmp: string)
      ensures tmp == EscapeChar(c)
    {
      if c == '"' || c == '\\' { tmp := ['\\', c]; }
      else if c == '\n' { tmp := "\\n"; }
      else if c == '\r' { tmp := "\\r"; }
      else if c == '\t' { tmp := "\\t"; }
      else if c < ' ' { tmp := "\\u00" + [HEX_DIGITS[c as int / 16], HEX_DIGITS[c as int % 16]]; }
      else { tmp := [c]; }
    }

    /** The client's `append_json_string`: each character is escaped into a scratch string first. */
    method AppendJsonString(value: string) returns (ok: bool)
      requires Valid()
      modifies this`pos, buf
      ensures Valid()
      ensures ok == (old(pos) + |Escape(value)| < buf.Length)
      ensures ok ==> Text() == old(Text()) + Escape(value)
    {
      for p := 0 to |value|
        invariant Valid()
        invariant Text() + Escape(value[p..]) == old(Text()) + Escape(value)
      {
        assert value[p..][1..] == value[p + 1..];
        var tmp := EscapeInto(value[p]);
        ghost var before := Text();
        assert before + (tmp + Escape(value[p + 1..])) == (before + tmp) + Escape(value[p + 1..]);
        var fits := AppendRaw(tmp);
        if !fits { return false; }
      }
      return true;
    }

    /** One round of the server's loop: each case prints straight into the buffer. */
    method AppendEscapedChar(c: char) returns (ok: bool)
      requires Valid()
      modifies this`pos, buf
      ensures Valid()
      ensures ok == (old(pos) + |EscapeChar(c)| < buf.Length)
      ensures Text() == if ok then old(Text()) + EscapeChar(c) else old(Text())
    {
      if c == '"' || c == '\\' {
        ok := AppendRaw(['\\', c]);
      } else if c == '\n' {
        ok := AppendRaw("\\n");
      } else if c == '\r' {
        ok := AppendRaw("\\r");
      } else if c == '\t' {
        ok := AppendRaw("\\t");
      } else if c < ' ' {
        ok := AppendRaw("\\u00" + [HEX_DIGITS[c as int / 16], HEX_DIGITS[c as int % 16]]);
      } else {
        ok := AppendRaw([c]);
      }
    }

    /** The server's `append_json_escaped`. */
    method AppendJsonEscaped(value: string) returns (ok: bool)
      requires Valid()
      modifies this`pos, buf
      ensures Valid()
      ensures ok == (old(pos) + |Escape(value)| < buf.Length)
      ensures ok ==> Text() == old(Text()) + Escape(value)
    {
      var p := 0;
      while p < |value|
        invariant 0 <= p <= |value| && Valid()
        invariant Text() + Escape(value[p..]) == old(Text()) + Escape(value)
      {
        assert value[p..][1..] == value[p + 1..];
        ghost var before, piece := Text(), EscapeChar(value[p]);
        assert before + (piece + Escape(value[p + 1..])) == (before + piece) + Escape(value[p + 1..]);
        var fits := AppendEscapedChar(value[p]);
        if !fits { return false; }
        p := p + 1;
      }
      return true;
    }

    /** The client's `append_field`. */
    method AppendField(name: string, value: string, comma: bool) returns (ok: bool)
      requires Valid()
      modifies this`pos, buf
      ensures Valid()
      ensures ok == (old(pos) + |Field(name, value, comma)| < buf.Length)
      ensures ok ==> Text() == old(Text()) + Field(name, value, comma)
    {
      var opening := if comma then ",\"" else "\"";
      FieldPieces(Text(), opening, name, value, comma);
      ok := AppendRaw(opening);
      if !ok { return; }
      ok := AppendRaw(name);
      if !ok { return; }
      ok := AppendRaw("\":\"");
      if !ok { return; }
      ok := AppendJsonString(value);
      if !ok { return; }
      ok := AppendRaw("\"");
    }

    /** The server's `append_json_field`. */
    method AppendJsonField(name: string, value: string, comma: bool) returns (ok: bool)
      requires Valid()
      modifies this`pos, buf
      ensures Valid()
      ensures ok == (old(pos) + |Field(name, value, comma)| < buf.Length)
      ensures ok ==> Text() == old(Text()) + Field(name, value, comma)
    {
      var opening := (if comma then "," else "") + "\"" + name + "\":\"";
      OpenedPieces(Text(), opening, name, value, comma);
      ok := AppendRaw(opening);
      if !ok { return; }
      ok := AppendJsonEscaped(value);
      if !ok { return; }
      ok := AppendRaw("\"");
    }
  }
}
