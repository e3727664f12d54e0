/** Messages on the wire: one line each.  The server's line reader (src/server/gateway/server.c:22-43),
    its response printer (src/server/gateway/protocol.c:328-354, server.c:63-71) and the client's
    reader (src/client/transport/client_transport.c:26-49). */
module Framing {
  import opened Common
  import opened CStrings
  import opened RequestParser
  import opened RequestCodec
  import Json

  const LINE_SIZE: nat := 2048
  const RESPONSE_SIZE: nat := MAX_RESPONSE_LEN + 512

  /** What `read_line` makes of the bytes `stream` that arrive before end of file. */
  function ReadLine(stream: string, size: nat): string
    requires size > 0
  {
    var n := Span(stream, '\n');
    stream[..if n < size then n else size - 1]
  }

  method ReadLineInto(stream: string, buf: array<char>) returns (n: nat)
    requires buf.Length > 0
    modifies buf
    ensures n < buf.Length && buf[..n] == ReadLine(stream, buf.Length) && buf[n] == '\0'
  {
    var i := 0;
    while i + 1 < buf.Length && i < |stream| && stream[i] != '\n'
      invariant 0 <= i <= |stream| && i < buf.Length
      invariant buf[..i] == stream[..i] && '\n' !in stream[..i]
    {
      buf[i] := stream[i];
      i := i + 1;
    }
    LineLength(stream, i, buf.Length);
    buf[i] := '\0';
    n := i;
  }

  lemma LineLength(s: string, i: nat, size: nat)
    requires i <= |s| && i < size && '\n' !in s[..i]
    requires i + 1 == size || i == |s| || s[i] == '\n'
    ensures ReadLine(s, size) == s[..i]
  {
    assert s == s[..i] + s[i..];
    SpanAtLeast(s[..i], '\n', s[i..]);
    if i == |s| || s[i] == '\n' { SpanOf(s[..i], '\n', s[i..]); }
  }

  lemma {:induction false} SpanAtLeast(a: string, d: char, rest: string)
    requires d !in a
    ensures Span(a + rest, d) >= |a|
  {
    if a != "" {
      assert (a + rest)[1..] == a[1..] + rest;
      SpanAtLeast(a[1..], d, rest);
    }
  }

  // ------------------------------------------------------------- requests are one line

  predicate NoControl(s: string) { forall i :: 0 <= i < |s| ==> s[i] >= ' ' }

  lemma FieldHasNoControl(name: string, value: string, comma: bool)
    requires NoControl(name)
    ensures NoControl(Json.Field(name, value, comma))
  {
    forall i | 0 <= i < |Json.Escape(value)| ensures Json.Escape(value)[i] >= ' ' { Json.EscapeHasNoControl(value, i); }
    NoControlConcat(if comma then "," else "", "\"");
    NoControlConcat((if comma then "," else "") + "\"", name);
    NoControlConcat((if comma then "," else "") + "\"" + name, "\":\"");
    NoControlConcat((if comma then "," else "") + "\"" + name + "\":\"", Json.Escape(value));
    NoControlConcat((if comma then "," else "") + "\"" + name + "\":\"" + Json.Escape(value), "\"");
  }

  lemma NoControlConcat(a: string, b: string)
    ensures NoControl(a) && NoControl(b) ==> NoControl(a + b)
  {
  }

  lemma KeyHasNoControl(k: Key)
    ensures NoControl(KeyName(k))
  {
  }

  lemma {:induction false} RenderHasNoControl(fs: seq<Field>, first: bool)
    ensures NoControl(Render(fs, first))
  {
    if fs != [] {
      KeyHasNoControl(fs[0].key);
      FieldHasNoControl(Name(fs[0]), fs[0].value, !first);
      RenderHasNoControl(fs[1..], false);
      NoControlConcat(Json.Field(Name(fs[0]), fs[0].value, !first), Render(fs[1..], false));
    }
  }

  /** Whatever the values are, a built request is read back as exactly its own message: the only
      line break is the one at its end. */
  lemma RequestIsOneLine(fs: seq<Field>, more: string)
    requires |Message(fs)| + 1 < LINE_SIZE
    ensures ReadLine(Message(fs) + "\n" + more, LINE_SIZE) == Message(fs)
  {
    RenderHasNoControl(fs, true);
    NoControlConcat("{", Render(fs, true));
    NoControlConcat("{" + Render(fs, true), "}");
    var m := Message(fs);
    var s := m + "\n" + more;
    assert s[..|m|] == m && s[|m|] == '\n';
    LineLength(s, |m|, LINE_SIZE);
  }

  // ------------------------------------------------------------- responses

  function StatusText(s: Status): string {
    match s
    case StatusOk => "0"
    case BadRequest => "400"
    case Unauthorized => "401"
    case NotSupported => "422"
    case BackendFail => "502"
    case NoResource => "503"
  }

  /** The response up to and including its first `n` fields (the status counts as one). */
  function ResponsePrefix(r: Response, n: nat): string {
    if n == 0 then "{"
    else ResponsePrefix(r, n - 1) + ResponsePiece(r, n)
  }

  function ResponsePiece(r: Response, n: nat): string {
    if n == 1 then Json.Field("request_id", r.requestId, false)
    else if n == 2 then ",\"status\":" + StatusText(r.status)
    else if n == 3 then Json.Field("selected_device", r.selectedDevice, true)
    else if n == 4 then Json.Field("backend_name", r.backendName, true)
    else if n == 5 then Json.Field("backend_call", r.backendCall, true)
    else if n == 6 then Json.Field("trace", r.trace, true)
    else if n == 7 then Json.Field("result", r.result, true)
    else "}"
  }

  function ResponseText(r: Response): string { ResponsePrefix(r, 8) }

  lemma {:induction false} PrefixGrows(r: Response, n: nat)
    requires n <= 8
    ensures |ResponsePrefix(r, n)| <= |ResponseText(r)|
    decreases 8 - n
  {
    if n < 8 { PrefixGrows(r, n + 1); }
  }

  /** Appends field `n` to a response that holds the fields before it. */
  method AppendNth(r: Response, w: Json.Writer, ghost n: nat, name: string, value: string, comma: bool) returns (ok: bool)
    requires 1 <= n <= 7 && ResponsePiece(r, n) == Json.Field(name, value, comma)
    requires w.Valid() && w.Text() == ResponsePrefix(r, n - 1)
    modifies w`pos, w.buf
    ensures w.Valid()
    ensures ok ==> w.Text() == ResponsePrefix(r, n)
    ensures !ok ==> |ResponseText(r)| >= w.buf.Length
  {
    ghost var was := w.Text();
    assert |was| == w.pos;
    PrefixGrows(r, n);
    ok := w.AppendJsonField(name, value, comma);
  }

  /** `response_to_json`: the length, or -1 when the buffer is too small. */
  method ResponseToJson(r: Response, w: Json.Writer) returns (n: int)
    requires w.Valid() && w.pos == 0
    modifies w`pos, w.buf
    ensures w.Valid()
    ensures n == if |ResponseText(r)| < w.buf.Length then |ResponseText(r)| else -1
    ensures n > 0 ==> w.Text() == ResponseText(r)
  {
    var ok, fields := ResponseHead(r, w);
    if ok { ok := ResponseBody(r, w, fields); }
    if ok { ok := AppendClosing(r, w, fields + 4); }
    n := if ok then w.pos else -1;
  }

  /** The opening brace, the request id, the status and the device. */
  method ResponseHead(r: Response, w: Json.Writer) returns (ok: bool, ghost fields: nat)
    requires w.Valid() && w.pos == 0
    modifies w`pos, w.buf
    ensures w.Valid() && fields == 3
    ensures ok ==> w.Text() == ResponsePrefix(r, fields)
    ensures !ok ==> |ResponseText(r)| >= w.buf.Length
  {
    ghost var none := 0;
    fields := 3;
    PrefixGrows(r, none);
    ok := w.AppendRaw("{");
    if !ok { return; }
    assert w.Text() == ResponsePrefix(r, none);
    ok := AppendNth(r, w, none + 1, "request_id", r.requestId, false);
    if !ok { return; }
    ok := AppendStatus(r, w, none + 2);
    if !ok { return; }
    ok := AppendNth(r, w, none + 3, "selected_device", r.selectedDevice, true);
  }

  method ResponseBody(r: Response, w: Json.Writer, ghost n: nat) returns (ok: bool)
    requires n == 3 && w.Valid() && w.Text() == ResponsePrefix(r, n)
    modifies w`pos, w.buf
    ensures w.Valid()
    ensures ok ==> w.Text() == ResponsePrefix(r, n + 4)
    ensures !ok ==> |ResponseText(r)| >= w.buf.Length
  {
    ok := AppendNth(r, w, n + 1, "backend_name", r.backendName, true);
    if !ok { return; }
    ok := AppendNth(r, w, n + 2, "backend_call", r.backendCall, true);
    if !ok { return; }
    ok := AppendNth(r, w, n + 3, "trace", r.trace, true);
    if !ok { return; }
    ok := AppendNth(r, w, n + 4, "result", r.result, true);
  }

  method AppendStatus(r: Response, w: Json.Writer, ghost n: nat) returns (ok: bool)
    requires n == 2 && w.Valid() && w.Text() == ResponsePrefix(r, n - 1)
    modifies w`pos, w.buf
    ensures w.Valid()
    ensures ok ==> w.Text() == ResponsePrefix(r, n)
    ensures !ok ==> |ResponseText(r)| >= w.buf.Length
  {
    ghost var was := w.Text();
    assert |was| == w.pos;
    PrefixGrows(r, n);
    ok := w.AppendRaw(",\"status\":" + StatusText(r.status));
  }

  method AppendClosing(r: Response, w: Json.Writer, ghost n: nat) returns (ok: bool)
    requires n == 7 && w.Valid() && w.Text() == ResponsePrefix(r, n)
    modifies w`pos, w.buf
    ensures w.Valid()
    ensures ok ==> w.Text() == ResponseText(r) && |ResponseText(r)| == w.pos < w.buf.Length
    ensures !ok ==> |ResponseText(r)| >= w.buf.Length
  {
    ghost var was := w.Text();
    assert |was| == w.pos;
    assert ResponseText(r) == ResponsePrefix(r, n + 1) == was + "}";
    ok := w.AppendRaw("}");
    if ok { assert |w.Text()| == w.pos; }
  }

  /** The bytes `write_response_and_close` sends: the response and a line break, or nothing at all
      when the response does not fit its buffer. */
  function Sent(r: Response): string {
    if |ResponseText(r)| < RESPONSE_SIZE then ResponseText(r) + "\n" else ""
  }

  lemma ResponseHasNoControl(r: Response)
    ensures NoControl(ResponseText(r))
  {
    PrefixHasNoControl(r, 8);
  }

  lemma {:induction false} PrefixHasNoControl(r: Response, n: nat)
    ensures NoControl(ResponsePrefix(r, n))
  {
    if n > 0 {
      PrefixHasNoControl(r, n - 1);
      PieceHasNoControl(r, n);
      NoControlConcat(ResponsePrefix(r, n - 1), ResponsePiece(r, n));
    }
  }

  lemma PieceHasNoControl(r: Response, n: nat)
    requires n > 0
    ensures NoControl(ResponsePiece(r, n))
  {
    if n == 1 { FieldHasNoControl("request_id", r.requestId, false); }
    else if n == 2 { StatusHasNoControl(r.status); }
    else if n == 3 { FieldHasNoControl("selected_device", r.selectedDevice, true); }
    else if n == 4 { FieldHasNoControl("backend_name", r.backendName, true); }
    else if n == 5 { FieldHasNoControl("backend_call", r.backendCall, true); }
    else if n == 6 { FieldHasNoControl("trace", r.trace, true); }
    else if n == 7 { FieldHasNoControl("result", r.result, true); }
    else { assert ResponsePiece(r, n) == "}"; }
  }

  lemma StatusHasNoControl(s: Status)
    ensures NoControl(",\"status\":" + StatusText(s))
  {
  }

  // ------------------------------------------------------------- which responses are sent

  lemma FieldLength(name: string, value: string, comma: bool)
    ensures |Json.Field(name, value, comma)| == |name| + |Json.Escape(value)| + 5 + if comma then 1 else 0
  {
  }

  lemma PrefixStep(r: Response, n: nat)
    requires n > 0
    ensures |ResponsePrefix(r, n)| == |ResponsePrefix(r, n - 1)| + |ResponsePiece(r, n)|
  {
  }

  lemma NamedPiece(r: Response, n: nat, name: string, value: string, comma: bool)
    requires n > 0 && ResponsePiece(r, n) == Json.Field(name, value, comma)
    ensures |ResponsePrefix(r, n)| == |ResponsePrefix(r, n - 1)| + |name| + |Json.Escape(value)| + 5 + if comma then 1 else 0
  {
    PrefixStep(r, n);
    FieldLength(name, value, comma);
  }

  lemma HeadLength(r: Response, n: nat)
    requires n == 4
    ensures |ResponsePrefix(r, n)| == 65 + |StatusText(r.status)| + |Json.Escape(r.requestId)|
      + |Json.Escape(r.selectedDevice)| + |Json.Escape(r.backendName)|
  {
    NamedPiece(r, n - 3, "request_id", r.requestId, false);
    PrefixStep(r, n - 2);
    NamedPiece(r, n - 1, "selected_device", r.selectedDevice, true);
    NamedPiece(r, n, "backend_name", r.backendName, true);
  }

  lemma TailLength(r: Response, n: nat)
    requires n == 7
    ensures |ResponsePrefix(r, n)| == |ResponsePrefix(r, n - 3)| + 41
      + |Json.Escape(r.backendCall)| + |Json.Escape(r.trace)| + |Json.Escape(r.result)|
  {
    NamedPiece(r, n - 2, "backend_call", r.backendCall, true);
    NamedPiece(r, n - 1, "trace", r.trace, true);
    NamedPiece(r, n, "result", r.result, true);
  }

  /** What the values of a response take on the wire. */
  function ValuesLength(r: Response): nat {
    |StatusText(r.status)| + |Json.Escape(r.requestId)| + |Json.Escape(r.selectedDevice)| + |Json.Escape(r.backendName)|
    + |Json.Escape(r.backendCall)| + |Json.Escape(r.trace)| + |Json.Escape(r.result)|
  }

  /** A response takes 107 bytes and its values; it is sent exactly when that is less than 2560, and
      otherwise the client gets nothing at all. */
  lemma SentIff(r: Response)
    ensures |ResponseText(r)| == 107 + ValuesLength(r)
    ensures Sent(r) != "" <==> 107 + ValuesLength(r) < RESPONSE_SIZE
  {
    var head, tail, all := 4, 7, 8;
    HeadLength(r, head);
    TailLength(r, tail);
    PrefixStep(r, all);
  }

  /** An error is always answered: its message comes from a buffer of 256 bytes and its other fields
      are empty, whatever bytes it has. */
  lemma ErrorIsSent(id: string, status: Status, message: string)
    requires |id| < MAX_ID_LEN && |message| < MAX_FIELD_LEN
    ensures Sent(Response(id, status, "", "", "", "", message)) != ""
  {
    var r := Response(id, status, "", "", "", "", message);
    SentIff(r);
    Json.EscapeLength(id);
    Json.EscapeLength(message);
    assert |StatusText(status)| <= 3;
  }

  // ------------------------------------------------------------- the client's reader

  /** What `read_response` can leave in its buffer, whatever pieces the stream arrives in: a prefix of
      the stream, which ends only at its end, behind a line break, or when the buffer is full. */
  predicate ClientReads(stream: string, size: nat, text: string) {
    && text <= stream && |text| < size
    && (text == stream || |text| + 1 == size || '\n' in text)
  }

  method ReadResponse(stream: string, response: array<char>) returns (used: nat)
    requires response.Length > 0
    modifies response
    ensures used < response.Length && ClientReads(stream, response.Length, response[..used]) && response[used] == '\0'
  {
    used := 0;
    while used + 1 < response.Length
      invariant 0 <= used <= |stream| && used < response.Length
      invariant response[..used] == stream[..used]
      decreases response.Length - used
    {
      var room := if response.Length - used - 1 < |stream| - used then response.Length - used - 1 else |stream| - used;
      if room == 0 { break; }
      var n: nat :| 0 < n <= room;
      CopyPiece(stream, response, used, n);
      used := used + n;
      if '\n' in response[..used] { break; }
    }
    response[used] := '\0';
  }

  /** One `read` that returns `n` bytes. */
  method CopyPiece(stream: string, response: array<char>, used: nat, n: nat)
    requires used + n <= |stream| && used + n < response.Length && response[..used] == stream[..used]
    modifies response
    ensures response[..used + n] == stream[..used + n]
  {
    for i := used to used + n
      invariant response[..i] == stream[..i]
    {
      response[i] := stream[i];
    }
  }

  /** What is sent never exceeds 2560 bytes, and the client has exactly that, cut only if its own buffer
      is too small, however the bytes arrive: the line break comes last. */
  lemma ResponseIsOneLine(r: Response, size: nat, text: string)
    requires ClientReads(Sent(r), size, text)
    ensures |Sent(r)| <= RESPONSE_SIZE && text == Clip(Sent(r), size)
    ensures Sent(r) != "" && size > RESPONSE_SIZE ==> text == ResponseText(r) + "\n"
  {
    ResponseHasNoControl(r);
    var t := ResponseText(r);
    if '\n' in text {
      var i :| 0 <= i < |text| && text[i] == '\n';
      assert Sent(r)[i] == '\n' && Sent(r) == t + "\n";
      assert i == |t|;
    }
  }
}
