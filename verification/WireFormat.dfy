/** What the messages mean to a reader of JSON (src/client/api/ccm_api.c:104-123,
    src/server/gateway/protocol.c:328-354): which member carries which value, by its name on the wire. */
module WireFormat {
  import opened Common
  import opened CStrings
  import opened JsonReader
  import opened RequestParser
  import opened RequestCodec
  import opened Framing
  import Json
  import Numerals

  // ------------------------------------------------------------- messages made of pieces

  /** The piece is a comma and this member. */
  ghost predicate Prints(m: Member, piece: string) {
    && Json.Clean(m.name)
    && match m
       case Text(name, value) => piece == Json.Field(name, value, true)
       case Number(name, n) =>
         exists code: string :: piece == ",\"" + name + "\":" + code && Numerals.Writes(code, 10, n)
  }

  function Flat(pieces: seq<string>): string {
    if pieces == [] then "" else pieces[0] + Flat(pieces[1..])
  }

  lemma {:induction false} FlatAppend(pieces: seq<string>, p: string)
    ensures Flat(pieces + [p]) == Flat(pieces) + p
  {
    if pieces == [] {
      assert pieces + [p] == [p] && [p][1..] == [] && p + "" == p;
    } else {
      assert (pieces + [p])[1..] == pieces[1..] + [p];
      FlatAppend(pieces[1..], p);
    }
  }

  lemma CommaFirst(name: string, value: string, rest: string)
    ensures Json.Field(name, value, true) + rest == "," + (Json.Field(name, value, false) + rest)
  {
  }

  lemma NumberPieces(name: string, code: string, rest: string)
    ensures (",\"" + name + "\":" + code) + rest == "," + ("\"" + (name + ("\"" + (":" + (code + rest)))))
  {
  }

  /** One piece is read as its member, behind its comma. */
  lemma PieceIsRead(m: Member, piece: string, rest: string) returns (body: string)
    requires Prints(m, piece) && rest != "" && (rest[0] == ',' || rest[0] == '}')
    ensures piece + rest == "," + body && ReadMember(body) == Some(First(m, rest))
  {
    match m
    case Text(name, value) =>
      CommaFirst(name, value, rest);
      FieldIsRead(name, value, rest);
      body := Json.Field(name, value, false) + rest;
    case Number(name, n) =>
      var code: string :| piece == ",\"" + name + "\":" + code && Numerals.Writes(code, 10, n);
      NumberPieces(name, code, rest);
      NameIsRead(name, code + rest);
      NumberIsRead(name, code, n, rest);
      body := "\"" + (name + ("\"" + (":" + (code + rest))));
  }

  /** One piece in front of the closing brace, or of pieces that are read. */
  lemma OneMoreRead(s: string, m: Member, piece: string, rest: string, more: seq<Member>, all: seq<Member>)
    requires s == piece + rest && all == [m] + more && Prints(m, piece) && rest != ""
    requires if more == [] then rest == "}" else rest[0] == ',' && ReadMembers(rest[1..]) == Some(more)
    ensures s[0] == ',' && ReadMembers(s[1..]) == Some(all)
  {
    var body := PieceIsRead(m, piece, rest);
    assert s[1..] == body;
    MembersStep(body, m, rest);
    assert [m] + [] == [m];
  }

  lemma FlatEnds(pieces: seq<string>)
    requires pieces != []
    ensures Flat(pieces) + "}" == pieces[0] + (Flat(pieces[1..]) + "}")
    ensures |pieces| == 1 ==> Flat(pieces[1..]) + "}" == "}"
  {
    ThreeTexts(pieces[0], Flat(pieces[1..]), "}");
  }

  /** So is the whole message, behind its first comma. */
  lemma {:induction false} PiecesAreRead(ms: seq<Member>, pieces: seq<string>)
    requires ms != [] && |ms| == |pieces| && forall i :: 0 <= i < |ms| ==> Prints(ms[i], pieces[i])
    ensures var s := Flat(pieces) + "}"; s[0] == ',' && ReadMembers(s[1..]) == Some(ms)
    decreases |ms|
  {
    var more, rest := ms[1..], Flat(pieces[1..]) + "}";
    FlatEnds(pieces);
    if more != [] {
      assert forall i :: 0 <= i < |more| ==> more[i] == ms[i + 1] && pieces[1..][i] == pieces[i + 1];
      PiecesAreRead(more, pieces[1..]);
    }
    OneMoreRead(Flat(pieces) + "}", ms[0], pieces[0], rest, more, ms);
  }

  // ------------------------------------------------------------- requests

  lemma KeysAreClean1()
    ensures Json.Clean("request_id") && Json.Clean("domain") && Json.Clean("action") && Json.Clean("algorithm")
    ensures Json.Clean("key_ref") && Json.Clean("payload")
  {
  }

  lemma KeysAreClean2()
    ensures Json.Clean("aux_payload") && Json.Clean("device_hint") && Json.Clean("user_pin")
    ensures Json.Clean("preference") && Json.Clean("sequence")
  {
  }

  lemma KeyIsClean(k: Key)
    ensures Json.Clean(KeyName(k))
  {
    KeysAreClean1();
    KeysAreClean2();
  }

  function MembersOf(fs: seq<Field>): seq<Member> {
    if fs == [] then [] else [Text(Name(fs[0]), fs[0].value)] + MembersOf(fs[1..])
  }

  function PiecesOf(fs: seq<Field>): seq<string> {
    if fs == [] then [] else [Json.Field(Name(fs[0]), fs[0].value, true)] + PiecesOf(fs[1..])
  }

  lemma {:induction false} FieldsArePieces(fs: seq<Field>)
    ensures Render(fs, false) == Flat(PiecesOf(fs)) && |MembersOf(fs)| == |PiecesOf(fs)| == |fs|
    ensures forall i :: 0 <= i < |fs| ==> Prints(MembersOf(fs)[i], PiecesOf(fs)[i])
  {
    if fs != [] {
      FieldsArePieces(fs[1..]);
      KeyIsClean(fs[0].key);
      assert PiecesOf(fs)[1..] == PiecesOf(fs[1..]);
      assert Prints(Text(Name(fs[0]), fs[0].value), PiecesOf(fs)[0]);
      forall i | 0 <= i < |fs| ensures Prints(MembersOf(fs)[i], PiecesOf(fs)[i]) {
        if i > 0 { assert MembersOf(fs)[i] == MembersOf(fs[1..])[i - 1]; }
      }
    }
  }

  lemma FieldsAreRead(fs: seq<Field>)
    requires fs != []
    ensures ReadObject(Message(fs)) == Some(MembersOf(fs))
  {
    FieldsArePieces(fs);
    PiecesAreRead(MembersOf(fs), PiecesOf(fs));
    FirstComma(fs);
  }

  /** The message, and its fields with a comma before the first. */
  lemma FirstComma(fs: seq<Field>)
    requires fs != []
    ensures Message(fs) == "{" + (Render(fs, false) + "}")[1..]
  {
    var n, v, more := Name(fs[0]), fs[0].value, Render(fs[1..], false);
    CommaFirst(n, v, more + "}");
    ThreeTexts(Json.Field(n, v, true), more, "}");
    ThreeTexts(Json.Field(n, v, false), more, "}");
    assert Message(fs) == "{" + (Render(fs, true) + "}");
  }

  lemma {:induction false} MembersConcat(a: seq<Field>, b: seq<Field>)
    ensures MembersOf(a + b) == MembersOf(a) + MembersOf(b)
  {
    if a == [] {
      assert a + b == b;
    } else {
      assert (a + b)[1..] == a[1..] + b;
      MembersConcat(a[1..], b);
    }
  }

  /** An optional member: there if its value is not empty. */
  function Maybe(name: string, value: string): seq<Member> { if value == "" then [] else [Text(name, value)] }

  lemma MaybeIs(k: Key, name: string, value: string)
    requires KeyName(k) == name
    ensures MembersOf(Optional(k, value)) == Maybe(name, value)
  {
    if value != "" { assert Optional(k, value)[1..] == []; }
  }

  lemma HeadMembers(domain: string, action: string, algorithm: string, o: Options)
    ensures MembersOf(HeadFields(domain, action, algorithm, o))
      == [Text("request_id", o.requestId), Text("domain", domain), Text("action", action), Text("algorithm", algorithm)]
  {
    var h := HeadFields(domain, action, algorithm, o);
    assert h == [h[0]] + ([h[1]] + ([h[2]] + [h[3]]));
    MembersConcat([h[0]], [h[1]] + ([h[2]] + [h[3]]));
    MembersConcat([h[1]], [h[2]] + [h[3]]);
    MembersConcat([h[2]], [h[3]]);
    OneMember(h[0]);
    OneMember(h[1]);
    OneMember(h[2]);
    OneMember(h[3]);
  }

  lemma OneMember(f: Field)
    ensures MembersOf([f]) == [Text(Name(f), f.value)]
  {
    assert [f][1..] == [] && MembersOf([]) == [];
  }

  lemma OptionMembers(o: Options)
    ensures MembersOf(OptionFields(o)) ==
      Maybe("key_ref", o.keyRef) + Maybe("payload", o.payload) + Maybe("aux_payload", o.auxPayload)
      + Maybe("device_hint", o.deviceHint) + Maybe("preference", o.preference) + Maybe("sequence", o.sequence)
  {
    var o1, o2, o3 := Optional(KeyKeyRef, o.keyRef), Optional(KeyPayload, o.payload), Optional(KeyAux, o.auxPayload);
    var o4, o5, o6 := Optional(KeyHint, o.deviceHint), Optional(KeyPreference, o.preference), Optional(KeySequence, o.sequence);
    MembersConcat(o1, o2);
    MembersConcat(o1 + o2, o3);
    MembersConcat(o1 + o2 + o3, o4);
    MembersConcat(o1 + o2 + o3 + o4, o5);
    MembersConcat(o1 + o2 + o3 + o4 + o5, o6);
    MaybeIs(KeyKeyRef, "key_ref", o.keyRef);
    MaybeIs(KeyPayload, "payload", o.payload);
    MaybeIs(KeyAux, "aux_payload", o.auxPayload);
    MaybeIs(KeyHint, "device_hint", o.deviceHint);
    MaybeIs(KeyPreference, "preference", o.preference);
    MaybeIs(KeySequence, "sequence", o.sequence);
  }

  /** Whatever the values are, a built request is a JSON object that has exactly these members: the
      four mandatory ones, and each option that is not empty under its own name. */
  lemma RequestIsRead(domain: string, action: string, algorithm: string, o: Options)
    ensures ReadObject(Message(Fields(domain, action, algorithm, o))) == Some(
      [Text("request_id", o.requestId), Text("domain", domain), Text("action", action), Text("algorithm", algorithm)]
      + (Maybe("key_ref", o.keyRef) + Maybe("payload", o.payload) + Maybe("aux_payload", o.auxPayload)
         + Maybe("device_hint", o.deviceHint) + Maybe("preference", o.preference) + Maybe("sequence", o.sequence)))
  {
    var fs := Fields(domain, action, algorithm, o);
    FieldsAreRead(fs);
    MembersConcat(HeadFields(domain, action, algorithm, o), OptionFields(o));
    HeadMembers(domain, action, algorithm, o);
    OptionMembers(o);
  }

  // ------------------------------------------------------------- responses

  /** The numbers of include/common.h:74-81. */
  function StatusCode(s: Status): nat {
    match s
    case StatusOk => 0
    case BadRequest => 400
    case Unauthorized => 401
    case NotSupported => 422
    case BackendFail => 502
    case NoResource => 503
  }

  lemma StatusIsPrinted(s: Status)
    ensures Numerals.Writes(StatusText(s), 10, StatusCode(s))
  {
    match s
    case StatusOk => Numerals.OneDigit('0', 10);
    case BadRequest => ThreeDigits('4', '0', '0');
    case Unauthorized => ThreeDigits('4', '0', '1');
    case NotSupported => ThreeDigits('4', '2', '2');
    case BackendFail => ThreeDigits('5', '0', '2');
    case NoResource => ThreeDigits('5', '0', '3');
  }

  lemma ThreeDigits(a: char, b: char, c: char)
    requires '1' <= a <= '9' && '0' <= b <= '9' && '0' <= c <= '9'
    ensures Numerals.Writes([a, b, c], 10, 100 * (a as int - '0' as int) + 10 * (b as int - '0' as int) + (c as int - '0' as int))
  {
    Numerals.OneDigit(a, 10);
    Numerals.NumeralAppend([a], b, 10, Numerals.DigitOf(a));
    Numerals.NumeralAppend([a] + [b], c, 10, 10 * Numerals.DigitOf(a) + Numerals.DigitOf(b));
    assert [a] + [b] + [c] == [a, b, c];
  }

  lemma ResponseWords()
    ensures Json.Clean("result") && Json.Clean("trace") && Json.Clean("backend_call") && Json.Clean("backend_name")
  {
  }

  lemma MoreResponseWords()
    ensures Json.Clean("selected_device") && Json.Clean("status") && Json.Clean("request_id")
  {
  }

  /** The members of a response, by their names on the wire. */
  function ResponseMembers(r: Response): seq<Member> {
    [Text("request_id", r.requestId), Number("status", StatusCode(r.status)), Text("selected_device", r.selectedDevice),
     Text("backend_name", r.backendName), Text("backend_call", r.backendCall), Text("trace", r.trace), Text("result", r.result)]
  }

  /** Piece `i` of the printed response, with a comma before the first. */
  function PieceOf(r: Response, i: nat): string {
    if i == 0 then "," + ResponsePiece(r, 1) else ResponsePiece(r, i + 1)
  }

  function PiecesOfResponse(r: Response): seq<string> { seq(7, i requires 0 <= i < 7 => PieceOf(r, i)) }

  lemma IdIsPrinted(r: Response, i: nat)
    requires i == 0
    ensures Prints(ResponseMembers(r)[i], PieceOf(r, i))
  {
    MoreResponseWords();
    CommaFirst("request_id", r.requestId, "");
    assert Json.Field("request_id", r.requestId, true) + "" == Json.Field("request_id", r.requestId, true);
    assert Json.Field("request_id", r.requestId, false) + "" == Json.Field("request_id", r.requestId, false);
  }

  lemma StatusPieceIsPrinted(r: Response, i: nat)
    requires i == 1
    ensures Prints(ResponseMembers(r)[i], PieceOf(r, i))
  {
    MoreResponseWords();
    StatusIsPrinted(r.status);
    var name, code := "status", StatusText(r.status);
    assert PieceOf(r, i) == ",\"" + name + "\":" + code;
  }

  lemma TextsArePrinted(r: Response, i: nat)
    requires 2 <= i < 7
    ensures Prints(ResponseMembers(r)[i], PieceOf(r, i))
  {
    ResponseWords();
    MoreResponseWords();
  }

  lemma PiecesArePrinted(r: Response)
    ensures forall i :: 0 <= i < 7 ==> Prints(ResponseMembers(r)[i], PiecesOfResponse(r)[i])
  {
    forall i | 0 <= i < 7 ensures Prints(ResponseMembers(r)[i], PiecesOfResponse(r)[i]) {
      if i == 0 { IdIsPrinted(r, i); } else if i == 1 { StatusPieceIsPrinted(r, i); } else { TextsArePrinted(r, i); }
    }
  }

  /** The text `whole` is an opening brace and then the pieces without the comma of the first. */
  predicate Opens(flat: string, whole: string) { whole != "" && whole[0] == '{' && flat == "," + whole[1..] }

  lemma {:induction false} PrefixIsFlat(r: Response, n: nat)
    requires 1 <= n <= 7
    ensures Opens(Flat(PiecesOfResponse(r)[..n]), ResponsePrefix(r, n))
  {
    var ps, none := PiecesOfResponse(r), 0;
    assert ps[..n] == ps[..n - 1] + [PieceOf(r, n - 1)];
    FlatAppend(ps[..n - 1], PieceOf(r, n - 1));
    PieceBehind(r, n);
    if n == 1 {
      assert ps[..none] == [];
      FirstPiece(r, none, Flat(ps[..n]), ResponsePrefix(r, n));
    } else {
      PrefixIsFlat(r, n - 1);
      OneMorePiece(Flat(ps[..n - 1]), ResponsePrefix(r, n - 1), PieceOf(r, n - 1), Flat(ps[..n]), ResponsePrefix(r, n));
    }
  }

  lemma PieceBehind(r: Response, n: nat)
    requires 1 <= n <= 7
    ensures n > 1 ==> ResponsePrefix(r, n) == ResponsePrefix(r, n - 1) + PieceOf(r, n - 1)
  {
  }

  lemma FirstPiece(r: Response, none: nat, flat: string, whole: string)
    requires none == 0 && flat == "" + PieceOf(r, none) && whole == ResponsePrefix(r, none + 1)
    ensures Opens(flat, whole)
  {
    var piece := ResponsePiece(r, none + 1);
    assert whole == "{" + piece;
    assert flat == "," + piece;
  }

  lemma OneMorePiece(flat: string, front: string, piece: string, longer: string, whole: string)
    requires Opens(flat, front) && longer == flat + piece && whole == front + piece
    ensures Opens(longer, whole)
  {
    assert (front + piece)[1..] == front[1..] + piece;
  }

  lemma ResponseEnds(r: Response, n: nat)
    requires n == 7
    ensures ResponseText(r) == ResponsePrefix(r, n) + "}"
  {
  }

  /** Whatever the values are, a response is a JSON object that has exactly these members. */
  lemma ResponseIsRead(r: Response)
    ensures ReadObject(ResponseText(r)) == Some(
      [Text("request_id", r.requestId), Number("status", StatusCode(r.status)), Text("selected_device", r.selectedDevice),
       Text("backend_name", r.backendName), Text("backend_call", r.backendCall), Text("trace", r.trace), Text("result", r.result)])
  {
    var n, ps := 7, PiecesOfResponse(r);
    PiecesArePrinted(r);
    PiecesAreRead(ResponseMembers(r), ps);
    assert ps[..n] == ps;
    PrefixIsFlat(r, n);
    ResponseEnds(r, n);
    SameObject(ResponseText(r), ResponsePrefix(r, n), Flat(ps));
    ReadsAs(ResponseText(r), Flat(ps) + "}", ResponseMembers(r));
  }

  lemma ReadsAs(text: string, s: string, ms: seq<Member>)
    requires text != "" && text[0] == '{' && s != "" && text[1..] == s[1..] && ReadMembers(s[1..]) == Some(ms)
    ensures ReadObject(text) == Some(ms)
  {
  }

  lemma SameObject(text: string, front: string, flat: string)
    requires text == front + "}" && front != "" && front[0] == '{' && flat == "," + front[1..]
    ensures text != "" && text[0] == '{' && text[1..] == (flat + "}")[1..]
  {
  }
}
