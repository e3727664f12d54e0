/** The client's request printer (src/client/api/ccm_api.c:35-123) and why the server's field finder
    undoes it. */
module RequestCodec {
  import opened Common
  import opened CStrings
  import opened Names
  import Json
  import opened RequestParser

  /** One field of the message, in wire order. */
  datatype Field = Field(key: Key, value: string)

  function Name(f: Field): string { KeyName(f.key) }

  function Render(fs: seq<Field>, first: bool): string {
    if fs == [] then "" else Json.Field(Name(fs[0]), fs[0].value, !first) + Render(fs[1..], false)
  }

  /** The request line, without its line break. */
  function Message(fs: seq<Field>): string { "{" + Render(fs, true) + "}" }

  /** `ccm_json_options_t`. */
  datatype Options = Options(
    requestId: string, keyRef: string, payload: string, auxPayload: string,
    deviceHint: string, preference: string, sequence: string)

  const ALGORITHM_NAMES: seq<string> :=
    ["auto", "sm2", "sm2", "sm2", "rsa", "rsa", "rsa", "sm3", "sha256", "sm4-cbc", "sm4-ecb", "sm4-mac",
     "aes-cbc", "aes-ecb", "kyber512", "kyber768", "kyber1024", "mlkem768", "dilithium2", "dilithium3",
     "dilithium5", "sm9"]

  /** `CCM_AlgorithmName`: the ids are the enum values of include/ccm.h. */
  function AlgorithmName(id: nat): Option<string> {
    if id < |ALGORITHM_NAMES| then Some(ALGORITHM_NAMES[id]) else None
  }

  /** The names by the numbers of include/ccm.h. */
  lemma ClassicAlgorithmWords()
    ensures AlgorithmName(0) == Some("auto")
    ensures forall id :: 1 <= id <= 3 ==> AlgorithmName(id) == Some("sm2")
    ensures forall id :: 4 <= id <= 6 ==> AlgorithmName(id) == Some("rsa")
    ensures AlgorithmName(7) == Some("sm3") && AlgorithmName(8) == Some("sha256")
  {
  }

  lemma CipherAlgorithmWords()
    ensures AlgorithmName(9) == Some("sm4-cbc") && AlgorithmName(10) == Some("sm4-ecb") && AlgorithmName(11) == Some("sm4-mac")
    ensures AlgorithmName(12) == Some("aes-cbc") && AlgorithmName(13) == Some("aes-ecb")
  {
  }

  lemma PqcAlgorithmWords()
    ensures AlgorithmName(14) == Some("kyber512") && AlgorithmName(15) == Some("kyber768")
    ensures AlgorithmName(16) == Some("kyber1024") && AlgorithmName(17) == Some("mlkem768")
    ensures AlgorithmName(18) == Some("dilithium2") && AlgorithmName(19) == Some("dilithium3")
    ensures AlgorithmName(20) == Some("dilithium5") && AlgorithmName(21) == Some("sm9")
    ensures forall id :: id >= 22 ==> AlgorithmName(id) == None
  {
  }

  function Optional(k: Key, value: string): seq<Field> {
    if value == "" then [] else [Field(k, value)]
  }

  function HeadFields(domain: string, action: string, algorithm: string, o: Options): seq<Field> {
    [Field(KeyRequestId, o.requestId), Field(KeyDomain, domain), Field(KeyAction, action), Field(KeyAlgorithm, algorithm)]
  }

  function OptionFields(o: Options): seq<Field> {
    Optional(KeyKeyRef, o.keyRef) + Optional(KeyPayload, o.payload) + Optional(KeyAux, o.auxPayload)
    + Optional(KeyHint, o.deviceHint) + Optional(KeyPreference, o.preference) + Optional(KeySequence, o.sequence)
  }

  function Fields(domain: string, action: string, algorithm: string, o: Options): seq<Field> {
    HeadFields(domain, action, algorithm, o) + OptionFields(o)
  }

  datatype ClientStatus = CcmOk | InvalidArgument | UnsupportedAlgorithm | BufferTooSmall

  lemma {:induction false} RenderAppend(fs: seq<Field>, f: Field, first: bool)
    ensures Render(fs + [f], first) == Render(fs, first) + Json.Field(Name(f), f.value, fs != [] || !first)
  {
    if fs == [] {
      assert fs + [f] == [f];
      assert [f][1..] == [];
    } else {
      assert (fs + [f])[1..] == fs[1..] + [f];
      RenderAppend(fs[1..], f, false);
    }
  }

  /** The message under construction: the opening brace and the fields so far. */
  function Opened(fs: seq<Field>): string { "{" + Render(fs, true) }

  lemma OpenedAppend(fs: seq<Field>, f: Field)
    ensures Opened(fs + [f]) == Opened(fs) + Json.Field(Name(f), f.value, fs != [])
  {
    RenderAppend(fs, f, true);
    Braced(Render(fs, true), Json.Field(Name(f), f.value, fs != []), Render(fs + [f], true));
  }

  lemma Braced(front: string, piece: string, whole: string)
    requires whole == front + piece
    ensures "{" + whole == ("{" + front) + piece
  {
  }

  lemma {:induction false} OpenedGrows(fs: seq<Field>, more: seq<Field>)
    ensures |Opened(fs)| <= |Opened(fs + more)|
    decreases |more|
  {
    if more == [] {
      assert fs + more == fs;
    } else {
      assert fs + more == (fs + [more[0]]) + more[1..];
      OpenedAppend(fs, more[0]);
      OpenedGrows(fs + [more[0]], more[1..]);
    }
  }

  /** Appends one field to a message that already holds `fs`. */
  method AppendOne(w: Json.Writer, ghost fs: seq<Field>, k: Key, value: string, comma: bool) returns (ok: bool)
    requires w.Valid() && w.Text() == Opened(fs) && comma == (fs != [])
    modifies w`pos, w.buf
    ensures w.Valid()
    ensures ok <==> |Opened(fs + [Field(k, value)])| < w.buf.Length
    ensures ok ==> w.Text() == Opened(fs + [Field(k, value)])
  {
    ghost var was := w.Text();
    assert |was| == w.pos;
    OpenedAppend(fs, Field(k, value));
    ok := w.AppendField(KeyName(k), value, comma);
  }

  /** `opts->x[0] && append_field(...)`: absent options append nothing. */
  method AppendOption(w: Json.Writer, ghost fs: seq<Field>, k: Key, value: string, ghost rest: seq<Field>)
    returns (ok: bool)
    requires w.Valid() && w.Text() == Opened(fs) && fs != []
    modifies w`pos, w.buf
    ensures w.Valid()
    ensures ok ==> w.Text() == Opened(fs + Optional(k, value))
    ensures !ok ==> |Opened(fs + (Optional(k, value) + rest))| >= w.buf.Length
  {
    if value == "" {
      assert fs + Optional(k, value) == fs;
      return true;
    }
    OptionGrows(fs, Field(k, value), rest);
    ok := AppendOne(w, fs, k, value, true);
  }

  lemma OptionGrows(fs: seq<Field>, f: Field, rest: seq<Field>)
    ensures |Opened(fs + [f])| <= |Opened(fs + ([f] + rest))|
  {
    OpenedGrows(fs + [f], rest);
    assert fs + [f] + rest == fs + ([f] + rest);
  }

  /** The four mandatory fields of `build_json`. */
  method AppendHead(w: Json.Writer, domain: string, action: string, algorithm: string, o: Options, ghost rest: seq<Field>)
    returns (ok: bool)
    requires w.Valid() && w.pos == 0
    modifies w`pos, w.buf
    ensures w.Valid()
    ensures ok ==> w.Text() == Opened(HeadFields(domain, action, algorithm, o))
    ensures !ok ==> |Opened(HeadFields(domain, action, algorithm, o) + rest)| >= w.buf.Length
  {
    ghost var all := HeadFields(domain, action, algorithm, o);
    OpenedGrows(all, rest);
    OpenedGrows(all[..3], all[3..]);
    OpenedGrows(all[..2], all[2..]);
    OpenedGrows(all[..1], all[1..]);
    assert all[..3] + all[3..] == all && all[..2] + all[2..] == all && all[..1] + all[1..] == all;
    assert all[..1] == [] + [all[0]] && all[..2] == all[..1] + [all[1]] && all[..3] == all[..2] + [all[2]];
    assert all == all[..3] + [all[3]];
    ok := w.AppendRaw("{");
    if !ok { return; }
    ok := AppendOne(w, [], KeyRequestId, o.requestId, false);
    if !ok { return; }
    ok := AppendOne(w, all[..1], KeyDomain, domain, true);
    if !ok { return; }
    ok := AppendOne(w, all[..2], KeyAction, action, true);
    if !ok { return; }
    ok := AppendOne(w, all[..3], KeyAlgorithm, algorithm, true);
  }

  /** The six optional fields of `build_json`, appended to a message that holds `fs`. */
  method AppendOptions(w: Json.Writer, o: Options, ghost fs: seq<Field>) returns (ok: bool)
    requires w.Valid() && w.Text() == Opened(fs) && fs != []
    modifies w`pos, w.buf
    ensures w.Valid()
    ensures ok ==> w.Text() == Opened(fs + OptionFields(o))
    ensures !ok ==> |Opened(fs + OptionFields(o))| >= w.buf.Length
  {
    ghost var o1, o2, o3 := Optional(KeyKeyRef, o.keyRef), Optional(KeyPayload, o.payload), Optional(KeyAux, o.auxPayload);
    ghost var o4, o5, o6 := Optional(KeyHint, o.deviceHint), Optional(KeyPreference, o.preference), Optional(KeySequence, o.sequence);
    Regroup(fs, o1, o2, o3, o4, o5, o6);
    ok := AppendOption(w, fs, KeyKeyRef, o.keyRef, o2 + o3 + o4 + o5 + o6);
    if !ok { return; }
    ok := AppendOption(w, fs + o1, KeyPayload, o.payload, o3 + o4 + o5 + o6);
    if !ok { return; }
    ok := AppendOption(w, fs + o1 + o2, KeyAux, o.auxPayload, o4 + o5 + o6);
    if !ok { return; }
    ok := AppendOption(w, fs + o1 + o2 + o3, KeyHint, o.deviceHint, o5 + o6);
    if !ok { return; }
    ok := AppendOption(w, fs + o1 + o2 + o3 + o4, KeyPreference, o.preference, o6);
    if !ok { return; }
    ok := AppendOption(w, fs + o1 + o2 + o3 + o4 + o5, KeySequence, o.sequence, []);
  }

  lemma Regroup(fs: seq<Field>, o1: seq<Field>, o2: seq<Field>, o3: seq<Field>, o4: seq<Field>, o5: seq<Field>, o6: seq<Field>)
    ensures var all := fs + (o1 + o2 + o3 + o4 + o5 + o6);
      && all == fs + (o1 + (o2 + o3 + o4 + o5 + o6))
      && all == fs + o1 + (o2 + (o3 + o4 + o5 + o6))
      && all == fs + o1 + o2 + (o3 + (o4 + o5 + o6))
      && all == fs + o1 + o2 + o3 + (o4 + (o5 + o6))
      && all == fs + o1 + o2 + o3 + o4 + (o5 + o6)
      && all == fs + o1 + o2 + o3 + o4 + o5 + (o6 + [])
      && all == fs + o1 + o2 + o3 + o4 + o5 + o6
  {
  }

  /** `build_json`: the message and a line break, or an error that says why not. */
  method BuildJson(domain: string, action: string, algId: nat, o: Options, w: Json.Writer) returns (st: ClientStatus)
    requires w.Valid() && w.pos == 0
    modifies w`pos, w.buf
    ensures w.Valid()
    ensures st.InvalidArgument? <==> o.requestId == ""
    ensures st.UnsupportedAlgorithm? <==> o.requestId != "" && AlgorithmName(algId).None?
    ensures o.requestId != "" && AlgorithmName(algId).Some? ==>
      var message := Message(Fields(domain, action, AlgorithmName(algId).value, o));
      && (st.CcmOk? <==> |message| + 1 < w.buf.Length)
      && (st.CcmOk? ==> w.Text() == message + "\n")
  {
    if o.requestId == "" { return InvalidArgument; }
    var name := AlgorithmName(algId);
    if name.None? { return UnsupportedAlgorithm; }
    ghost var head, fs := HeadFields(domain, action, name.value, o), Fields(domain, action, name.value, o);
    assert Message(fs) == Opened(fs) + "}";
    assert Message(fs) + "\n" == Opened(fs) + "}\n";
    var ok := AppendHead(w, domain, action, name.value, o, OptionFields(o));
    if !ok { return BufferTooSmall; }
    ok := AppendOptions(w, o, head);
    if !ok { return BufferTooSmall; }
    ghost var was := w.Text();
    assert |was| == w.pos;
    ok := w.AppendRaw("}\n");
    return if ok then CcmOk else BufferTooSmall;
  }
}
