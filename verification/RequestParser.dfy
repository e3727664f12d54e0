/** The server's reader of request lines (src/server/gateway/protocol.c:178-283): a field finder
    built on `strstr` that neither tokenizes JSON nor undoes its escapes. */
module RequestParser {
  import opened Common
  import opened CStrings
  import opened Names

  /** Results of `extract_json_string`: 0, -1 and -2. */
  datatype Extracted = Value(text: string) | Missing | TooLong

  const QUOTE: string := "\""

  function Needle(key: string): string { Clip(QUOTE + key + QUOTE, 128) }

  function SkipSpace(s: string): string {
    if s != "" && IsSpace(s[0]) then SkipSpace(s[1..]) else s
  }

  /** Reads up to the closing quote into a buffer of `size` bytes. */
  function ReadQuoted(s: string, size: nat): Extracted {
    var n := Span(s, '"');
    if n >= size then TooLong
    else if n < |s| then Value(s[..n])
    else Missing
  }

  /** What follows the key: a colon anywhere later, white space, then a quoted string. */
  function ReadValue(s: string, size: nat): Extracted {
    var colon := FindChar(s, ':', 0);
    if colon.None? then Missing
    else
      var t := SkipSpace(s[colon.value + 1..]);
      if t == "" || t[0] != '"' then Missing else ReadQuoted(t[1..], size)
  }

  /** What is read behind the `n` bytes that were found at `at`. */
  function ReadAt(json: string, at: Option<nat>, n: nat, size: nat): Extracted
    requires at.Some? ==> at.value + n <= |json|
  {
    if at.None? then Missing else ReadValue(json[at.value + n..], size)
  }

  function Extract(json: string, key: string, size: nat): Extracted {
    ReadAt(json, Find(json, Needle(key), 0), |Needle(key)|, size)
  }

  method ExtractJsonString(json: string, key: string, out: array<char>) returns (rc: int)
    requires out.Length > 0 && NulFree(json)
    modifies out
    ensures rc in {0, -1, -2}
    ensures rc == 0 <==> Extract(json, key, out.Length).Value?
    ensures rc == -2 <==> Extract(json, key, out.Length).TooLong?
    ensures rc == 0 ==> Extract(json, key, out.Length) == Value(CStr(out[..]))
  {
    var needle := Needle(key);
    var at := Find(json, needle, 0);
    if at.None? { return -1; }
    NulFreeSuffix(json, at.value + |needle|);
    rc := ReadValueInto(json[at.value + |needle|..], out);
  }

  lemma NulFreeSuffix(s: string, i: nat)
    requires NulFree(s) && i <= |s|
    ensures NulFree(s[i..])
  {
    assert forall c :: c in s[i..] ==> c in s;
  }

  /** `extract_json_string` from behind the key on. */
  method ReadValueInto(s: string, out: array<char>) returns (rc: int)
    requires out.Length > 0 && NulFree(s)
    modifies out
    ensures rc in {0, -1, -2}
    ensures rc == 0 <==> ReadValue(s, out.Length).Value?
    ensures rc == -2 <==> ReadValue(s, out.Length).TooLong?
    ensures rc == 0 ==> ReadValue(s, out.Length) == Value(CStr(out[..]))
  {
    var colon := FindChar(s, ':', 0);
    if colon.None? { return -1; }
    var p := colon.value + 1;
    while p < |s| && IsSpace(s[p])
      invariant 0 <= p <= |s|
      invariant SkipSpace(s[p..]) == SkipSpace(s[colon.value + 1..])
    {
      assert s[p..][1..] == s[p + 1..];
      p := p + 1;
    }
    assert SkipSpace(s[p..]) == s[p..];
    if p == |s| || s[p] != '"' { return -1; }
    assert s[p..][1..] == s[p + 1..];
    NulFreeSuffix(s, p + 1);
    rc := CopyQuoted(s[p + 1..], out);
  }

  /** The copying loop of `extract_json_string`. */
  method CopyQuoted(rest: string, out: array<char>) returns (rc: int)
    requires out.Length > 0
    modifies out
    ensures rc in {0, -1, -2}
    ensures rc == 0 <==> ReadQuoted(rest, out.Length).Value?
    ensures rc == -2 <==> ReadQuoted(rest, out.Length).TooLong?
    ensures rc == 0 && NulFree(rest) ==> ReadQuoted(rest, out.Length) == Value(CStr(out[..]))
  {
    var i := 0;
    while i < |rest| && rest[i] != '"'
      invariant 0 <= i <= |rest| && i < out.Length
      invariant out[..i] == rest[..i]
      invariant forall k :: 0 <= k < i ==> rest[k] != '"'
    {
      if i + 1 >= out.Length {
        assert Span(rest, '"') > i;
        return -2;
      }
      out[i] := rest[i];
      i := i + 1;
    }
    SpanIs(rest, i);
    if i == |rest| { return -1; }
    ghost var text := rest[..i];
    out[i] := '\0';
    assert out[..i] == text;
    if NulFree(rest) {
      assert NulFree(text);
      CStrIs(text, out[..]);
    }
    return 0;
  }

  lemma SpanIs(s: string, n: nat)
    requires n <= |s| && (n < |s| ==> s[n] == '"')
    requires forall k :: 0 <= k < n ==> s[k] != '"'
    ensures Span(s, '"') == n
  {
    assert s == s[..n] + s[n..];
    SpanOf(s[..n], '"', s[n..]);
  }

  // ------------------------------------------------------------- whole requests

  datatype Key =
    | KeyRequestId | KeyDomain | KeyAction | KeyAlgorithm | KeyKeyRef | KeyPayload | KeyAux
    | KeyHint | KeyPin | KeyPreference | KeySequence

  function KeyName(k: Key): string {
    match k
    case KeyRequestId => "request_id"
    case KeyDomain => "domain"
    case KeyAction => "action"
    case KeyAlgorithm => "algorithm"
    case KeyKeyRef => "key_ref"
    case KeyPayload => "payload"
    case KeyAux => "aux_payload"
    case KeyHint => "device_hint"
    case KeyPin => "user_pin"
    case KeyPreference => "preference"
    case KeySequence => "sequence"
  }

  /** The size of the buffer a field is read into. */
  function KeySize(k: Key): nat {
    match k
    case KeyRequestId => MAX_ID_LEN
    case KeyPayload => MAX_PAYLOAD_LEN
    case KeyAux => MAX_PAYLOAD_LEN
    case KeySequence => MAX_PAYLOAD_LEN
    case _ => MAX_FIELD_LEN
  }

  function Get(json: string, k: Key): Extracted { Extract(json, KeyName(k), KeySize(k)) }

  datatype ParseError = NoRequestId | NoDomain | NoAction | UnknownDomain | UnknownAction | BadAlgorithm

  datatype Parse = Parsed(request: Request) | Rejected(error: ParseError)

  function DefaultAlgorithm(action: Action): string {
    if action == ActionHash then "sm3" else "auto"
  }

  /** An optional field: what was found, or the empty string. */
  function OrEmpty(x: Extracted): string { if x.Value? then x.text else "" }

  function DomainOf(x: Extracted): Domain { if x.Value? then ParseDomain(x.text) else DomainUnknown }

  function ActionOf(x: Extracted): Action { if x.Value? then ParseAction(x.text) else ActionUnknown }

  function AlgorithmOf(x: Extracted, action: Action): Option<string> {
    Normalize(if x.Value? then x.text else DefaultAlgorithm(action), MAX_FIELD_LEN)
  }

  /** The checks, in their order, on what the fields mean. */
  function Build(id: Extracted, hasDomain: bool, hasAction: bool, domain: Domain, action: Action, algorithm: Option<string>,
                 keyRef: string, payload: string, aux: string, hint: string, pin: string, pref: Preference, sequence: string): Parse
  {
    if !id.Value? then Rejected(NoRequestId)
    else if !hasDomain then Rejected(NoDomain)
    else if !hasAction then Rejected(NoAction)
    else if domain == DomainUnknown then Rejected(UnknownDomain)
    else if action == ActionUnknown then Rejected(UnknownAction)
    else if algorithm.None? then Rejected(BadAlgorithm)
    else Parsed(Request(id.text, domain, action, algorithm.value, keyRef, payload, aux, hint, pin, pref, sequence))
  }

  /** The request made of the eleven extraction results. */
  function Assemble(id: Extracted, dom: Extracted, act: Extracted, alg: Extracted, keyRef: Extracted,
                    payload: Extracted, aux: Extracted, hint: Extracted, pin: Extracted,
                    pref: Extracted, sequence: Extracted): Parse
  {
    Build(id, dom.Value?, act.Value?, DomainOf(dom), ActionOf(act), AlgorithmOf(alg, ActionOf(act)), OrEmpty(keyRef),
          OrEmpty(payload), OrEmpty(aux), OrEmpty(hint), OrEmpty(pin), ParsePreference(OrEmpty(pref)), OrEmpty(sequence))
  }

  function ParseRequest(json: string): Parse {
    Assemble(Get(json, KeyRequestId), Get(json, KeyDomain), Get(json, KeyAction), Get(json, KeyAlgorithm),
             Get(json, KeyKeyRef), Get(json, KeyPayload), Get(json, KeyAux), Get(json, KeyHint),
             Get(json, KeyPin), Get(json, KeyPreference), Get(json, KeySequence))
  }

  /** A request without an algorithm, or with one that is too long, is one for SM3 if it hashes, and
      otherwise leaves the algorithm to the device. */
  lemma DefaultedByAction(json: string, r: Request)
    requires ParseRequest(json) == Parsed(r) && !Get(json, KeyAlgorithm).Value?
    ensures r.algorithm == if r.action == ActionHash then "sm3" else "auto"
  {
    AssembledDefault(Get(json, KeyRequestId), Get(json, KeyDomain), Get(json, KeyAction), Get(json, KeyAlgorithm),
                     Get(json, KeyKeyRef), Get(json, KeyPayload), Get(json, KeyAux), Get(json, KeyHint),
                     Get(json, KeyPin), Get(json, KeyPreference), Get(json, KeySequence), r);
  }

  lemma AssembledDefault(id: Extracted, dom: Extracted, act: Extracted, alg: Extracted, keyRef: Extracted, payload: Extracted,
                         aux: Extracted, hint: Extracted, pin: Extracted, pref: Extracted, sequence: Extracted, r: Request)
    requires Assemble(id, dom, act, alg, keyRef, payload, aux, hint, pin, pref, sequence) == Parsed(r) && !alg.Value?
    ensures r.algorithm == if r.action == ActionHash then "sm3" else "auto"
  {
    BuiltFrom(id, dom.Value?, act.Value?, DomainOf(dom), ActionOf(act), AlgorithmOf(alg, ActionOf(act)), OrEmpty(keyRef),
              OrEmpty(payload), OrEmpty(aux), OrEmpty(hint), OrEmpty(pin), ParsePreference(OrEmpty(pref)), OrEmpty(sequence), r);
    DefaultIsNormal(alg, r.action);
  }

  lemma BuiltFrom(id: Extracted, hasDomain: bool, hasAction: bool, domain: Domain, action: Action, algorithm: Option<string>,
                  keyRef: string, payload: string, aux: string, hint: string, pin: string, pref: Preference, sequence: string,
                  r: Request)
    requires Build(id, hasDomain, hasAction, domain, action, algorithm, keyRef, payload, aux, hint, pin, pref, sequence) == Parsed(r)
    ensures id == Value(r.requestId) && hasDomain && hasAction && algorithm == Some(r.algorithm)
    ensures r.domain == domain != DomainUnknown && r.action == action != ActionUnknown
    ensures r.keyRef == keyRef && r.payload == payload && r.auxPayload == aux && r.deviceHint == hint && r.userPin == pin
    ensures r.preference == pref && r.sequence == sequence
  {
  }

  lemma DefaultIsNormal(x: Extracted, action: Action)
    requires !x.Value?
    ensures AlgorithmOf(x, action) == Some(if action == ActionHash then "sm3" else "auto")
  {
    var n := DefaultAlgorithm(action);
    if action == ActionHash { Sm3IsNormal(n); } else { AutoIsNormal(n); }
    NormalNameStays(n);
  }

  lemma Sm3IsNormal(n: string)
    requires n == "sm3"
    ensures IsNormal(n)
  {
  }

  lemma AutoIsNormal(n: string)
    requires n == "auto"
    ensures IsNormal(n)
  {
  }

  /** An optional field holds what was found, or nothing. */
  predicate TakenFrom(x: Extracted, text: string) { if x.Value? then text == x.text else text == "" }

  /** The mandatory fields and the preference of a request, and what was found for them. */
  predicate HeadTaken(id: Extracted, dom: Extracted, act: Extracted, alg: Extracted, pref: Extracted, r: Request) {
    && id == Value(r.requestId)
    && dom.Value? && ParseDomain(dom.text) == r.domain != DomainUnknown
    && act.Value? && ParseAction(act.text) == r.action != ActionUnknown
    && (alg.Value? ==> Normalize(alg.text, 256) == Some(r.algorithm))
    && r.preference == if pref.Value? then ParsePreference(pref.text) else PrefBalanced
  }

  /** Every field of an accepted request is what was found under its own name. */
  lemma AcceptedFields(json: string, r: Request)
    requires ParseRequest(json) == Parsed(r)
    ensures HeadTaken(Get(json, KeyRequestId), Get(json, KeyDomain), Get(json, KeyAction), Get(json, KeyAlgorithm),
                      Get(json, KeyPreference), r)
    ensures TakenFrom(Get(json, KeyKeyRef), r.keyRef) && TakenFrom(Get(json, KeyPayload), r.payload)
    ensures TakenFrom(Get(json, KeyAux), r.auxPayload) && TakenFrom(Get(json, KeyHint), r.deviceHint)
    ensures TakenFrom(Get(json, KeyPin), r.userPin) && TakenFrom(Get(json, KeySequence), r.sequence)
  {
    AssembledFields(Get(json, KeyRequestId), Get(json, KeyDomain), Get(json, KeyAction), Get(json, KeyAlgorithm),
                    Get(json, KeyKeyRef), Get(json, KeyPayload), Get(json, KeyAux), Get(json, KeyHint),
                    Get(json, KeyPin), Get(json, KeyPreference), Get(json, KeySequence), r);
  }

  lemma AssembledFields(id: Extracted, dom: Extracted, act: Extracted, alg: Extracted, keyRef: Extracted, payload: Extracted,
                        aux: Extracted, hint: Extracted, pin: Extracted, pref: Extracted, sequence: Extracted, r: Request)
    requires Assemble(id, dom, act, alg, keyRef, payload, aux, hint, pin, pref, sequence) == Parsed(r)
    ensures HeadTaken(id, dom, act, alg, pref, r)
    ensures TakenFrom(keyRef, r.keyRef) && TakenFrom(payload, r.payload) && TakenFrom(aux, r.auxPayload)
    ensures TakenFrom(hint, r.deviceHint) && TakenFrom(pin, r.userPin) && TakenFrom(sequence, r.sequence)
  {
    BuiltFrom(id, dom.Value?, act.Value?, DomainOf(dom), ActionOf(act), AlgorithmOf(alg, ActionOf(act)), OrEmpty(keyRef),
              OrEmpty(payload), OrEmpty(aux), OrEmpty(hint), OrEmpty(pin), ParsePreference(OrEmpty(pref)), OrEmpty(sequence), r);
    PreferenceTaken(pref);
    if alg.Value? { AlgorithmTaken(alg, ActionOf(act)); }
  }

  lemma AlgorithmTaken(alg: Extracted, action: Action)
    requires alg.Value?
    ensures AlgorithmOf(alg, action) == Normalize(alg.text, 256)
  {
  }

  lemma PreferenceTaken(pref: Extracted)
    ensures ParsePreference(OrEmpty(pref)) == if pref.Value? then ParsePreference(pref.text) else PrefBalanced
  {
    NoPreference();
  }

  lemma NoPreference()
    ensures ParsePreference("") == PrefBalanced
  {
    assert Squash("") == "";
  }

  /** Why a request is rejected, in the order of the checks. */
  lemma RejectedIff(json: string)
    ensures var id, dom, act, alg := Get(json, KeyRequestId), Get(json, KeyDomain), Get(json, KeyAction), Get(json, KeyAlgorithm);
      var known := id.Value? && dom.Value? && act.Value?;
      && (ParseRequest(json) == Rejected(NoRequestId) <==> !id.Value?)
      && (ParseRequest(json) == Rejected(NoDomain) <==> id.Value? && !dom.Value?)
      && (ParseRequest(json) == Rejected(NoAction) <==> id.Value? && dom.Value? && !act.Value?)
      && (ParseRequest(json) == Rejected(UnknownDomain) <==> known && ParseDomain(dom.text) == DomainUnknown)
      && (ParseRequest(json) == Rejected(UnknownAction) <==>
            known && ParseDomain(dom.text) != DomainUnknown && ParseAction(act.text) == ActionUnknown)
      && (ParseRequest(json) == Rejected(BadAlgorithm) <==>
            known && ParseDomain(dom.text) != DomainUnknown && ParseAction(act.text) != ActionUnknown
            && alg.Value? && Normalize(alg.text, 256).None?)
  {
    var act, alg := Get(json, KeyAction), Get(json, KeyAlgorithm);
    if !alg.Value? { DefaultIsNormal(alg, ActionOf(act)); }
  }

  lemma FieldSizes()
    ensures KeySize(KeyRequestId) == 64
    ensures KeySize(KeyPayload) == KeySize(KeyAux) == KeySize(KeySequence) == 1024
    ensures forall k :: k in {KeyDomain, KeyAction, KeyAlgorithm, KeyKeyRef, KeyHint, KeyPin, KeyPreference} ==> KeySize(k) == 256
  {
  }

  /** The names on the wire. */
  lemma KeyWords()
    ensures KeyName(KeyRequestId) == "request_id" && KeyName(KeyDomain) == "domain" && KeyName(KeyAction) == "action"
    ensures KeyName(KeyAlgorithm) == "algorithm" && KeyName(KeyKeyRef) == "key_ref" && KeyName(KeyPayload) == "payload"
    ensures KeyName(KeyAux) == "aux_payload" && KeyName(KeyHint) == "device_hint" && KeyName(KeyPin) == "user_pin"
    ensures KeyName(KeyPreference) == "preference" && KeyName(KeySequence) == "sequence"
  {
  }

  // ------------------------------------------------------------- members as people write them

  /** White space only. */
  predicate Blank(s: string) { forall i :: 0 <= i < |s| ==> IsWhite(s[i]) }

  lemma {:induction false} BlankIsSkipped(s: string, rest: string)
    requires Blank(s) && (rest == "" || !IsWhite(rest[0]))
    ensures SkipSpace(s + rest) == rest
  {
    if s == "" {
      assert "" + rest == rest;
      if rest != "" { FoldsOne(rest[0], rest[0]); }
    } else {
      assert (s + rest)[1..] == s[1..] + rest;
      FoldsOne(s[0], s[0]);
      BlankIsSkipped(s[1..], rest);
    }
  }

  /** Behind a member's name the value is read across any white space around the colon, up to its quote. */
  lemma SpacedValueIsRead(before: string, after: string, v: string, rest: string, size: nat)
    requires Blank(before) && Blank(after) && '"' !in v && |v| < size
    ensures ReadValue(before + (":" + (after + ("\"" + (v + ("\"" + rest))))), size) == Value(v)
  {
    var tail := "\"" + (v + ("\"" + rest));
    var s := before + (":" + (after + tail));
    forall i | 0 <= i < |before| ensures s[i] != ':' { assert IsWhite(before[i]); }
    assert s[|before|] == ':';
    FindCharFirst(s, |before|);
    assert s[|before| + 1..] == after + tail;
    BlankIsSkipped(after, tail);
    SpanOf(v, '"', "\"" + rest);
    assert tail[1..] == v + ("\"" + rest) && (v + ("\"" + rest))[..|v|] == v;
  }

  lemma FindCharFirst(s: string, k: nat)
    requires k < |s| && s[k] == ':' && forall i :: 0 <= i < k ==> s[i] != ':'
    ensures FindChar(s, ':', 0) == Some(k)
  {
    FindCharIs(s, ':', 0, k);
  }

  /** One `extract_json_string` call into a buffer of the field's size. */
  method GetField(json: string, k: Key) returns (x: Extracted)
    requires NulFree(json)
    ensures x == Get(json, k)
  {
    var out := new char[KeySize(k)];
    var rc := ExtractJsonString(json, KeyName(k), out);
    return if rc == 0 then Value(CStr(out[..])) else if rc == -2 then TooLong else Missing;
  }

  method ParseRequestJson(json: string) returns (r: Parse)
    requires NulFree(json)
    ensures r == ParseRequest(json)
  {
    var id := GetField(json, KeyRequestId);
    if !id.Value? { return Rejected(NoRequestId); }
    var dom := GetField(json, KeyDomain);
    if !dom.Value? { return Rejected(NoDomain); }
    var act := GetField(json, KeyAction);
    if !act.Value? { return Rejected(NoAction); }
    var alg := GetField(json, KeyAlgorithm);
    if !alg.Value? { alg := Value(DefaultAlgorithm(ParseAction(act.text))); }
    var keyRef := GetField(json, KeyKeyRef);
    var payload := GetField(json, KeyPayload);
    var aux := GetField(json, KeyAux);
    var hint := GetField(json, KeyHint);
    var pin := GetField(json, KeyPin);
    var pref := GetField(json, KeyPreference);
    var sequence := GetField(json, KeySequence);
    if ParseDomain(dom.text) == DomainUnknown { return Rejected(UnknownDomain); }
    if ParseAction(act.text) == ActionUnknown { return Rejected(UnknownAction); }
    var normal := Normalize(alg.text, MAX_FIELD_LEN);
    if normal.None? { return Rejected(BadAlgorithm); }
    return Parsed(Request(
      id.text, ParseDomain(dom.text), ParseAction(act.text), normal.value, OrEmpty(keyRef), OrEmpty(payload),
      OrEmpty(aux), OrEmpty(hint), OrEmpty(pin), ParsePreference(OrEmpty(pref)), OrEmpty(sequence)));
  }
}
