/** The request round trip: what a client builds and sends is what the server parses. */
module RequestRoundTrip {
  import opened Common
  import opened CStrings
  import opened Names
  import opened RequestParser
  import opened RequestCodec
  import opened FieldFinder
  import Json

  // ------------------------------------------------------------- the eleven field names

  function KeyCode(k: Key): int {
    match k
    case KeyRequestId => 10342
    case KeyDomain => 6306
    case KeyAction => 6318
    case KeyAlgorithm => 9314
    case KeyKeyRef => 7323
    case KeyPayload => 7341
    case KeyAux => 11314
    case KeyHint => 11319
    case KeyPin => 8313
    case KeyPreference => 10327
    case KeySequence => 8329
  }

  lemma KeyFingerprint(k: Key)
    ensures Fingerprint(KeyName(k)) == KeyCode(k)
  {
  }

  lemma KeysAreNames1()
    ensures IsName(KeyName(KeyRequestId)) && IsName(KeyName(KeyDomain)) && IsName(KeyName(KeyAction))
    ensures IsName(KeyName(KeyAlgorithm)) && IsName(KeyName(KeyKeyRef))
  {
  }

  lemma KeysAreNames2()
    ensures IsName(KeyName(KeyPayload)) && IsName(KeyName(KeyAux)) && IsName(KeyName(KeyHint))
    ensures IsName(KeyName(KeyPin)) && IsName(KeyName(KeyPreference)) && IsName(KeyName(KeySequence))
  {
  }

  lemma KeysAreNames(k: Key)
    ensures IsName(KeyName(k))
  {
    KeysAreNames1();
    KeysAreNames2();
  }

  lemma KeyNamesDistinct(a: Key, b: Key)
    ensures KeyName(a) == KeyName(b) <==> a == b
  {
    KeyFingerprint(a);
    KeyFingerprint(b);
  }

  /** The value is not the text of a field name. */
  ghost predicate NotAName(v: string) { forall k: Key :: v != KeyName(k) }

  /** A value that survives the trip: nothing to escape and not a field name. */
  ghost predicate Sendable(v: string) { Json.Clean(v) && NotAName(v) }

  ghost predicate AllSendable(fs: seq<Field>) {
    forall i :: 0 <= i < |fs| ==> Sendable(fs[i].value)
  }

  function ByKey(fs: seq<Field>, k: Key): Option<string> {
    if fs == [] then None else if fs[0].key == k then Some(fs[0].value) else ByKey(fs[1..], k)
  }

  lemma {:induction false} LookupIsByKey(fs: seq<Field>, k: Key)
    requires AllSendable(fs)
    ensures Lookup(fs, KeyName(k)) == ByKey(fs, k)
  {
    if fs != [] {
      var f := fs[0];
      assert Sendable(f.value);
      KeyNamesDistinct(f.key, k);
      Json.EscapeIsIdentity(f.value);
      assert forall i :: 0 <= i < |fs[1..]| ==> fs[1..][i] == fs[i + 1];
      LookupIsByKey(fs[1..], k);
    }
  }

  lemma SendableIsQuoteFree(fs: seq<Field>)
    requires AllSendable(fs)
    ensures QuoteFree(fs)
  {
    forall i | 0 <= i < |fs| ensures '"' !in fs[i].value && IsName(Name(fs[i])) {
      assert Sendable(fs[i].value);
      KeysAreNames(fs[i].key);
    }
  }

  lemma {:induction false} ByKeyConcat(a: seq<Field>, b: seq<Field>, k: Key)
    ensures ByKey(a + b, k) == if ByKey(a, k).Some? then ByKey(a, k) else ByKey(b, k)
  {
    if a == [] {
      assert a + b == b;
    } else {
      assert (a + b)[1..] == a[1..] + b;
      ByKeyConcat(a[1..], b, k);
    }
  }

  /** The value that an options record gives a key. */
  function OptionValue(o: Options, k: Key): string {
    match k
    case KeyKeyRef => o.keyRef
    case KeyPayload => o.payload
    case KeyAux => o.auxPayload
    case KeyHint => o.deviceHint
    case KeyPreference => o.preference
    case KeySequence => o.sequence
    case _ => ""
  }

  lemma OptionByKey(o: Options, k: Key)
    ensures ByKey(OptionFields(o), k) == if OptionValue(o, k) == "" then None else Some(OptionValue(o, k))
  {
    var o1, o2, o3 := Optional(KeyKeyRef, o.keyRef), Optional(KeyPayload, o.payload), Optional(KeyAux, o.auxPayload);
    var o4, o5, o6 := Optional(KeyHint, o.deviceHint), Optional(KeyPreference, o.preference), Optional(KeySequence, o.sequence);
    ByKeyOfSix(o1, o2, o3, o4, o5, o6, k);
  }

  function OrElse(a: Option<string>, b: Option<string>): Option<string> { if a.Some? then a else b }

  lemma ByKeyOfSix(a: seq<Field>, b: seq<Field>, c: seq<Field>, d: seq<Field>, e: seq<Field>, f: seq<Field>, k: Key)
    ensures ByKey(a + b + c + d + e + f, k) ==
      OrElse(OrElse(OrElse(ByKey(a, k), ByKey(b, k)), ByKey(c, k)), OrElse(OrElse(ByKey(d, k), ByKey(e, k)), ByKey(f, k)))
  {
    ByKeyOfThree(a, b, c, k);
    ByKeyOfThree(d, e, f, k);
    ByKeyConcat(a + b + c, d + e + f, k);
    Flatten(a + b + c, d, e, f);
  }

  lemma Flatten(abc: seq<Field>, d: seq<Field>, e: seq<Field>, f: seq<Field>)
    ensures abc + (d + e + f) == abc + d + e + f
  {
  }

  lemma ByKeyOfThree(a: seq<Field>, b: seq<Field>, c: seq<Field>, k: Key)
    ensures ByKey(a + b + c, k) == OrElse(OrElse(ByKey(a, k), ByKey(b, k)), ByKey(c, k))
  {
    ByKeyConcat(a + b, c, k);
    ByKeyConcat(a, b, k);
  }

  ghost predicate OptionsSendable(o: Options) {
    && Sendable(o.requestId) && Sendable(o.keyRef) && Sendable(o.payload) && Sendable(o.auxPayload)
    && Sendable(o.deviceHint) && Sendable(o.preference) && Sendable(o.sequence)
  }

  lemma FieldsSendable(domain: string, action: string, algorithm: string, o: Options)
    requires Sendable(domain) && Sendable(action) && Sendable(algorithm) && OptionsSendable(o)
    ensures AllSendable(Fields(domain, action, algorithm, o))
  {
    ConcatSendable(HeadFields(domain, action, algorithm, o), OptionFields(o));
    var o1, o2, o3 := Optional(KeyKeyRef, o.keyRef), Optional(KeyPayload, o.payload), Optional(KeyAux, o.auxPayload);
    var o4, o5, o6 := Optional(KeyHint, o.deviceHint), Optional(KeyPreference, o.preference), Optional(KeySequence, o.sequence);
    ConcatSendable(o1, o2);
    ConcatSendable(o1 + o2, o3);
    ConcatSendable(o1 + o2 + o3, o4);
    ConcatSendable(o1 + o2 + o3 + o4, o5);
    ConcatSendable(o1 + o2 + o3 + o4 + o5, o6);
  }

  lemma ConcatSendable(a: seq<Field>, b: seq<Field>)
    ensures AllSendable(a) && AllSendable(b) ==> AllSendable(a + b)
  {
  }

  /** What reaches the server of an optional value: all of it, or nothing when it does not fit. */
  function Kept(v: string, size: nat): string { if |v| < size then v else "" }

  /** What extraction should find under a key. */
  function Expected(domain: string, action: string, algorithm: string, o: Options, k: Key): Extracted {
    match k
    case KeyRequestId => Sized(Some(o.requestId), MAX_ID_LEN)
    case KeyDomain => Sized(Some(domain), MAX_FIELD_LEN)
    case KeyAction => Sized(Some(action), MAX_FIELD_LEN)
    case KeyAlgorithm => Sized(Some(algorithm), MAX_FIELD_LEN)
    case _ => Sized(if OptionValue(o, k) == "" then None else Some(OptionValue(o, k)), KeySize(k))
  }

  lemma GetFromMessage(domain: string, action: string, algorithm: string, o: Options, k: Key)
    requires Sendable(domain) && Sendable(action) && Sendable(algorithm) && OptionsSendable(o)
    ensures Get(Message(Fields(domain, action, algorithm, o)), k) == Expected(domain, action, algorithm, o, k)
  {
    var fs := Fields(domain, action, algorithm, o);
    FieldsSendable(domain, action, algorithm, o);
    SendableIsQuoteFree(fs);
    KeysAreNames(k);
    FinderIsLookup(fs, KeyName(k), KeySize(k));
    LookupIsByKey(fs, k);
    ByKeyConcat(HeadFields(domain, action, algorithm, o), OptionFields(o), k);
    OptionByKey(o, k);
    HeadByKey(domain, action, algorithm, o, k);
  }

  lemma HeadByKey(domain: string, action: string, algorithm: string, o: Options, k: Key)
    ensures ByKey(HeadFields(domain, action, algorithm, o), k) == match k {
        case KeyRequestId => Some(o.requestId)
        case KeyDomain => Some(domain)
        case KeyAction => Some(action)
        case KeyAlgorithm => Some(algorithm)
        case _ => None
      }
  {
    var h := HeadFields(domain, action, algorithm, o);
    assert h == [h[0]] + ([h[1]] + ([h[2]] + [h[3]]));
    ByKeyConcat([h[0]], [h[1]] + ([h[2]] + [h[3]]), k);
    ByKeyConcat([h[1]], [h[2]] + [h[3]], k);
    ByKeyConcat([h[2]], [h[3]], k);
  }

  // ------------------------------------------------------------- algorithm names are normal forms

  predicate NameChar(c: char) { 'a' <= c <= 'z' || '0' <= c <= '9' || c == '-' }

  predicate AlgorithmEntry(n: string, code: int) {
    && (forall i :: 0 <= i < |n| ==> NameChar(n[i]))
    && 0 < |n| < 16 && Fingerprint(n) == code && (|n| == 9 ==> n[5] != '-')
  }

  const ALGORITHM_CODES: seq<int> :=
    [4329, 3274, 3274, 3274, 3326, 3326, 3326, 3275, 6262, 7212, 7212,
     7212, 7257, 7257, 8319, 8319, 9319, 8325, 10312, 10312, 10312, 3281]

  lemma AlgorithmEntries0()
    ensures AlgorithmEntry(ALGORITHM_NAMES[0], 4329)
    ensures AlgorithmEntry(ALGORITHM_NAMES[1], 3274)
    ensures AlgorithmEntry(ALGORITHM_NAMES[2], 3274)
    ensures AlgorithmEntry(ALGORITHM_NAMES[3], 3274)
    ensures AlgorithmEntry(ALGORITHM_NAMES[4], 3326)
  {
  }

  lemma AlgorithmEntries1()
    ensures AlgorithmEntry(ALGORITHM_NAMES[5], 3326)
    ensures AlgorithmEntry(ALGORITHM_NAMES[6], 3326)
    ensures AlgorithmEntry(ALGORITHM_NAMES[7], 3275)
    ensures AlgorithmEntry(ALGORITHM_NAMES[8], 6262)
    ensures AlgorithmEntry(ALGORITHM_NAMES[9], 7212)
  {
  }

  lemma AlgorithmEntries2()
    ensures AlgorithmEntry(ALGORITHM_NAMES[10], 7212)
    ensures AlgorithmEntry(ALGORITHM_NAMES[11], 7212)
    ensures AlgorithmEntry(ALGORITHM_NAMES[12], 7257)
  {
  }

  lemma AlgorithmEntries3()
    ensures AlgorithmEntry(ALGORITHM_NAMES[13], 7257)
    ensures AlgorithmEntry(ALGORITHM_NAMES[14], 8319)
    ensures AlgorithmEntry(ALGORITHM_NAMES[15], 8319)
  {
  }

  lemma AlgorithmEntries4()
    ensures AlgorithmEntry(ALGORITHM_NAMES[16], 9319)
    ensures AlgorithmEntry(ALGORITHM_NAMES[17], 8325)
  {
  }

  lemma AlgorithmEntries5()
    ensures AlgorithmEntry(ALGORITHM_NAMES[18], 10312)
    ensures AlgorithmEntry(ALGORITHM_NAMES[19], 10312)
    ensures AlgorithmEntry(ALGORITHM_NAMES[20], 10312)
    ensures AlgorithmEntry(ALGORITHM_NAMES[21], 3281)
  {
  }

  lemma AlgorithmEntryOf(id: nat)
    requires id < 22
    ensures |ALGORITHM_NAMES| == |ALGORITHM_CODES| == 22
    ensures AlgorithmEntry(ALGORITHM_NAMES[id], ALGORITHM_CODES[id])
  {
    if id < 5 { AlgorithmEntries0(); } else if id < 10 { AlgorithmEntries1(); } else if id < 13 { AlgorithmEntries2(); }
    else if id < 16 { AlgorithmEntries3(); } else if id < 18 { AlgorithmEntries4(); } else { AlgorithmEntries5(); }
  }

  predicate AliasCode(c: int) { c == 4330 || c == 5303 || c == 10263 || c == 5323 || c == 9324 || c == 11312 }

  lemma CanonicalUnless(n: string)
    ensures Canonical(n) == n || AliasCode(Fingerprint(n)) || (|n| == 9 && n[5] == '-')
  {
  }

  lemma CodesAreNotAliases(id: nat, k: Key)
    requires id < |ALGORITHM_CODES|
    ensures !AliasCode(ALGORITHM_CODES[id]) && ALGORITHM_CODES[id] != KeyCode(k)
  {
  }

  /** Every name of `CCM_AlgorithmName` travels unchanged and is its own normal form. */
  lemma AlgorithmNameTravels(id: nat)
    requires AlgorithmName(id).Some?
    ensures var n := AlgorithmName(id).value;
      Sendable(n) && 0 < |n| < 16 && Normalize(n, MAX_FIELD_LEN) == Some(n)
  {
    AlgorithmEntryOf(0);
    AlgorithmEntryOf(id);
    forall k: Key ensures !AliasCode(ALGORITHM_CODES[id]) && ALGORITHM_CODES[id] != KeyCode(k) {
      CodesAreNotAliases(id, k);
    }
    NormalEntry(ALGORITHM_NAMES[id], ALGORITHM_CODES[id]);
  }

  lemma NormalEntry(n: string, code: int)
    requires AlgorithmEntry(n, code) && !AliasCode(code) && forall k: Key :: code != KeyCode(k)
    ensures Sendable(n) && Normalize(n, MAX_FIELD_LEN) == Some(n)
  {
    forall k: Key ensures n != KeyName(k) { KeyFingerprint(k); }
    CanonicalUnless(n);
    SquashFixed(n);
  }

  // ------------------------------------------------------------- the round trip

  /** Options that do not fit the server's buffer are dropped, all others arrive as they were; with
      a request id, a domain and an action that fit, parsing the built message always succeeds. */
  lemma RoundTrip(domain: string, action: string, algId: nat, o: Options)
    requires AlgorithmName(algId).Some? && Sendable(domain) && Sendable(action) && OptionsSendable(o)
    requires |o.requestId| < MAX_ID_LEN && |domain| < MAX_FIELD_LEN && |action| < MAX_FIELD_LEN
    requires ParseDomain(domain) != DomainUnknown && ParseAction(action) != ActionUnknown
    ensures ParseRequest(Message(Fields(domain, action, AlgorithmName(algId).value, o)))
      == Parsed(Received(ParseDomain(domain), ParseAction(action), AlgorithmName(algId).value, o))
  {
    var name := AlgorithmName(algId).value;
    AlgorithmNameTravels(algId);
    GetAll(domain, action, name, o);
    AssembleRound(Message(Fields(domain, action, name, o)), domain, action, name, o);
  }

  /** The request that the server should see. */
  function Received(domain: Domain, action: Action, algorithm: string, o: Options): Request {
    Request(o.requestId, domain, action, algorithm,
      Kept(o.keyRef, MAX_FIELD_LEN), Kept(o.payload, MAX_PAYLOAD_LEN), Kept(o.auxPayload, MAX_PAYLOAD_LEN),
      Kept(o.deviceHint, MAX_FIELD_LEN), "", ParsePreference(Kept(o.preference, MAX_FIELD_LEN)),
      Kept(o.sequence, MAX_PAYLOAD_LEN))
  }

  /** Every extraction from the message finds what it should. */
  ghost predicate Carries(json: string, domain: string, action: string, name: string, o: Options) {
    forall k: Key :: Get(json, k) == Expected(domain, action, name, o, k)
  }

  lemma GetAll(domain: string, action: string, name: string, o: Options)
    requires Sendable(domain) && Sendable(action) && Sendable(name) && OptionsSendable(o)
    ensures Carries(Message(Fields(domain, action, name, o)), domain, action, name, o)
  {
    forall k: Key ensures Get(Message(Fields(domain, action, name, o)), k) == Expected(domain, action, name, o, k) {
      GetFromMessage(domain, action, name, o, k);
    }
  }

  lemma AssembleRound(json: string, domain: string, action: string, name: string, o: Options)
    requires Carries(json, domain, action, name, o)
    requires |o.requestId| < MAX_ID_LEN && |domain| < MAX_FIELD_LEN && |action| < MAX_FIELD_LEN && |name| < MAX_FIELD_LEN
    requires ParseDomain(domain) != DomainUnknown && ParseAction(action) != ActionUnknown
    requires Normalize(name, MAX_FIELD_LEN) == Some(name)
    ensures ParseRequest(json) == Parsed(Received(ParseDomain(domain), ParseAction(action), name, o))
  {
    OptionsArrive(json, domain, action, name, o);
    HeadArrives(json, domain, action, name, o);
    AssembleOf(domain, action, name, o, Get(json, KeyKeyRef), Get(json, KeyPayload), Get(json, KeyAux),
               Get(json, KeyHint), Get(json, KeyPin), Get(json, KeyPreference), Get(json, KeySequence));
  }

  lemma HeadArrives(json: string, domain: string, action: string, name: string, o: Options)
    requires Carries(json, domain, action, name, o)
    requires |o.requestId| < MAX_ID_LEN && |domain| < MAX_FIELD_LEN && |action| < MAX_FIELD_LEN && |name| < MAX_FIELD_LEN
    ensures Get(json, KeyRequestId) == Value(o.requestId) && Get(json, KeyDomain) == Value(domain)
    ensures Get(json, KeyAction) == Value(action) && Get(json, KeyAlgorithm) == Value(name)
  {
  }

  lemma OptionsArrive(json: string, domain: string, action: string, name: string, o: Options)
    requires Carries(json, domain, action, name, o)
    ensures OrEmpty(Get(json, KeyKeyRef)) == Kept(o.keyRef, MAX_FIELD_LEN)
    ensures OrEmpty(Get(json, KeyPayload)) == Kept(o.payload, MAX_PAYLOAD_LEN)
    ensures OrEmpty(Get(json, KeyAux)) == Kept(o.auxPayload, MAX_PAYLOAD_LEN)
    ensures OrEmpty(Get(json, KeyHint)) == Kept(o.deviceHint, MAX_FIELD_LEN)
    ensures OrEmpty(Get(json, KeyPin)) == ""
    ensures OrEmpty(Get(json, KeyPreference)) == Kept(o.preference, MAX_FIELD_LEN)
    ensures OrEmpty(Get(json, KeySequence)) == Kept(o.sequence, MAX_PAYLOAD_LEN)
  {
    OptionArrives(json, domain, action, name, o, KeyKeyRef);
    OptionArrives(json, domain, action, name, o, KeyPayload);
    OptionArrives(json, domain, action, name, o, KeyAux);
    OptionArrives(json, domain, action, name, o, KeyHint);
    OptionArrives(json, domain, action, name, o, KeyPin);
    OptionArrives(json, domain, action, name, o, KeyPreference);
    OptionArrives(json, domain, action, name, o, KeySequence);
  }

  lemma OptionArrives(json: string, domain: string, action: string, name: string, o: Options, k: Key)
    requires Get(json, k) == Expected(domain, action, name, o, k)
    requires !k.KeyRequestId? && !k.KeyDomain? && !k.KeyAction? && !k.KeyAlgorithm?
    ensures OrEmpty(Get(json, k)) == Kept(OptionValue(o, k), KeySize(k))
  {
  }

  lemma AssembleOf(domain: string, action: string, name: string, o: Options, keyRef: Extracted, payload: Extracted,
                   aux: Extracted, hint: Extracted, pin: Extracted, pref: Extracted, sequence: Extracted)
    requires ParseDomain(domain) != DomainUnknown && ParseAction(action) != ActionUnknown
    requires Normalize(name, MAX_FIELD_LEN) == Some(name)
    requires OrEmpty(keyRef) == Kept(o.keyRef, MAX_FIELD_LEN) && OrEmpty(payload) == Kept(o.payload, MAX_PAYLOAD_LEN)
    requires OrEmpty(aux) == Kept(o.auxPayload, MAX_PAYLOAD_LEN) && OrEmpty(hint) == Kept(o.deviceHint, MAX_FIELD_LEN)
    requires OrEmpty(pin) == "" && OrEmpty(pref) == Kept(o.preference, MAX_FIELD_LEN)
    requires OrEmpty(sequence) == Kept(o.sequence, MAX_PAYLOAD_LEN)
    ensures Assemble(Value(o.requestId), Value(domain), Value(action), Value(name),
                     keyRef, payload, aux, hint, pin, pref, sequence)
      == Parsed(Received(ParseDomain(domain), ParseAction(action), name, o))
  {
  }
}
