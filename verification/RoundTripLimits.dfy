/** Exactly when the request round trip holds: the server's finder takes a value that equals a field's
    name for that field, and does not undo escapes. */
module RoundTripLimits {
  import opened Common
  import opened CStrings
  import opened Names
  import opened RequestParser
  import opened RequestCodec
  import opened FieldFinder
  import opened RequestRoundTrip
  import Json

  // ------------------------------------------------------------- values that are taken for a field

  predicate AllClean(fs: seq<Field>) { forall i :: 0 <= i < |fs| ==> Json.Clean(fs[i].value) }

  /** The first field before that of `k` whose value is the name of `k`, if another field follows it. */
  function DecoyAt(fs: seq<Field>, k: Key): (r: Option<nat>)
    ensures r.Some? ==> r.value + 1 < |fs|
  {
    DecoyNamed(fs, k, KeyName(k))
  }

  function DecoyNamed(fs: seq<Field>, k: Key, name: string): (r: Option<nat>)
    ensures r.Some? ==> r.value + 1 < |fs|
  {
    if |fs| < 2 || fs[0].key == k then None
    else if fs[0].value == name then Some(0)
    else
      var d := DecoyNamed(fs[1..], k, name);
      if d.None? then None else Some(d.value + 1)
  }

  /** What that means field by field. */
  predicate IsDecoy(fs: seq<Field>, k: Key, name: string, i: nat) {
    && i + 1 < |fs| && fs[i].value == name
    && (forall j :: 0 <= j <= i ==> fs[j].key != k) && (forall j :: 0 <= j < i ==> fs[j].value != name)
  }

  lemma DecoyBehind(fs: seq<Field>, gs: seq<Field>, k: Key, name: string, i: nat)
    requires fs != [] && gs == fs[1..] && IsDecoy(fs, k, name, i + 1)
    ensures IsDecoy(gs, k, name, i)
  {
    assert forall j :: 0 <= j < |gs| ==> gs[j] == fs[j + 1];
  }

  lemma DecoyAhead(fs: seq<Field>, gs: seq<Field>, k: Key, name: string, i: nat)
    requires fs != [] && gs == fs[1..] && fs[0].key != k && fs[0].value != name && IsDecoy(gs, k, name, i)
    ensures IsDecoy(fs, k, name, i + 1)
  {
    forall j | 0 <= j <= i + 1 ensures fs[j].key != k && (j <= i ==> fs[j].value != name) {
      if j > 0 { assert fs[j] == gs[j - 1]; }
    }
    assert fs[i + 1] == gs[i];
  }

  lemma {:induction false} DecoyNamedIsFirst(fs: seq<Field>, k: Key, name: string, i: nat)
    ensures DecoyNamed(fs, k, name) == Some(i) <==> IsDecoy(fs, k, name, i)
  {
    if |fs| >= 2 && fs[0].key != k && fs[0].value != name && i > 0 {
      DecoyNamedIsFirst(fs[1..], k, name, i - 1);
      if IsDecoy(fs, k, name, i) { DecoyBehind(fs, fs[1..], k, name, i - 1); }
      if IsDecoy(fs[1..], k, name, i - 1) { DecoyAhead(fs, fs[1..], k, name, i - 1); }
    }
  }

  lemma DecoyIsFirst(fs: seq<Field>, k: Key, i: nat)
    ensures DecoyAt(fs, k) == Some(i) <==>
      (&& i + 1 < |fs| && fs[i].value == KeyName(k)
       && (forall j :: 0 <= j <= i ==> fs[j].key != k) && (forall j :: 0 <= j < i ==> fs[j].value != KeyName(k)))
  {
    DecoyNamedIsFirst(fs, k, KeyName(k), i);
  }

  /** What the finder reads for `k`: the value behind the decoy if there is one, else the field's own. */
  function Seen(fs: seq<Field>, k: Key): Option<string> {
    var d := DecoyAt(fs, k);
    if d.Some? then Some(fs[d.value + 1].value) else ByKey(fs, k)
  }

  lemma {:induction false} LookupIsSeen(fs: seq<Field>, k: Key)
    requires AllClean(fs)
    ensures Lookup(fs, KeyName(k)) == Seen(fs, k)
  {
    if fs != [] {
      KeyNamesDistinct(fs[0].key, k);
      Json.EscapeIsIdentity(fs[0].value);
      var gs := fs[1..];
      assert forall j :: 0 <= j < |gs| ==> gs[j] == fs[j + 1];
      if fs[0].key == k {
        assert DecoyAt(fs, k) == None;
      } else if fs[0].value == KeyName(k) {
        if |fs| > 1 { Json.EscapeIsIdentity(fs[1].value); } else { assert ByKey(gs, k) == None; }
      } else {
        LookupIsSeen(gs, k);
        SeenBehind(fs, k);
      }
    }
  }

  lemma SeenBehind(fs: seq<Field>, k: Key)
    requires fs != [] && fs[0].key != k && fs[0].value != KeyName(k)
    ensures Seen(fs, k) == Seen(fs[1..], k)
  {
    var d := DecoyAt(fs[1..], k);
    if |fs| >= 2 && d.Some? { assert fs[1..][d.value + 1] == fs[d.value + 2]; }
  }

  /** A field, present or absent, is read as what it is exactly when its decoy, if it has one, is
      followed by the same value. */
  lemma LookupExact(fs: seq<Field>, k: Key)
    requires AllClean(fs)
    ensures Lookup(fs, KeyName(k)) == ByKey(fs, k)
      <==> (DecoyAt(fs, k).Some? ==> ByKey(fs, k) == Some(fs[DecoyAt(fs, k).value + 1].value))
  {
    LookupIsSeen(fs, k);
  }

  // ------------------------------------------------------------- whole requests

  /** What the client means to send: clean values, a request id, domain and action that fit, known names. */
  predicate Meant(domain: string, action: string, algId: nat, o: Options) {
    && AlgorithmName(algId).Some? && Json.Clean(domain) && Json.Clean(action)
    && Json.Clean(o.requestId) && Json.Clean(o.keyRef) && Json.Clean(o.payload) && Json.Clean(o.auxPayload)
    && Json.Clean(o.deviceHint) && Json.Clean(o.preference) && Json.Clean(o.sequence)
    && |o.requestId| < MAX_ID_LEN && |domain| < MAX_FIELD_LEN && |action| < MAX_FIELD_LEN
    && ParseDomain(domain) != DomainUnknown && ParseAction(action) != ActionUnknown
  }

  lemma CleanConcat(a: seq<Field>, b: seq<Field>)
    requires AllClean(a) && AllClean(b)
    ensures AllClean(a + b)
  {
  }

  lemma OptionsClean(o: Options)
    requires Json.Clean(o.keyRef) && Json.Clean(o.payload) && Json.Clean(o.auxPayload)
    requires Json.Clean(o.deviceHint) && Json.Clean(o.preference) && Json.Clean(o.sequence)
    ensures AllClean(OptionFields(o))
  {
    var o1, o2, o3 := Optional(KeyKeyRef, o.keyRef), Optional(KeyPayload, o.payload), Optional(KeyAux, o.auxPayload);
    var o4, o5, o6 := Optional(KeyHint, o.deviceHint), Optional(KeyPreference, o.preference), Optional(KeySequence, o.sequence);
    CleanConcat(o1, o2);
    CleanConcat(o1 + o2, o3);
    CleanConcat(o1 + o2 + o3, o4);
    CleanConcat(o1 + o2 + o3 + o4, o5);
    CleanConcat(o1 + o2 + o3 + o4 + o5, o6);
  }

  lemma FieldsClean(domain: string, action: string, algId: nat, o: Options)
    requires Meant(domain, action, algId, o)
    ensures AllClean(Fields(domain, action, AlgorithmName(algId).value, o))
  {
    AlgorithmNameTravels(algId);
    OptionsClean(o);
    HeadClean(domain, action, AlgorithmName(algId).value, o);
    CleanConcat(HeadFields(domain, action, AlgorithmName(algId).value, o), OptionFields(o));
  }

  lemma HeadClean(domain: string, action: string, name: string, o: Options)
    requires Json.Clean(domain) && Json.Clean(action) && Json.Clean(name) && Json.Clean(o.requestId)
    ensures AllClean(HeadFields(domain, action, name, o))
  {
  }

  lemma CleanHasNoQuote(v: string)
    requires Json.Clean(v)
    ensures '"' !in v
  {
    forall j | 0 <= j < |v| ensures v[j] != '"' { assert Json.Plain(v[j]); }
  }

  lemma CleanIsQuoteFree(fs: seq<Field>)
    requires AllClean(fs)
    ensures QuoteFree(fs)
  {
    forall i | 0 <= i < |fs| ensures '"' !in fs[i].value && IsName(Name(fs[i])) {
      KeysAreNames(fs[i].key);
      CleanHasNoQuote(fs[i].value);
    }
  }

  lemma OwnValue(domain: string, action: string, name: string, o: Options, k: Key)
    ensures Sized(ByKey(Fields(domain, action, name, o), k), KeySize(k)) == Expected(domain, action, name, o, k)
  {
    ByKeyConcat(HeadFields(domain, action, name, o), OptionFields(o), k);
    OptionByKey(o, k);
    HeadByKey(domain, action, name, o, k);
  }

  /** What extraction gets for a key: the value behind the decoy, or the key's own. */
  lemma GetExactly(domain: string, action: string, algId: nat, o: Options, k: Key)
    requires Meant(domain, action, algId, o)
    ensures var name := AlgorithmName(algId).value; var fs := Fields(domain, action, name, o);
      Get(Message(fs), k) == if DecoyAt(fs, k).Some? then Sized(Some(fs[DecoyAt(fs, k).value + 1].value), KeySize(k))
                             else Expected(domain, action, name, o, k)
  {
    var name := AlgorithmName(algId).value;
    var fs := Fields(domain, action, name, o);
    FieldsClean(domain, action, algId, o);
    CleanIsQuoteFree(fs);
    KeysAreNames(k);
    FinderIsLookup(fs, KeyName(k), KeySize(k));
    OwnValue(domain, action, name, o, k);
    LookupIsSeen(fs, k);
  }

  /** If a value is taken for the field `k`, what stands behind it means the same as what the field holds. */
  predicate Undiverted<T(==)>(fs: seq<Field>, k: Key, meaning: Extracted -> T, own: T) {
    DecoyAt(fs, k).Some? ==> meaning(Sized(Some(fs[DecoyAt(fs, k).value + 1].value), KeySize(k))) == own
  }

  /** Extraction from the line finds, for every key, what stands behind its decoy or what is expected. */
  ghost predicate Reads(json: string, fs: seq<Field>, domain: string, action: string, name: string, o: Options) {
    forall k: Key :: Get(json, k) == Found(fs, k, Expected(domain, action, name, o, k))
  }

  function Found(fs: seq<Field>, k: Key, own: Extracted): Extracted {
    if DecoyAt(fs, k).Some? then Sized(Some(fs[DecoyAt(fs, k).value + 1].value), KeySize(k)) else own
  }

  lemma MessageReads(domain: string, action: string, algId: nat, o: Options)
    requires Meant(domain, action, algId, o)
    ensures var name := AlgorithmName(algId).value; var fs := Fields(domain, action, name, o);
      Reads(Message(fs), fs, domain, action, name, o)
  {
    var name := AlgorithmName(algId).value;
    var fs := Fields(domain, action, name, o);
    forall k: Key ensures Get(Message(fs), k) == Found(fs, k, Expected(domain, action, name, o, k)) {
      GetExactly(domain, action, algId, o, k);
    }
  }

  lemma MeaningIff<T>(fs: seq<Field>, k: Key, got: Extracted, expected: Extracted, meaning: Extracted -> T, own: T)
    requires got == Found(fs, k, expected) && meaning(expected) == own
    ensures Undiverted(fs, k, meaning, own) <==> meaning(got) == own
  {
  }

  function Text(): Extracted -> string { x => OrEmpty(x) }
  function DomainMeaning(): Extracted -> Domain { x => DomainOf(x) }
  function ActionMeaning(): Extracted -> Action { x => ActionOf(x) }
  function AlgorithmMeaning(action: Action): Extracted -> Option<string> { x => AlgorithmOf(x, action) }
  function PreferenceMeaning(): Extracted -> Preference { x => ParsePreference(OrEmpty(x)) }

  /** The round trip, exactly: a request of clean values is parsed to what the client meant if and only
      if every value that is taken for a field it is not is followed by one that means what the field holds. */
  lemma RoundTripExactly(domain: string, action: string, algId: nat, o: Options)
    requires Meant(domain, action, algId, o)
    ensures var name := AlgorithmName(algId).value; var fs := Fields(domain, action, name, o);
      var r := Received(ParseDomain(domain), ParseAction(action), name, o);
      ParseRequest(Message(fs)) == Parsed(r) <==> AllUndiverted(fs, r)
  {
    var name := AlgorithmName(algId).value;
    var r := Received(ParseDomain(domain), ParseAction(action), name, o);
    var fs := Fields(domain, action, name, o);
    MessageReads(domain, action, algId, o);
    AlgorithmNameTravels(algId);
    ReadsDecide(Message(fs), fs, domain, action, name, o, r);
  }

  predicate HeadUndiverted(fs: seq<Field>, r: Request) {
    && Undiverted(fs, KeyDomain, DomainMeaning(), r.domain) && Undiverted(fs, KeyAction, ActionMeaning(), r.action)
    && Undiverted(fs, KeyAlgorithm, AlgorithmMeaning(r.action), Some(r.algorithm))
  }

  /** The fields that the request keeps as they are. */
  predicate IsText(k: Key) {
    !k.KeyRequestId? && !k.KeyDomain? && !k.KeyAction? && !k.KeyAlgorithm? && !k.KeyPreference?
  }

  function TextIn(r: Request, k: Key): string {
    match k
    case KeyKeyRef => r.keyRef
    case KeyPayload => r.payload
    case KeyAux => r.auxPayload
    case KeyHint => r.deviceHint
    case KeyPin => r.userPin
    case KeySequence => r.sequence
    case _ => ""
  }

  ghost predicate TextsUndiverted(fs: seq<Field>, r: Request) {
    forall k :: IsText(k) ==> Undiverted(fs, k, Text(), TextIn(r, k))
  }

  /** No field is diverted from what `r` has there. */
  ghost predicate AllUndiverted(fs: seq<Field>, r: Request) {
    HeadUndiverted(fs, r) && TextsUndiverted(fs, r) && Undiverted(fs, KeyPreference, PreferenceMeaning(), r.preference)
  }

  predicate HeadIs(json: string, r: Request) {
    && DomainOf(Get(json, KeyDomain)) == r.domain && ActionOf(Get(json, KeyAction)) == r.action
    && AlgorithmOf(Get(json, KeyAlgorithm), r.action) == Some(r.algorithm)
  }

  ghost predicate TextsAre(json: string, r: Request) {
    forall k :: IsText(k) ==> OrEmpty(Get(json, k)) == TextIn(r, k)
  }

  lemma HeadIff(json: string, fs: seq<Field>, domain: string, action: string, name: string, o: Options, r: Request)
    requires Reads(json, fs, domain, action, name, o) && Normalize(name, MAX_FIELD_LEN) == Some(name)
    requires |domain| < MAX_FIELD_LEN && |action| < MAX_FIELD_LEN && |name| < MAX_FIELD_LEN
    requires r.domain == ParseDomain(domain) && r.action == ParseAction(action) && r.algorithm == name
    ensures HeadIs(json, r) <==> HeadUndiverted(fs, r)
  {
    DomainIff(json, fs, domain, action, name, o, r.domain);
    ActionIff(json, fs, domain, action, name, o, r.action);
    AlgorithmIff(json, fs, domain, action, name, o, r.action);
  }

  lemma TextsIff(json: string, fs: seq<Field>, domain: string, action: string, name: string, o: Options, r: Request)
    requires Reads(json, fs, domain, action, name, o) && r == Received(r.domain, r.action, name, o)
    ensures TextsAre(json, r) <==> TextsUndiverted(fs, r)
  {
    forall k | IsText(k) ensures OrEmpty(Get(json, k)) == TextIn(r, k) <==> Undiverted(fs, k, Text(), TextIn(r, k)) {
      TextIff(json, fs, domain, action, name, o, k, TextIn(r, k));
    }
  }

  lemma ReadsDecide(json: string, fs: seq<Field>, domain: string, action: string, name: string, o: Options, r: Request)
    requires Reads(json, fs, domain, action, name, o) && fs != [] && fs[0].key == KeyRequestId
    requires r == Received(ParseDomain(domain), ParseAction(action), name, o) && Normalize(name, MAX_FIELD_LEN) == Some(name)
    requires |o.requestId| < MAX_ID_LEN && |domain| < MAX_FIELD_LEN && |action| < MAX_FIELD_LEN && |name| < MAX_FIELD_LEN
    requires r.domain != DomainUnknown && r.action != ActionUnknown
    ensures ParseRequest(json) == Parsed(r) <==> AllUndiverted(fs, r)
  {
    IdIsRead(json, fs, domain, action, name, o);
    HeadIff(json, fs, domain, action, name, o, r);
    TextsIff(json, fs, domain, action, name, o, r);
    PreferenceIff(json, fs, domain, action, name, o, r.preference);
    ParseExactly(json, r);
  }

  lemma IdIsRead(json: string, fs: seq<Field>, domain: string, action: string, name: string, o: Options)
    requires Reads(json, fs, domain, action, name, o) && fs != [] && fs[0].key == KeyRequestId && |o.requestId| < MAX_ID_LEN
    ensures Get(json, KeyRequestId) == Value(o.requestId)
  {
    assert DecoyAt(fs, KeyRequestId) == None;
  }

  lemma DomainIff(json: string, fs: seq<Field>, domain: string, action: string, name: string, o: Options, own: Domain)
    requires Reads(json, fs, domain, action, name, o) && |domain| < MAX_FIELD_LEN && own == ParseDomain(domain)
    ensures Undiverted(fs, KeyDomain, DomainMeaning(), own) <==> DomainOf(Get(json, KeyDomain)) == own
  {
    MeaningIff(fs, KeyDomain, Get(json, KeyDomain), Value(domain), DomainMeaning(), own);
  }

  lemma ActionIff(json: string, fs: seq<Field>, domain: string, action: string, name: string, o: Options, own: Action)
    requires Reads(json, fs, domain, action, name, o) && |action| < MAX_FIELD_LEN && own == ParseAction(action)
    ensures Undiverted(fs, KeyAction, ActionMeaning(), own) <==> ActionOf(Get(json, KeyAction)) == own
  {
    MeaningIff(fs, KeyAction, Get(json, KeyAction), Value(action), ActionMeaning(), own);
  }

  lemma AlgorithmIff(json: string, fs: seq<Field>, domain: string, action: string, name: string, o: Options, a: Action)
    requires Reads(json, fs, domain, action, name, o) && |name| < MAX_FIELD_LEN && Normalize(name, MAX_FIELD_LEN) == Some(name)
    ensures Undiverted(fs, KeyAlgorithm, AlgorithmMeaning(a), Some(name)) <==> AlgorithmOf(Get(json, KeyAlgorithm), a) == Some(name)
  {
    OwnAlgorithm(name, a);
    MeaningIff(fs, KeyAlgorithm, Get(json, KeyAlgorithm), Value(name), AlgorithmMeaning(a), Some(name));
  }

  lemma OwnAlgorithm(name: string, a: Action)
    ensures AlgorithmMeaning(a)(Value(name)) == Normalize(name, MAX_FIELD_LEN)
  {
  }

  lemma TextIff(json: string, fs: seq<Field>, domain: string, action: string, name: string, o: Options, k: Key, own: string)
    requires Reads(json, fs, domain, action, name, o)
    requires !k.KeyRequestId? && !k.KeyDomain? && !k.KeyAction? && !k.KeyAlgorithm? && own == Kept(OptionValue(o, k), KeySize(k))
    ensures Undiverted(fs, k, Text(), own) <==> OrEmpty(Get(json, k)) == own
  {
    KeptIsExpected(domain, action, name, o, k);
    MeaningIff(fs, k, Get(json, k), Expected(domain, action, name, o, k), Text(), own);
  }

  lemma PreferenceIff(json: string, fs: seq<Field>, domain: string, action: string, name: string, o: Options, own: Preference)
    requires Reads(json, fs, domain, action, name, o) && own == ParsePreference(Kept(o.preference, MAX_FIELD_LEN))
    ensures Undiverted(fs, KeyPreference, PreferenceMeaning(), own) <==> ParsePreference(OrEmpty(Get(json, KeyPreference))) == own
  {
    KeptIsExpected(domain, action, name, o, KeyPreference);
    MeaningIff(fs, KeyPreference, Get(json, KeyPreference), Expected(domain, action, name, o, KeyPreference), PreferenceMeaning(), own);
  }

  lemma KeptIsExpected(domain: string, action: string, name: string, o: Options, k: Key)
    requires !k.KeyRequestId? && !k.KeyDomain? && !k.KeyAction? && !k.KeyAlgorithm?
    ensures OrEmpty(Expected(domain, action, name, o, k)) == Kept(OptionValue(o, k), KeySize(k))
  {
  }

  /** A line is parsed to the request `r` exactly when each field means what `r` has there. */
  lemma ParseExactly(json: string, r: Request)
    requires r.domain != DomainUnknown && r.action != ActionUnknown
    ensures ParseRequest(json) == Parsed(r) <==>
      (&& Get(json, KeyRequestId) == Value(r.requestId) && HeadIs(json, r) && TextsAre(json, r)
       && ParsePreference(OrEmpty(Get(json, KeyPreference))) == r.preference)
  {
    AssembleExactly(r, Get(json, KeyRequestId), Get(json, KeyDomain), Get(json, KeyAction), Get(json, KeyAlgorithm),
                    Get(json, KeyKeyRef), Get(json, KeyPayload), Get(json, KeyAux), Get(json, KeyHint),
                    Get(json, KeyPin), Get(json, KeyPreference), Get(json, KeySequence));
    SixTexts(k => OrEmpty(Get(json, k)), r);
  }

  lemma SixTexts(text: Key -> string, r: Request)
    ensures (forall k :: IsText(k) ==> text(k) == TextIn(r, k)) <==>
      (&& text(KeyKeyRef) == r.keyRef && text(KeyPayload) == r.payload && text(KeyAux) == r.auxPayload
       && text(KeyHint) == r.deviceHint && text(KeyPin) == r.userPin && text(KeySequence) == r.sequence)
  {
    if text(KeyKeyRef) == r.keyRef && text(KeyPayload) == r.payload && text(KeyAux) == r.auxPayload
       && text(KeyHint) == r.deviceHint && text(KeyPin) == r.userPin && text(KeySequence) == r.sequence {
      forall k | IsText(k) ensures text(k) == TextIn(r, k) { match k { case KeyKeyRef => case _ => } }
    }
    if forall k :: IsText(k) ==> text(k) == TextIn(r, k) {
      assert IsText(KeyKeyRef) && IsText(KeyPayload) && IsText(KeyAux) && IsText(KeyHint) && IsText(KeyPin) && IsText(KeySequence);
    }
  }

  lemma AssembleExactly(r: Request, id: Extracted, dom: Extracted, act: Extracted, alg: Extracted, keyRef: Extracted,
                        payload: Extracted, aux: Extracted, hint: Extracted, pin: Extracted, pref: Extracted, sequence: Extracted)
    requires r.domain != DomainUnknown && r.action != ActionUnknown
    ensures Assemble(id, dom, act, alg, keyRef, payload, aux, hint, pin, pref, sequence) == Parsed(r)
      <==> (&& id == Value(r.requestId) && DomainOf(dom) == r.domain && ActionOf(act) == r.action
            && AlgorithmOf(alg, r.action) == Some(r.algorithm) && OrEmpty(keyRef) == r.keyRef && OrEmpty(payload) == r.payload
            && OrEmpty(aux) == r.auxPayload && OrEmpty(hint) == r.deviceHint && OrEmpty(pin) == r.userPin
            && ParsePreference(OrEmpty(pref)) == r.preference && OrEmpty(sequence) == r.sequence)
  {
    BuildExactly(r, id, dom.Value?, act.Value?, DomainOf(dom), ActionOf(act), AlgorithmOf(alg, ActionOf(act)), OrEmpty(keyRef),
                 OrEmpty(payload), OrEmpty(aux), OrEmpty(hint), OrEmpty(pin), ParsePreference(OrEmpty(pref)), OrEmpty(sequence));
  }

  lemma BuildExactly(r: Request, id: Extracted, hasDomain: bool, hasAction: bool, domain: Domain, action: Action,
                     algorithm: Option<string>, keyRef: string, payload: string, aux: string, hint: string, pin: string,
                     pref: Preference, sequence: string)
    requires r.domain != DomainUnknown && r.action != ActionUnknown
    requires (!hasDomain ==> domain == DomainUnknown) && (!hasAction ==> action == ActionUnknown)
    ensures Build(id, hasDomain, hasAction, domain, action, algorithm, keyRef, payload, aux, hint, pin, pref, sequence) == Parsed(r)
      <==> (&& id == Value(r.requestId) && domain == r.domain && action == r.action && algorithm == Some(r.algorithm)
            && keyRef == r.keyRef && payload == r.payload && aux == r.auxPayload && hint == r.deviceHint && pin == r.userPin
            && pref == r.preference && sequence == r.sequence)
  {
  }

  /** A request id that is the name of another field: the domain is read as that field. */
  lemma IdIsTakenForField(domain: string, action: string, algId: nat, o: Options, k: Key)
    requires Meant(domain, action, algId, o) && o.requestId == KeyName(k) && !k.KeyRequestId?
    ensures Get(Message(Fields(domain, action, AlgorithmName(algId).value, o)), k) == Sized(Some(domain), KeySize(k))
  {
    var name := AlgorithmName(algId).value;
    var fs := Fields(domain, action, name, o);
    FirstTwo(domain, action, name, o);
    DecoyInId(fs, k, fs[0], fs[1]);
    GetExactly(domain, action, algId, o, k);
  }

  lemma FirstTwo(domain: string, action: string, name: string, o: Options)
    ensures var fs := Fields(domain, action, name, o);
      |fs| >= 4 && fs[0] == Field(KeyRequestId, o.requestId) && fs[1] == Field(KeyDomain, domain)
  {
  }

  lemma DecoyInId(fs: seq<Field>, k: Key, f: Field, g: Field)
    requires |fs| > 1 && f == fs[0] && g == fs[1] && f.value == KeyName(k) && f.key != k
    ensures DecoyAt(fs, k) == Some(0)
  {
  }

  /** So a payload that is sent, and fits, is not the one that arrives: with the request id `payload`
      and domain and action `hash` nothing is the name of an absent field, and yet the payload reads `hash`. */
  lemma PayloadIsReplaced(o: Options, hash: string)
    requires o == Options(KeyName(KeyPayload), "", o.payload, "", "", "", "") && Json.Clean(o.payload)
    requires hash == DomainToString(DomainHash)
    ensures Meant(hash, hash, 7, o) && Get(Message(Fields(hash, hash, AlgorithmName(7).value, o)), KeyPayload) == Value(hash)
  {
    PayloadSampleIsMeant(o, hash, KeyPayload);
    HashFits(hash);
    IdIsTakenForField(hash, hash, 7, o, KeyPayload);
  }

  lemma PayloadSampleIsMeant(o: Options, hash: string, k: Key)
    requires o == Options(KeyName(k), "", o.payload, "", "", "", "") && Json.Clean(o.payload) && hash == DomainToString(DomainHash)
    ensures Meant(hash, hash, 7, o)
  {
    HashIsKnown(hash);
    HashFits(hash);
    WordIsClean(hash);
    KeyIsClean(k);
  }

  lemma KeyIsClean(k: Key)
    ensures Json.Clean(KeyName(k)) && |KeyName(k)| < MAX_ID_LEN
  {
  }

  lemma HashFits(hash: string)
    requires hash == DomainToString(DomainHash)
    ensures IsWord(hash) && |hash| < 30
  {
    PrintedWords(DomainHash, ActionHash, DevUnknown);
  }

  lemma HashIsKnown(hash: string)
    requires hash == DomainToString(DomainHash)
    ensures ParseDomain(hash) == DomainHash && ParseAction(hash) == ActionHash
  {
    TableRoundTrip(DomainHash, ActionHash, DevUnknown, PrefBalanced);
    HashNames();
  }

  lemma HashNames()
    ensures DomainToString(DomainHash) == ActionToString(ActionHash)
  {
  }

  lemma WordIsClean(w: string)
    requires IsWord(w)
    ensures Json.Clean(w)
  {
  }

  // ------------------------------------------------------------- values that need an escape

  /** Fields without quotes that are neither the one that is sought nor taken for it are passed over. */
  lemma {:induction false} SkipFields(a: string, fs: seq<Field>, first: bool, tail: string, name: string, size: nat)
    requires fs != [] && QuoteFree(fs) && IsName(name) && '"' !in a
    requires forall i :: 0 <= i < |fs| ==> Name(fs[i]) != name && Json.Escape(fs[i].value) != name
    ensures Extract(a + (Render(fs, first) + tail), name, size)
      == Extract(Json.Escape(fs[|fs| - 1].value) + ("\"" + tail), name, size)
    decreases |fs|
  {
    var gs, e := fs[1..], Json.Escape(fs[0].value);
    SkipFirst(a, fs, first, tail, name, size);
    if |fs| == 1 {
      assert gs == [] && "" + tail == tail;
    } else {
      var last := gs[|gs| - 1];
      assert forall i :: 0 <= i < |gs| ==> gs[i] == fs[i + 1];
      Json.EscapeWithoutQuote(fs[0].value);
      SkipComma(e, gs, tail, name, size);
      SkipFields("", gs, false, tail, name, size);
      assert last == fs[|fs| - 1];
    }
  }

  lemma SkipFirst(a: string, fs: seq<Field>, first: bool, tail: string, name: string, size: nat)
    requires fs != [] && '"' !in a && '"' !in fs[0].value && IsName(Name(fs[0])) && IsName(name)
    requires Name(fs[0]) != name && Json.Escape(fs[0].value) != name
    ensures Extract(a + (Render(fs, first) + tail), name, size)
      == Extract(Json.Escape(fs[0].value) + ("\"" + (Render(fs[1..], false) + tail)), name, size)
  {
    var n, e, c := Name(fs[0]), Json.Escape(fs[0].value), if first then "" else ",";
    var r := Render(fs[1..], false);
    Json.EscapeWithoutQuote(fs[0].value);
    Pieces(a, c, n, e, r, tail);
    SkipOne(a + c, n, e, r + tail, name, size);
  }

  lemma SkipComma(e: string, gs: seq<Field>, tail: string, name: string, size: nat)
    requires gs != [] && '"' !in e && IsName(name)
    ensures Extract(e + ("\"" + (Render(gs, false) + tail)), name, size) == Extract("" + (Render(gs, false) + tail), name, size)
  {
    var r := Render(gs[1..], false);
    var inner := Around(":", Json.Escape(gs[0].value), r + tail);
    Pieces("", ",", Name(gs[0]), Json.Escape(gs[0].value), r, tail);
    assert "" + "," == ",";
    SkipCommaText(e, Name(gs[0]), inner, Render(gs, false) + tail, name, size);
  }

  lemma Pieces(a: string, c: string, n: string, e: string, r: string, tail: string)
    ensures a + (((c + "\"" + n + "\":\"" + e + "\"") + r) + tail) == Around(a + c, n, Around(":", e, r + tail))
  {
  }

  lemma RecoveredAfter(a: string, k: Key, v: string, rest: string, size: nat)
    requires '"' !in a
    ensures Extract(a + (Json.Field(KeyName(k), v, false) + rest), KeyName(k), size) == Value(v)
      <==> Json.Clean(v) && |v| < size
  {
    var n, e := KeyName(k), Json.Escape(v);
    KeysAreNames(k);
    var tail := ":" + ("\"" + (e + ("\"" + rest)));
    FirstFieldPieces(a, n, e, rest);
    FoundHere(a, tail, n, size);
    BehindColon(e, rest, size);
    ReadsValueIff(v, e, rest, size);
  }

  lemma ReadsValueIff(v: string, e: string, rest: string, size: nat)
    requires e == Json.Escape(v)
    ensures ReadQuoted(e + ("\"" + rest), size) == Value(v) <==> Json.Clean(v) && |v| < size
  {
    if '"' in v {
      var i :| 0 <= i < |v| && v[i] == '"';
      assert !Json.Plain(v[i]);
      ReadHasNoQuote(e + ("\"" + rest), size);
    } else {
      Json.EscapeIsIdentity(v);
      Json.EscapeWithoutQuote(v);
      QuotedReads(e, rest, size);
    }
  }

  lemma ReadHasNoQuote(s: string, size: nat)
    ensures ReadQuoted(s, size).Value? ==> '"' !in ReadQuoted(s, size).text
  {
  }

  lemma FirstFieldPieces(a: string, n: string, e: string, rest: string)
    ensures a + (("" + "\"" + n + "\":\"" + e + "\"") + rest) == Around(a, n, ":" + ("\"" + (e + ("\"" + rest))))
  {
  }

  lemma BehindColon(e: string, rest: string, size: nat)
    ensures ReadValue(":" + ("\"" + (e + ("\"" + rest))), size) == ReadQuoted(e + ("\"" + rest), size)
  {
    var s := ":" + ("\"" + (e + ("\"" + rest)));
    FindCharIs(s, ':', 0, 0);
    assert s[1..][0] == '"';
    assert s[1..][1..] == e + ("\"" + rest);
  }

  /** A field's value is recovered exactly when it needs no escape and fits.  The fields before it
      have no quotes and are not taken for it; the value itself is arbitrary, quotes included, and so
      is everything behind it. */
  lemma RecoveredExactly(pre: seq<Field>, k: Key, v: string, rest: string, size: nat)
    requires QuoteFree(pre)
    requires forall i :: 0 <= i < |pre| ==> pre[i].key != k && Json.Escape(pre[i].value) != KeyName(k)
    ensures Extract("{" + (Render(pre, true) + (Json.Field(KeyName(k), v, pre != []) + rest)), KeyName(k), size) == Value(v)
      <==> Json.Clean(v) && |v| < size
  {
    var n := KeyName(k);
    KeysAreNames(k);
    if pre == [] {
      assert Render(pre, true) + (Json.Field(n, v, false) + rest) == Json.Field(n, v, false) + rest;
      RecoveredAfter("{", k, v, rest, size);
    } else {
      forall i | 0 <= i < |pre| ensures Name(pre[i]) != n { KeyNamesDistinct(pre[i].key, k); }
      Json.EscapeWithoutQuote(pre[|pre| - 1].value);
      SkipFields("{", pre, true, Json.Field(n, v, true) + rest, n, size);
      RecoveredBehind(Json.Escape(pre[|pre| - 1].value), k, v, rest, size);
    }
  }

  lemma RecoveredBehind(e: string, k: Key, v: string, rest: string, size: nat)
    requires '"' !in e
    ensures Extract(e + ("\"" + (Json.Field(KeyName(k), v, true) + rest)), KeyName(k), size) == Value(v)
      <==> Json.Clean(v) && |v| < size
  {
    KeysAreNames(k);
    CommaThenField(e, KeyName(k), v, rest, size);
    RecoveredAfter(",", k, v, rest, size);
  }

  /** Behind a value, the comma is passed over. */
  lemma CommaThenField(e: string, n: string, v: string, rest: string, size: nat)
    requires '"' !in e && IsName(n)
    ensures Extract(e + ("\"" + (Json.Field(n, v, true) + rest)), n, size)
      == Extract("," + (Json.Field(n, v, false) + rest), n, size)
  {
    var tail := ":" + ("\"" + (Json.Escape(v) + ("\"" + rest)));
    CommaPieces(e, n, Json.Escape(v), rest);
    FoundLater(e, ",", n + ("\"" + tail), n, size);
  }

  lemma CommaPieces(e: string, n: string, v: string, rest: string)
    ensures var tail := ":" + ("\"" + (v + ("\"" + rest)));
      && e + ("\"" + (("," + "\"" + n + "\":\"" + v + "\"") + rest)) == Around(e, ",", n + ("\"" + tail))
      && "," + (("" + "\"" + n + "\":\"" + v + "\"") + rest) == "," + ("\"" + (n + ("\"" + tail)))
  {
  }
}
