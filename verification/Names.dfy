/** The name tables and the normal form of algorithm names (src/server/gateway/protocol.c:7-176). */
module Names {
  import opened Common
  import opened CStrings

  predicate IsSpace(c: char) { c == ' ' || '\t' <= c <= '\r' }

  function ToLower(c: char): char {
    if 'A' <= c <= 'Z' then (c as int + 32) as char else c
  }

  /** `s` in lower case with all its white space removed. */
  function Squash(s: string): (r: string)
    ensures IsSquashed(r)
    ensures NulFree(s) ==> NulFree(r)
  {
    if s == "" then ""
    else if IsSpace(s[0]) then Squash(s[1..])
    else [ToLower(s[0])] + Squash(s[1..])
  }

  predicate IsSquashed(s: string) {
    forall i :: 0 <= i < |s| ==> !IsSpace(s[i]) && !('A' <= s[i] <= 'Z')
  }

  lemma {:induction false} SquashConcat(a: string, b: string)
    ensures Squash(a + b) == Squash(a) + Squash(b)
  {
    if a == "" {
      assert a + b == b;
    } else {
      assert (a + b)[1..] == a[1..] + b;
      SquashConcat(a[1..], b);
    }
  }

  // ------------------------------------------------------------- spellings

  /** The six characters that C calls white space. */
  predicate IsWhite(c: char) {
    c == ' ' || c == '\t' || c == '\n' || c == '\U{0B}' || c == '\U{0C}' || c == '\r'
  }

  predicate IsCapital(c: char) { 'A' <= c <= 'Z' }

  /** `l` is the small letter of the capital `c`, or `c` itself if it is none. */
  predicate Folds(c: char, l: char) {
    if IsCapital(c) then 'a' <= l <= 'z' && l as int - 'a' as int == c as int - 'A' as int else l == c
  }

  /** `s` is a spelling of `n`: `n` with some letters as capitals and white space anywhere. */
  predicate Spells(s: string, n: string) {
    if s == "" then n == ""
    else if IsWhite(s[0]) then Spells(s[1..], n)
    else n != "" && Folds(s[0], n[0]) && Spells(s[1..], n[1..])
  }

  /** Squashing is what undoes a spelling. */
  lemma {:induction false} SquashIffSpells(s: string, n: string)
    ensures Squash(s) == n <==> Spells(s, n)
  {
    if s != "" {
      if IsSpace(s[0]) {
        SquashIffSpells(s[1..], n);
      } else if n != "" {
        SquashIffSpells(s[1..], n[1..]);
        assert n == [n[0]] + n[1..];
        FoldsOne(s[0], n[0]);
        assert Squash(s)[1..] == Squash(s[1..]);
      }
    }
  }

  lemma FoldsOne(c: char, l: char)
    ensures Folds(c, l) <==> ToLower(c) == l
    ensures IsWhite(c) <==> IsSpace(c)
  {
  }

  /** Capitals do not matter. */
  lemma {:induction false} CaseIsIgnored(a: string, b: string)
    requires |a| == |b| && forall i :: 0 <= i < |b| ==> Folds(a[i], b[i]) && !IsWhite(b[i])
    ensures Squash(a) == b
  {
    if a != "" {
      assert forall i :: 0 <= i < |b[1..]| ==> a[1..][i] == a[i + 1] && b[1..][i] == b[i + 1];
      CaseIsIgnored(a[1..], b[1..]);
      FoldsOne(a[0], b[0]);
      assert b == [b[0]] + b[1..] && !IsWhite(a[0]);
    }
  }

  /** White space does not matter, wherever it stands. */
  lemma SpaceIsIgnored(a: string, w: char, b: string)
    requires IsWhite(w)
    ensures Squash(a + [w] + b) == Squash(a + b)
  {
    SquashConcat(a + [w], b);
    SquashConcat(a, [w]);
    SquashConcat(a, b);
    assert [w][1..] == "";
  }

  lemma SquashStep(s: string, p: nat)
    requires p < |s|
    ensures Squash(s[p..]) == (if IsSpace(s[p]) then "" else [ToLower(s[p])]) + Squash(s[p + 1..])
  {
    assert s[p..][1..] == s[p + 1..];
  }

  lemma {:induction false} SquashFixed(s: string)
    requires IsSquashed(s)
    ensures Squash(s) == s
  {
    if s != "" {
      assert s == [s[0]] + s[1..];
      assert forall i :: 0 <= i < |s[1..]| ==> s[1..][i] == s[i + 1];
      SquashFixed(s[1..]);
    }
  }

  /** Copies `input` without white space, in lower case, as far as `out` has room. */
  method CopyLowerTrim(input: string, out: array<char>)
    requires NulFree(input)
    modifies out
    ensures out.Length > 0 ==> CStr(out[..]) == Clip(Squash(input), out.Length)
  {
    if out.Length == 0 { return; }
    var p := SkipSpaces(input);
    var i := 0;
    ghost var kept, todo := "", Squash(input[p..]);
    while p < |input| && i + 1 < out.Length
      invariant 0 <= p <= |input| && i < out.Length
      invariant out[..i] == kept && todo == Squash(input[p..])
      invariant Squash(input) == kept + todo
    {
      SquashStep(input, p);
      if !IsSpace(input[p]) {
        ghost var c, rest := ToLower(input[p]), Squash(input[p + 1..]);
        MoveOne(kept, c, rest);
        out[i] := ToLower(input[p]);
        kept, todo := kept + [c], rest;
        i := i + 1;
      }
      p := p + 1;
    }
    KeptIsClipped(kept, todo, out.Length);
    out[i] := '\0';
    assert out[..i] == kept;
    CStrIs(kept, out[..]);
  }

  method SkipSpaces(input: string) returns (p: nat)
    ensures p <= |input| && Squash(input) == Squash(input[p..])
  {
    p := 0;
    while p < |input| && IsSpace(input[p])
      invariant 0 <= p <= |input|
      invariant Squash(input) == Squash(input[p..])
    {
      SquashStep(input, p);
      p := p + 1;
    }
  }

  lemma MoveOne(kept: string, c: char, rest: string)
    ensures kept + ([c] + rest) == kept + [c] + rest
  {
  }

  lemma KeptIsClipped(kept: string, todo: string, size: nat)
    requires NulFree(kept + todo) && |kept| < size && (todo == "" || |kept| == size - 1)
    ensures NulFree(kept) && Clip(kept + todo, size) == kept
  {
    ClipOfPrefix(kept, todo, size);
    assert forall c :: c in kept ==> c in kept + todo;
  }

  // ------------------------------------------------------------- tables

  // The enums of include/common.h are numbers; entry k names the enum value k + 1.
  const DOMAIN_NAMES: seq<string> :=
    ["auth", "device", "key", "asym", "sym", "hash", "file", "pqc"]

  const ACTION_NAMES: seq<string> :=
    ["check_pin", "get_device_info", "generate_random", "get_private_key_access",
     "release_private_key_access", "generate_key_pair", "export_public_key", "import_key", "destroy_key",
     "sign", "verify", "encrypt", "decrypt", "mac", "hash", "create_file", "read_file", "write_file",
     "delete_file", "kem_encap", "kem_decap"]

  function DomainIndex(d: Domain): (i: nat)
    requires d != DomainUnknown
    ensures i < 8
  {
    match d
    case DomainAuth => 0
    case DomainDevice => 1
    case DomainKey => 2
    case DomainAsym => 3
    case DomainSym => 4
    case DomainHash => 5
    case DomainFile => 6
    case DomainPqc => 7
  }

  function DomainAt(i: nat): Domain {
    if i == 0 then DomainAuth
    else if i == 1 then DomainDevice
    else if i == 2 then DomainKey
    else if i == 3 then DomainAsym
    else if i == 4 then DomainSym
    else if i == 5 then DomainHash
    else if i == 6 then DomainFile
    else if i == 7 then DomainPqc
    else DomainUnknown
  }

  function ActionIndex(a: Action): (i: nat)
    requires a != ActionUnknown
    ensures i < 21
  {
    match a
    case ActionCheckPin => 0
    case ActionGetDeviceInfo => 1
    case ActionGenerateRandom => 2
    case ActionGetPrivateKeyAccess => 3
    case ActionReleasePrivateKeyAccess => 4
    case ActionGenerateKeyPair => 5
    case ActionExportPublicKey => 6
    case ActionImportKey => 7
    case ActionDestroyKey => 8
    case ActionSign => 9
    case ActionVerify => 10
    case ActionEncrypt => 11
    case ActionDecrypt => 12
    case ActionMac => 13
    case ActionHash => 14
    case ActionCreateFile => 15
    case ActionReadFile => 16
    case ActionWriteFile => 17
    case ActionDeleteFile => 18
    case ActionKemEncap => 19
    case ActionKemDecap => 20
  }

  function ActionAt(i: nat): Action {
    if i == 0 then ActionCheckPin
    else if i == 1 then ActionGetDeviceInfo
    else if i == 2 then ActionGenerateRandom
    else if i == 3 then ActionGetPrivateKeyAccess
    else if i == 4 then ActionReleasePrivateKeyAccess
    else if i == 5 then ActionGenerateKeyPair
    else if i == 6 then ActionExportPublicKey
    else if i == 7 then ActionImportKey
    else if i == 8 then ActionDestroyKey
    else if i == 9 then ActionSign
    else if i == 10 then ActionVerify
    else if i == 11 then ActionEncrypt
    else if i == 12 then ActionDecrypt
    else if i == 13 then ActionMac
    else if i == 14 then ActionHash
    else if i == 15 then ActionCreateFile
    else if i == 16 then ActionReadFile
    else if i == 17 then ActionWriteFile
    else if i == 18 then ActionDeleteFile
    else if i == 19 then ActionKemEncap
    else if i == 20 then ActionKemDecap
    else ActionUnknown
  }

  lemma TableSizes()
    ensures |DOMAIN_NAMES| == 8 && |ACTION_NAMES| == 21
  {
  }

  function DomainToString(d: Domain): string {
    if d.DomainUnknown? then "unknown" else TableSizes(); DOMAIN_NAMES[DomainIndex(d)]
  }

  function ActionToString(a: Action): string {
    if a.ActionUnknown? then "unknown" else TableSizes(); ACTION_NAMES[ActionIndex(a)]
  }

  function DeviceTypeToString(t: DeviceType): string {
    match t
    case DevClassic => "classic"
    case DevPqc => "pqc"
    case DevUnknown => "unknown"
  }

  function PreferenceToString(p: Preference): string {
    match p
    case PrefSecure => "secure"
    case PrefEfficient => "efficient"
    case PrefClassicFirst => "classic_first"
    case PrefPqcFirst => "pqc_first"
    case PrefBalanced => "balanced"
  }

  /** A chain of `strcmp`s: the first entry from `start` on that equals `s`, or the table's length. */
  function IndexOf(names: seq<string>, s: string, start: nat): (k: nat)
    requires start <= |names|
    ensures start <= k <= |names|
    ensures k < |names| ==> names[k] == s
    ensures forall i :: start <= i < k ==> names[i] != s
    decreases |names| - start
  {
    if start == |names| || names[start] == s then start else IndexOf(names, s, start + 1)
  }

  function ParseDomain(s: string): Domain {
    DomainAt(IndexOf(DOMAIN_NAMES, Clip(Squash(s), MAX_FIELD_LEN), 0))
  }

  function ParseAction(s: string): Action {
    ActionAt(IndexOf(ACTION_NAMES, Clip(Squash(s), MAX_FIELD_LEN), 0))
  }

  function ParseDeviceType(s: string): DeviceType {
    var norm := Clip(Squash(s), MAX_FIELD_LEN);
    if norm == "classic" then DevClassic
    else if norm == "pqc" then DevPqc
    else DevUnknown
  }

  function ParsePreference(s: string): Preference {
    if s == "" then PrefBalanced else PreferenceOfName(Clip(Squash(s), MAX_FIELD_LEN))
  }

  function PreferenceOfName(norm: string): Preference {
    if norm == "secure" || norm == "safest" then PrefSecure
    else if norm == "efficient" || norm == "fast" || norm == "highest_efficiency" then PrefEfficient
    else if norm == "classic_first" then PrefClassicFirst
    else if norm == "pqc_first" then PrefPqcFirst
    else PrefBalanced
  }

  /** Only lower-case letters and underscores. */
  predicate IsWord(s: string) {
    forall i :: 0 <= i < |s| ==> 'a' <= s[i] <= 'z' || s[i] == '_'
  }

  /** Names that survive normalization and that no two entries share. */
  ghost predicate GoodTable(names: seq<string>) {
    && (forall i :: 0 <= i < |names| ==> IsWord(names[i]) && 0 < |names[i]| < 30)
    && (forall i, j :: 0 <= i < j < |names| ==> names[i] != names[j])
  }

  lemma ParseByTable(names: seq<string>, s: string, k: nat)
    requires GoodTable(names) && k < |names|
    ensures IndexOf(names, Clip(Squash(s), MAX_FIELD_LEN), 0) == k <==> Squash(s) == names[k]
  {
    assert |names[k]| < 30;
  }

  // Distinct names, shown by a numeric fingerprint: the length and three letters.
  function Fingerprint(n: string): int {
    if |n| < 3 then 0 else 1000 * |n| + n[0] as int + n[2] as int + n[|n| / 2] as int
  }

  predicate Entry(n: string, code: int) {
    IsWord(n) && 0 < |n| < 30 && Fingerprint(n) == code
  }

  lemma GoodByEntries(names: seq<string>, codes: seq<int>)
    requires |names| == |codes| && forall i :: 0 <= i < |names| ==> Entry(names[i], codes[i])
    requires forall i, j :: 0 <= i < j < |codes| ==> codes[i] != codes[j]
    ensures GoodTable(names)
  {
    forall i, j | 0 <= i < j < |names| ensures names[i] != names[j] {
      assert Entry(names[i], codes[i]) && Entry(names[j], codes[j]);
    }
  }

  lemma DomainTableGood()
    ensures GoodTable(DOMAIN_NAMES)
  {
    GoodByEntries(DOMAIN_NAMES, [4329, 6323, 3329, 4339, 3345, 4334, 4318, 3324]);
  }

  const ACTION_CODES: seq<int> :=
    [9307, 15324, 15314, 22314, 26338, 17308, 17330, 10333, 11326, 4321, 6337,
     7314, 7313, 3305, 4334, 11301, 9306, 10319, 11309, 9317, 9316]

  lemma ActionCodesDistinct()
    ensures |ACTION_CODES| == 21
    ensures forall i, j :: 0 <= i < j < |ACTION_CODES| ==> ACTION_CODES[i] != ACTION_CODES[j]
  {
  }

  lemma ActionEntries1()
    ensures Entry(ACTION_NAMES[0], 9307)
    ensures Entry(ACTION_NAMES[1], 15324)
    ensures Entry(ACTION_NAMES[2], 15314)
  {
  }

  lemma ActionEntry3()
    ensures Entry(ACTION_NAMES[3], 22314)
  {
  }

  lemma ActionEntry4()
    ensures Entry(ACTION_NAMES[4], 26338)
  {
  }

  lemma ActionEntries3()
    ensures Entry(ACTION_NAMES[5], 17308)
    ensures Entry(ACTION_NAMES[6], 17330)
    ensures Entry(ACTION_NAMES[7], 10333)
  {
  }

  lemma ActionEntries4()
    ensures Entry(ACTION_NAMES[8], 11326)
    ensures Entry(ACTION_NAMES[9], 4321)
    ensures Entry(ACTION_NAMES[10], 6337)
  {
  }

  lemma ActionEntries5()
    ensures Entry(ACTION_NAMES[11], 7314)
    ensures Entry(ACTION_NAMES[12], 7313)
    ensures Entry(ACTION_NAMES[13], 3305)
  {
  }

  lemma ActionEntries6()
    ensures Entry(ACTION_NAMES[14], 4334)
    ensures Entry(ACTION_NAMES[15], 11301)
    ensures Entry(ACTION_NAMES[16], 9306)
    ensures Entry(ACTION_NAMES[17], 10319)
  {
  }

  lemma ActionEntries7()
    ensures Entry(ACTION_NAMES[18], 11309)
    ensures Entry(ACTION_NAMES[19], 9317)
    ensures Entry(ACTION_NAMES[20], 9316)
  {
  }

  lemma ActionTableGood()
    ensures GoodTable(ACTION_NAMES)
  {
    ActionEntries1(); ActionEntry3(); ActionEntry4(); ActionEntries3(); ActionEntries4(); ActionEntries5();
    ActionEntries6(); ActionEntries7();
    ActionCodesDistinct();
    GoodByEntries(ACTION_NAMES, ACTION_CODES);
  }

  /** A known domain is parsed from the spellings of its printed name, and from nothing else. */
  lemma DomainNames(s: string, d: Domain)
    requires d != DomainUnknown
    ensures ParseDomain(s) == d <==> Squash(s) == DomainToString(d)
    ensures ParseDomain(s) == d <==> Spells(s, DomainToString(d))
  {
    DomainTableGood();
    ParseByTable(DOMAIN_NAMES, s, DomainIndex(d));
    DomainAtIndex(d, IndexOf(DOMAIN_NAMES, Clip(Squash(s), MAX_FIELD_LEN), 0));
    SquashIffSpells(s, DomainToString(d));
  }

  lemma DomainAtIndex(d: Domain, i: nat)
    requires d != DomainUnknown
    ensures DomainAt(i) == d <==> i == DomainIndex(d)
  {
  }

  lemma ActionAtIndex(a: Action, i: nat)
    requires a != ActionUnknown
    ensures ActionAt(i) == a <==> i == ActionIndex(a)
  {
  }

  lemma ActionNames(s: string, a: Action)
    requires a != ActionUnknown
    ensures ParseAction(s) == a <==> Squash(s) == ActionToString(a)
    ensures ParseAction(s) == a <==> Spells(s, ActionToString(a))
  {
    SquashIffSpells(s, ActionToString(a));
    ActionTableGood();
    ParseByTable(ACTION_NAMES, s, ActionIndex(a));
    ActionAtIndex(a, IndexOf(ACTION_NAMES, Clip(Squash(s), MAX_FIELD_LEN), 0));
  }

  /** Printed names are words, so no delimiter occurs in them. */
  lemma PrintedWords(d: Domain, a: Action, t: DeviceType)
    ensures d != DomainUnknown ==> IsWord(DomainToString(d)) && 0 < |DomainToString(d)| < 30
    ensures a != ActionUnknown ==> IsWord(ActionToString(a)) && 0 < |ActionToString(a)| < 30
    ensures IsWord(DeviceTypeToString(t)) && 0 < |DeviceTypeToString(t)| < 10
  {
    DomainTableGood();
    ActionTableGood();
  }

  lemma DeviceTypeNames(s: string, t: DeviceType)
    requires t != DevUnknown
    ensures ParseDeviceType(s) == t <==> Squash(s) == DeviceTypeToString(t)
    ensures ParseDeviceType(s) == t <==> Spells(s, DeviceTypeToString(t))
  {
    SquashIffSpells(s, DeviceTypeToString(t));
    if |Squash(s)| < MAX_FIELD_LEN {} else {}
  }

  /** The names as the protocol has them. */
  lemma DomainWords()
    ensures DomainToString(DomainAuth) == "auth" && DomainToString(DomainDevice) == "device"
    ensures DomainToString(DomainKey) == "key" && DomainToString(DomainAsym) == "asym" && DomainToString(DomainSym) == "sym"
    ensures DomainToString(DomainHash) == "hash" && DomainToString(DomainFile) == "file" && DomainToString(DomainPqc) == "pqc"
  {
  }

  lemma DeviceActionWords()
    ensures ActionToString(ActionCheckPin) == "check_pin" && ActionToString(ActionGetDeviceInfo) == "get_device_info"
    ensures ActionToString(ActionGenerateRandom) == "generate_random"
    ensures ActionToString(ActionGetPrivateKeyAccess) == "get_private_key_access"
    ensures ActionToString(ActionReleasePrivateKeyAccess) == "release_private_key_access"
  {
  }

  lemma KeyActionWords()
    ensures ActionToString(ActionGenerateKeyPair) == "generate_key_pair"
    ensures ActionToString(ActionExportPublicKey) == "export_public_key" && ActionToString(ActionImportKey) == "import_key"
    ensures ActionToString(ActionDestroyKey) == "destroy_key"
  {
  }

  lemma CryptoActionWords()
    ensures ActionToString(ActionSign) == "sign" && ActionToString(ActionVerify) == "verify"
    ensures ActionToString(ActionEncrypt) == "encrypt" && ActionToString(ActionDecrypt) == "decrypt"
    ensures ActionToString(ActionMac) == "mac" && ActionToString(ActionHash) == "hash"
  {
  }

  lemma FileActionWords()
    ensures ActionToString(ActionCreateFile) == "create_file" && ActionToString(ActionReadFile) == "read_file"
    ensures ActionToString(ActionWriteFile) == "write_file" && ActionToString(ActionDeleteFile) == "delete_file"
    ensures ActionToString(ActionKemEncap) == "kem_encap" && ActionToString(ActionKemDecap) == "kem_decap"
  {
  }

  /** Each preference has its words; everything else, and no text at all, means balanced. */
  lemma PreferenceNames(s: string)
    ensures ParsePreference(s) == PrefSecure <==> Spells(s, "secure") || Spells(s, "safest")
    ensures ParsePreference(s) == PrefEfficient <==>
      Spells(s, "efficient") || Spells(s, "fast") || Spells(s, "highest_efficiency")
    ensures ParsePreference(s) == PrefClassicFirst <==> Spells(s, "classic_first")
    ensures ParsePreference(s) == PrefPqcFirst <==> Spells(s, "pqc_first")
  {
    SquashIffSpells(s, "secure");
    SquashIffSpells(s, "safest");
    SquashIffSpells(s, "efficient");
    SquashIffSpells(s, "fast");
    SquashIffSpells(s, "highest_efficiency");
    SquashIffSpells(s, "classic_first");
    SquashIffSpells(s, "pqc_first");
    var n := Squash(s);
    if |n| >= MAX_FIELD_LEN {
      PreferenceIsShort(Clip(n, MAX_FIELD_LEN));
      PreferenceIsShort(n);
    }
  }

  lemma PreferenceIsShort(n: string)
    ensures PreferenceOfName(n) != PrefBalanced ==> |n| < 20
    ensures n in {"secure", "safest", "efficient", "fast", "highest_efficiency", "classic_first", "pqc_first"} ==> |n| < 20
  {
  }

  lemma PreferenceOfPrinted(p: Preference)
    ensures PreferenceOfName(PreferenceToString(p)) == p && IsSquashed(PreferenceToString(p))
    ensures 0 < |PreferenceToString(p)| < 20
  {
  }

  lemma DomainRoundTrip(d: Domain)
    requires d != DomainUnknown
    ensures ParseDomain(DomainToString(d)) == d
  {
    PrintedWords(d, ActionUnknown, DevUnknown);
    WordIsSquashed(DomainToString(d));
    DomainNames(DomainToString(d), d);
  }

  lemma ActionRoundTrip(a: Action)
    requires a != ActionUnknown
    ensures ParseAction(ActionToString(a)) == a
  {
    PrintedWords(DomainUnknown, a, DevUnknown);
    WordIsSquashed(ActionToString(a));
    ActionNames(ActionToString(a), a);
  }

  lemma DeviceTypeRoundTrip(t: DeviceType)
    requires t != DevUnknown
    ensures ParseDeviceType(DeviceTypeToString(t)) == t
  {
    PrintedWords(DomainUnknown, ActionUnknown, t);
    WordIsSquashed(DeviceTypeToString(t));
    DeviceTypeNames(DeviceTypeToString(t), t);
  }

  lemma PreferenceRoundTrip(p: Preference)
    ensures ParsePreference(PreferenceToString(p)) == p
  {
    PreferenceOfPrinted(p);
    SquashFixed(PreferenceToString(p));
  }

  lemma WordIsSquashed(w: string)
    requires IsWord(w)
    ensures Squash(w) == w
  {
    SquashFixed(w);
  }

  /** Parsing a printed domain, action, device type or preference gives it back. */
  lemma TableRoundTrip(d: Domain, a: Action, t: DeviceType, p: Preference)
    ensures d != DomainUnknown ==> ParseDomain(DomainToString(d)) == d
    ensures a != ActionUnknown ==> ParseAction(ActionToString(a)) == a
    ensures t != DevUnknown ==> ParseDeviceType(DeviceTypeToString(t)) == t
    ensures ParsePreference(PreferenceToString(p)) == p
  {
    if d != DomainUnknown { DomainRoundTrip(d); }
    if a != ActionUnknown { ActionRoundTrip(a); }
    if t != DevUnknown { DeviceTypeRoundTrip(t); }
    PreferenceRoundTrip(p);
  }

  // ------------------------------------------------------------- algorithm names

  /** The alias table of `normalize_algorithm_name`. */
  function Canonical(n: string): string {
    if n == "auto" || n == "none" then "auto"
    else if n == "kyber" || n == "kyber-768" then "kyber768"
    else if n == "ml-kem-768" || n == "mlkem" then "mlkem768"
    else if n == "dilithium" || n == "dilithium-3" then "dilithium3"
    else n
  }

  /** `normalize_algorithm_name` into a buffer of `size` bytes; `None` is its -1 return. */
  function Normalize(s: string, size: nat): Option<string>
    requires size > 0
  {
    if s == "" then Some(Clip("auto", size))
    else
      var out := Clip(Canonical(Clip(Squash(s), size)), size);
      if out == "" then None else Some(out)
  }

  method NormalizeAlgorithmName(input: string, out: array<char>) returns (rc: int)
    requires NulFree(input)
    modifies out
    ensures out.Length == 0 ==> rc == -1
    ensures out.Length > 0 ==> rc == 0 || rc == -1
    ensures out.Length > 0 ==> (rc == 0 <==> Normalize(input, out.Length).Some?)
    ensures out.Length > 0 && rc == 0 ==> Normalize(input, out.Length) == Some(CStr(out[..]))
  {
    if out.Length == 0 { return -1; }
    if input == "" {
      Snprintf(out, "auto");
      return 0;
    }
    CopyLowerTrim(input, out);
    ghost var size := out.Length;
    ghost var n := CStr(out[..]);
    var s := CStr(out[..]);
    if s == "auto" || s == "none" {
      Snprintf(out, "auto");
    } else if s == "kyber" || s == "kyber-768" {
      Snprintf(out, "kyber768");
    } else if s == "ml-kem-768" || s == "mlkem" {
      Snprintf(out, "mlkem768");
    } else if s == "dilithium" || s == "dilithium-3" {
      Snprintf(out, "dilithium3");
    }
    assert CStr(out[..]) == Clip(Canonical(n), size);
    return if CStr(out[..]) == "" then -1 else 0;
  }

  lemma CanonicalClip(n: string, size: nat)
    requires size > 0 && |n| < size
    ensures Clip(Canonical(Clip(Canonical(n), size)), size) == Clip(Canonical(n), size)
  {
    var c := Clip(Canonical(n), size);
    if size <= |Canonical(n)| { assert size <= 10; }
  }

  lemma CanonicalSquashed(n: string)
    requires IsSquashed(n)
    ensures IsSquashed(Canonical(n))
  {
  }

  lemma NormalizeNormalForm(n: string, size: nat)
    requires size > 0 && IsSquashed(n) && |n| < size && Clip(Canonical(n), size) != ""
    ensures Normalize(Clip(Canonical(n), size), size) == Some(Clip(Canonical(n), size))
  {
    var r := Clip(Canonical(n), size);
    CanonicalSquashed(n);
    SquashFixed(r);
    CanonicalClip(n, size);
  }

  /** Normalizing twice is normalizing once, whatever the buffer size. */
  lemma NormalizeIdempotent(s: string, size: nat)
    requires size > 0 && Normalize(s, size).Some?
    ensures Normalize(Normalize(s, size).value, size) == Normalize(s, size)
  {
    if s == "" {
      if size >= 5 { NormalizeNormalForm("auto", size); } else { NormalizeShortAuto(size); }
    } else {
      NormalizeNormalForm(Clip(Squash(s), size), size);
    }
  }

  /** A name that is no alias and has nothing to squash. */
  predicate IsNormal(n: string) { IsSquashed(n) && Canonical(n) == n && 0 < |n| < MAX_FIELD_LEN }

  lemma NormalNameStays(n: string)
    requires IsNormal(n)
    ensures Normalize(n, MAX_FIELD_LEN) == Some(n)
  {
    NormalizeNormalForm(n, MAX_FIELD_LEN);
  }

  lemma NormalizeShortAuto(size: nat)
    requires 0 < size < 5
    ensures Normalize(Clip("auto", size), size) == Some(Clip("auto", size))
  {
    var r := Clip("auto", size);
    SquashFixed(r);
  }

  /** Case and white space never matter, with one exception: the empty name means `auto`, a blank
      name is an error.  So two spellings of one name agree exactly when neither or both are empty. */
  lemma NormalizeIgnoresCaseAndSpace(a: string, b: string, n: string, size: nat)
    requires size > 0 && Spells(a, n) && Spells(b, n)
    ensures Normalize(a, size) == Normalize(b, size) <==> (a == "" <==> b == "")
  {
    SquashIffSpells(a, n);
    SquashIffSpells(b, n);
    if a == "" || b == "" { assert Squash("") == ""; }
  }

  lemma BlankIsNotEmpty()
    ensures Spells(" ", "") && Spells("", "") && Normalize("", MAX_FIELD_LEN) == Some("auto")
    ensures Normalize(" ", MAX_FIELD_LEN) == None
  {
    assert Squash(" ") == Squash(" "[1..]) == "";
    SquashIffSpells(" ", "");
  }

  /** Which names stand for another one. */
  predicate IsAlias(alias: string, name: string) {
    || (alias == "none" && name == "auto")
    || (alias in {"kyber", "kyber-768"} && name == "kyber768")
    || (alias in {"mlkem", "ml-kem-768"} && name == "mlkem768")
    || (alias in {"dilithium", "dilithium-3"} && name == "dilithium3")
  }

  /** Every spelling of an alias has the normal form of the name it stands for. */
  lemma AliasesAgree(s: string, alias: string, name: string)
    requires Spells(s, alias) && IsAlias(alias, name)
    ensures Normalize(s, MAX_FIELD_LEN) == Some(name) == Normalize(name, MAX_FIELD_LEN)
  {
    SquashIffSpells(s, alias);
    AliasIsCanonical(alias, name);
    assert s != "";
    NormalizeIdempotent(s, MAX_FIELD_LEN);
  }

  lemma AliasIsCanonical(alias: string, name: string)
    requires IsAlias(alias, name)
    ensures Canonical(alias) == name && 0 < |alias| < 12 && 0 < |name| < 12
  {
  }

  /** Every spelling of any other name has that name as its normal form. */
  lemma NameIsNormalForm(s: string, n: string)
    requires Spells(s, n) && 0 < |n| < MAX_FIELD_LEN && forall name :: !IsAlias(n, name)
    ensures Normalize(s, MAX_FIELD_LEN) == Some(n)
  {
    SquashIffSpells(s, n);
    if Canonical(n) != n { CanonicalIsAlias(n); }
  }

  lemma CanonicalIsAlias(n: string)
    requires Canonical(n) != n
    ensures IsAlias(n, Canonical(n))
  {
  }
}
