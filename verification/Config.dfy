/** Capability lists of the device file (src/server/service/config.c:12-52, 77-113). */
module Config {
  import opened Common
  import opened CStrings
  import opened Names
  import opened Registry
  import KeyRefText

  /** All 32 bits of the mask. */
  const ANY_SOURCE: set<nat> := set i: nat | i < 32

  /** `key_source_mask_for`, as the set of the bits that are set. */
  function KeySourceMask(s: string): set<nat> {
    if s == "" || s == "any" then ANY_SOURCE
    else if s == "internal_index" || s == "1" then {1}
    else if s == "session_handle" || s == "2" then {2}
    else if s == "external_key" || s == "3" then {3}
    else if s == "managed_key" || s == "4" then {4}
    else {}
  }

  /** The device file and the key references have the same words and numbers for the sources of keys. */
  lemma SourcesAgree(s: string, keyRef: string)
    requires KeyRefText.GetToken(keyRef, "source") == Some(s)
    ensures var n := KeyRefText.SourceValue(keyRef);
      KeySourceMask(s) == if n != 0 then {n} else if s == "any" then ANY_SOURCE else {}
    ensures s == "any" ==> forall i: nat :: i in KeySourceMask(s) <==> i < 32
  {
    KeyRefText.SourceWords(keyRef);
  }

  /** The text up to the first `:`, and what follows it if there is one. */
  datatype Cut = Cut(head: string, tail: Option<string>)

  function CutAt(s: string): Cut {
    var n := Span(s, ':');
    if n < |s| then Cut(s[..n], Some(s[n + 1..])) else Cut(s, None)
  }

  /** The capability that the parts of an entry name; without a source part any source will do. */
  function Assemble(domain: string, action: string, algorithm: string, source: Option<string>): Option<Capability> {
    var d, a, n := ParseDomain(domain), ParseAction(action), Normalize(algorithm, MAX_FIELD_LEN);
    var mask := if source.None? then ANY_SOURCE else KeySourceMask(source.value);
    if d == DomainUnknown || a == ActionUnknown || n.None? || mask == {} then None
    else Some(Capability(d, a, n.value, mask))
  }

  const ENTRY_SIZE: nat := 160

  datatype Parts = Parts(domain: string, action: string, algorithm: string, source: Option<string>)

  /** The parts of an entry; `None` when it has fewer than three. */
  function Split(text: string): Option<Parts> {
    var first := CutAt(text);
    if first.tail.None? then None
    else
      var second := CutAt(first.tail.value);
      if second.tail.None? then None
      else
        var third := CutAt(second.tail.value);
        Some(Parts(first.head, second.head, third.head, third.tail))
  }

  /** `parse_capability`; `None` is its -1 return. */
  function ParseCapability(s: string): Option<Capability> {
    var parts := Split(Clip(s, ENTRY_SIZE));
    if parts.None? then None
    else Assemble(parts.value.domain, parts.value.action, parts.value.algorithm, parts.value.source)
  }

  // ------------------------------------------------------------- the buffer that is cut in place

  /** The C string of a buffer ends at its first NUL. */
  lemma {:induction false} CStrEnds(b: seq<char>)
    requires |CStr(b)| < |b|
    ensures b[|CStr(b)|] == '\0'
  {
    if b[0] != '\0' { CStrEnds(b[1..]); }
  }

  lemma CharOfText(b: seq<char>, text: string, j: nat)
    requires text == CStr(b) && j < |text|
    ensures b[j] == text[j] && b[j] != '\0'
  {
    assert text[j] in text;
  }

  lemma SpanReached(text: string, n: nat)
    requires n <= |text| && (forall k :: 0 <= k < n ==> text[k] != ':') && (n < |text| ==> text[n] == ':')
    ensures Span(text, ':') == n
  {
    assert text == text[..n] + text[n..];
    SpanOf(text[..n], ':', text[n..]);
  }

  /** What the loop of `strchr` has found when it stops. */
  lemma StopsAt(b: seq<char>, text: string, j: nat)
    requires text == CStr(b) && j <= |text| < |b| && (forall k :: 0 <= k < j ==> b[k] != ':') && (b[j] == ':' || b[j] == '\0')
    ensures Span(text, ':') == j && (b[j] == ':' <==> j < |text|)
  {
    forall k | 0 <= k < j ensures text[k] != ':' { CharOfText(b, text, k); }
    if j < |text| { CharOfText(b, text, j); } else { CStrEnds(b); }
    SpanReached(text, j);
  }

  lemma GoesOn(b: seq<char>, text: string, j: nat)
    requires text == CStr(b) && j <= |text| < |b| && b[j] != '\0'
    ensures j < |text|
  {
    CStrEnds(b);
  }

  /** `strchr(buf + from, ':')` */
  method StrChr(buf: array<char>, from: nat) returns (at: Option<nat>)
    requires from <= buf.Length && |CStr(buf[from..])| < buf.Length - from
    ensures var text := CStr(buf[from..]); var n := Span(text, ':');
      at == if n < |text| then Some(from + n) else None
  {
    ghost var b := buf[from..];
    ghost var text := CStr(b);
    var j := 0;
    while buf[from + j] != ':' && buf[from + j] != '\0'
      invariant 0 <= j <= |text| && forall k :: 0 <= k < j ==> b[k] != ':'
      decreases |text| - j
    {
      GoesOn(b, text, j);
      j := j + 1;
    }
    StopsAt(b, text, j);
    return if buf[from + j] == ':' then Some(from + j) else None;
  }

  /** What one cut does to the C string at `from`: a NUL in place of its first `:`. */
  ghost predicate IsCut(was: seq<char>, cut: seq<char>, from: nat, next: nat)
    requires from <= |was|
  {
    && from < next <= |cut| == |was|
    && cut[..from] == was[..from]
    && CStr(cut[from..]) == CStr(cut[from..next]) == CutAt(CStr(was[from..])).head
    && CutAt(CStr(was[from..])).tail == Some(CStr(cut[next..]))
    && |CStr(cut[next..])| < |cut| - next
  }

  lemma TextFrom(b: seq<char>, i: nat, j: nat)
    requires i <= j < |b| && b[j] == '\0' && '\0' !in b[i..j]
    ensures CStr(b[i..]) == b[i..j] && CStr(b[i..j + 1]) == b[i..j]
  {
    CStrIs(b[i..j], b[i..]);
    CStrIs(b[i..j], b[i..j + 1]);
  }

  /** A NUL written inside a C string leaves two: the part before and the part behind it. */
  lemma CStrCut(b: seq<char>, n: nat)
    requires n < |CStr(b)| < |b|
    ensures CStr(b[n := '\0']) == CStr(b)[..n]
    ensures CStr(b[n := '\0'][n + 1..]) == CStr(b)[n + 1..]
    ensures CStr(b[n := '\0'][..n + 1]) == CStr(b)[..n]
  {
    var text, m, b' := CStr(b), |CStr(b)|, b[n := '\0'];
    CStrEnds(b);
    PiecesOf(b, b', text, n, m);
    TextFrom(b', 0, n);
    TextFrom(b', n + 1, m);
    assert b'[0..] == b';
  }

  lemma PiecesOf(b: seq<char>, b': seq<char>, text: string, n: nat, m: nat)
    requires n < m < |b| && text == b[..m] && '\0' !in text && b' == b[n := '\0']
    ensures b'[0..n] == text[..n] && b'[n + 1..m] == text[n + 1..] && '\0' !in b'[0..n] && '\0' !in b'[n + 1..m]
  {
    assert forall k :: 0 <= k < n ==> b'[k] == text[k] && text[k] in text;
    assert forall k :: n < k < m ==> b'[k] == text[k] && text[k] in text;
  }

  lemma CutIsCut(was: seq<char>, from: nat, n: nat)
    requires from <= |was| && |CStr(was[from..])| < |was| - from && n == Span(CStr(was[from..]), ':') < |CStr(was[from..])|
    ensures IsCut(was, was[from + n := '\0'], from, from + n + 1)
  {
    var b, cut := was[from..], was[from + n := '\0'];
    CStrCut(b, n);
    SlicesOfUpdate(was, from, n, '\0');
  }

  lemma SlicesOfUpdate(was: seq<char>, from: nat, n: nat, c: char)
    requires from + n < |was|
    ensures var b, cut := was[from..], was[from + n := c];
      && cut[..from] == was[..from] && cut[from..] == b[n := c]
      && cut[from..from + n + 1] == b[n := c][..n + 1] && cut[from + n + 1..] == b[n := c][n + 1..]
  {
  }

  method CutInPlace(buf: array<char>, from: nat) returns (next: Option<nat>)
    requires from <= buf.Length && |CStr(buf[from..])| < buf.Length - from
    modifies buf
    ensures next.None? ==> buf[..] == old(buf[..]) && CutAt(CStr(buf[from..])).tail.None?
    ensures next.Some? ==> IsCut(old(buf[..]), buf[..], from, next.value)
  {
    ghost var was := buf[..];
    ghost var n := Span(CStr(was[from..]), ':');
    assert buf[from..] == was[from..];
    var at := StrChr(buf, from);
    if at.None? { return None; }
    CutIsCut(was, from, n);
    buf[at.value] := '\0';
    assert buf[..] == was[from + n := '\0'];
    return Some(at.value + 1);
  }

  /** The second cut and the third. */
  method CutRest(tmp: array<char>, from: nat) returns (action: string, rest: Option<Cut>)
    requires from <= tmp.Length && |CStr(tmp[from..])| < tmp.Length - from
    modifies tmp
    ensures tmp[..from] == old(tmp[..from])
    ensures var second := CutAt(old(CStr(tmp[from..])));
      if second.tail.None? then rest == None else action == second.head && rest == Some(CutAt(second.tail.value))
  {
    ghost var was := tmp[..];
    assert tmp[from..] == was[from..];
    var third := CutInPlace(tmp, from);
    if third.None? { return "", None; }
    ghost var mid := tmp[..];
    assert tmp[third.value..] == mid[third.value..];
    var last := CutInPlace(tmp, third.value);
    ghost var cut := tmp[..];
    SamePart(mid, cut, from, third.value);
    assert tmp[from..third.value] == cut[from..third.value] && tmp[third.value..] == cut[third.value..];
    action := CStr(tmp[from..third.value]);
    var source := None;
    if last.Some? {
      assert tmp[last.value..] == cut[last.value..];
      source := Some(CStr(tmp[last.value..]));
    }
    rest := Some(Cut(CStr(tmp[third.value..]), source));
  }

  lemma SamePart(a: seq<char>, b: seq<char>, from: nat, to: nat)
    requires from <= to <= |a| == |b| && a[..to] == b[..to]
    ensures a[from..to] == b[from..to] && a[..from] == b[..from]
  {
    assert a[..to][from..] == a[from..to] && b[..to][from..] == b[from..to];
    assert a[..to][..from] == a[..from] && b[..to][..from] == b[..from];
  }

  method CutEntry(tmp: array<char>) returns (r: Option<Parts>)
    requires |CStr(tmp[..])| < tmp.Length
    modifies tmp
    ensures r == Split(old(CStr(tmp[..])))
  {
    ghost var was := tmp[..];
    assert was[0..] == was && tmp[0..] == was;
    var second := CutInPlace(tmp, 0);
    if second.None? { return None; }
    ghost var mid := tmp[..];
    assert mid[0..second.value] == tmp[..second.value] && mid[second.value..] == tmp[second.value..];
    var action, rest := CutRest(tmp, second.value);
    if rest.None? { return None; }
    return Some(Parts(CStr(tmp[..second.value]), action, rest.value.head, rest.value.tail));
  }

  method ParseEntry(s: string) returns (r: Option<Capability>)
    requires NulFree(s)
    ensures r == ParseCapability(s)
  {
    var tmp := new char[ENTRY_SIZE];
    Snprintf(tmp, s);
    var parts := CutEntry(tmp);
    if parts.None? { return None; }
    var p := parts.value;
    return Assemble(p.domain, p.action, p.algorithm, p.source);
  }

  // ------------------------------------------------------------- the whole list

  datatype Loaded = Caps(caps: seq<Capability>) | TooManyCaps | BadEntry(entry: string)

  type EntryReader = string -> Option<Capability>

  /** Collects the capabilities of the entries behind those already `done`. */
  function Collect(read: EntryReader, entries: seq<string>, done: seq<Capability>): Loaded
    decreases |entries|
  {
    if entries == [] then Caps(done)
    else if |done| >= MAX_CAPS then TooManyCaps
    else
      match read(entries[0])
      case None => BadEntry(entries[0])
      case Some(c) => Collect(read, entries[1..], done + [c])
  }

  function Reader(): EntryReader { s => ParseCapability(s) }

  const LIST_SIZE: nat := 512

  function LoadCapabilities(text: string): Loaded { Collect(Reader(), Tokens(Clip(text, LIST_SIZE), '|'), []) }

  /** The loop over the entries of one device line. */
  method LoadList(text: string) returns (r: Loaded)
    requires NulFree(text)
    ensures r == LoadCapabilities(text)
  {
    var list := Clip(text, LIST_SIZE);
    assert forall c :: c in list ==> c in text;
    var caps: seq<Capability> := [];
    var token, rest := NextToken(list, '|');
    while token.Some?
      invariant |caps| <= MAX_CAPS && NulFree(rest) && (token.Some? ==> NulFree(token.value))
      invariant LoadCapabilities(text) == Collect(Reader(), if token.None? then [] else [token.value] + Tokens(rest, '|'), caps)
      decreases if token.Some? then 1 + |rest| else 0
    {
      if |caps| >= MAX_CAPS { return TooManyCaps; }
      assert ([token.value] + Tokens(rest, '|'))[1..] == Tokens(rest, '|');
      var c := ParseEntry(token.value);
      if c.None? { return BadEntry(token.value); }
      caps := caps + [c.value];
      token, rest := NextToken(rest, '|');
    }
    return Caps(caps);
  }

  /** A capability that requests can match: known names, a normal-form algorithm, some key source. */
  predicate Known(c: Capability) {
    c.domain != DomainUnknown && c.action != ActionUnknown && c.sources != {}
    && Normalize(c.algorithm, MAX_FIELD_LEN) == Some(c.algorithm)
  }

  lemma ParsedIsKnown(s: string)
    requires ParseCapability(s).Some?
    ensures Known(ParseCapability(s).value)
  {
    NormalizeIdempotent(Split(Clip(s, ENTRY_SIZE)).value.algorithm, MAX_FIELD_LEN);
  }

  lemma {:induction false} CollectedAreRead(read: EntryReader, entries: seq<string>, done: seq<Capability>)
    requires |done| <= MAX_CAPS
    ensures var r := Collect(read, entries, done);
      && (r.Caps? <==> |done| + |entries| <= MAX_CAPS && forall i :: 0 <= i < |entries| ==> read(entries[i]).Some?)
      && (r.Caps? ==> |r.caps| == |done| + |entries| && r.caps[..|done|] == done)
      && (r.Caps? ==> forall i :: 0 <= i < |entries| ==> read(entries[i]) == Some(r.caps[|done| + i]))
    decreases |entries|
  {
    if entries != [] && |done| < MAX_CAPS && read(entries[0]).Some? {
      var rest, c := entries[1..], read(entries[0]).value;
      CollectedAreRead(read, rest, done + [c]);
      var r := Collect(read, entries, done);
      assert forall i :: 0 < i < |entries| ==> entries[i] == rest[i - 1];
      if r.Caps? {
        assert r.caps[..|done| + 1][..|done|] == r.caps[..|done|] && r.caps[..|done| + 1][|done|] == r.caps[|done|];
        assert forall i :: 0 <= i < |rest| ==> rest[i] == entries[i + 1];
      }
    }
  }

  /** A list is accepted exactly when all its entries are and there are at most 48; then it has one
      capability for each entry, in order, all of them known. */
  lemma LoadedAreKnown(text: string)
    ensures var entries := Tokens(Clip(text, LIST_SIZE), '|'); var r := LoadCapabilities(text);
      && (r.Caps? <==> |entries| <= MAX_CAPS && forall i :: 0 <= i < |entries| ==> ParseCapability(entries[i]).Some?)
      && (r.Caps? ==> |r.caps| == |entries|)
      && (r.Caps? ==> forall i :: 0 <= i < |r.caps| ==> ParseCapability(entries[i]) == Some(r.caps[i]) && Known(r.caps[i]))
  {
    var entries, r := Tokens(Clip(text, LIST_SIZE), '|'), LoadCapabilities(text);
    CollectedAreRead(Reader(), entries, []);
    forall i | 0 <= i < |entries| ensures Reader()(entries[i]) == ParseCapability(entries[i]) {}
    if r.Caps? {
      forall i | 0 <= i < |r.caps| ensures ParseCapability(entries[i]) == Some(r.caps[i]) && Known(r.caps[i]) {
        assert Reader()(entries[i]) == Some(r.caps[i]);
        ParsedIsKnown(entries[i]);
      }
    }
  }

  /** The entries that the device file declares. */
  function Declared(text: string): seq<string> { Tokens(text, '|') }

  /** Every declared entry is loaded as it is exactly when the list has less than 512 bytes, or nothing
      but separators behind the first 511. */
  lemma NothingLostIff(text: string)
    ensures Tokens(Clip(text, LIST_SIZE), '|') == Declared(text)
      <==> |text| < LIST_SIZE || OnlyDelimiters(text[LIST_SIZE - 1..], '|')
  {
    TokensOfClip(text, LIST_SIZE, '|');
  }

  /** A list of less than 512 bytes is accepted exactly when all the declared entries are and there are
      at most 48; then it has one capability for each of them, in order. */
  lemma ShortListIsLoaded(text: string)
    requires |text| < LIST_SIZE
    ensures var entries := Declared(text); var r := LoadCapabilities(text);
      && (r.Caps? <==> |entries| <= MAX_CAPS && forall i :: 0 <= i < |entries| ==> ParseCapability(entries[i]).Some?)
      && (r.Caps? ==> |r.caps| == |entries| && forall i :: 0 <= i < |r.caps| ==> ParseCapability(entries[i]) == Some(r.caps[i]))
  {
    LoadedAreKnown(text);
  }

  /** What an accepted list of any length holds: the first of the declared entries; the others are lost
      without an error. */
  lemma LongListLosesItsTail(text: string)
    requires LoadCapabilities(text).Caps?
    ensures var caps := LoadCapabilities(text).caps;
      && |caps| == |Tokens(Clip(text, LIST_SIZE), '|')| <= |Declared(text)|
      && forall i :: 0 <= i < |caps| - 1 ==> ParseCapability(Declared(text)[i]) == Some(caps[i])
  {
    LoadedCount(text);
    TokensOfClip(text, LIST_SIZE, '|');
    var caps := LoadCapabilities(text).caps;
    forall i | 0 <= i < |caps| - 1 ensures ParseCapability(Declared(text)[i]) == Some(caps[i]) { DeclaredAt(text, i); }
  }

  /** The last of them may be read from a part of its text. */
  lemma LastEntryMayBeCut(text: string) returns (part: string)
    requires LoadCapabilities(text).Caps? && LoadCapabilities(text).caps != []
    ensures var last := |LoadCapabilities(text).caps| - 1;
      last < |Declared(text)| && part <= Declared(text)[last] && ParseCapability(part) == Some(LoadCapabilities(text).caps[last])
  {
    var last, kept := |LoadCapabilities(text).caps| - 1, Tokens(Clip(text, LIST_SIZE), '|');
    LoadedCount(text);
    LoadedAt(text, last);
    TokensOfClip(text, LIST_SIZE, '|');
    LastIsPart(kept, Declared(text), |kept|);
    part := kept[last];
  }

  lemma LastIsPart(kept: seq<string>, entries: seq<string>, n: nat)
    requires FirstTokens(kept, entries) && n == |kept|
    ensures n <= |entries| && (n > 0 ==> kept[n - 1] <= entries[n - 1])
  {
  }

  lemma LoadedCount(text: string)
    requires LoadCapabilities(text).Caps?
    ensures |LoadCapabilities(text).caps| == |Tokens(Clip(text, LIST_SIZE), '|')|
  {
    CollectedAreRead(Reader(), Tokens(Clip(text, LIST_SIZE), '|'), []);
  }

  lemma ReaderReads(entry: string)
    ensures Reader()(entry) == ParseCapability(entry)
  {
  }

  lemma CollectedAt(read: EntryReader, entries: seq<string>, i: nat)
    requires Collect(read, entries, []).Caps? && i < |entries|
    ensures |Collect(read, entries, []).caps| == |entries| && read(entries[i]) == Some(Collect(read, entries, []).caps[i])
  {
    CollectedAreRead(read, entries, []);
  }

  lemma LoadedAt(text: string, i: nat)
    requires LoadCapabilities(text).Caps? && i < |LoadCapabilities(text).caps|
    ensures i < |Tokens(Clip(text, LIST_SIZE), '|')|
    ensures ParseCapability(Tokens(Clip(text, LIST_SIZE), '|')[i]) == Some(LoadCapabilities(text).caps[i])
  {
    LoadedCount(text);
    CollectedAt(Reader(), Tokens(Clip(text, LIST_SIZE), '|'), i);
    ReaderReads(Tokens(Clip(text, LIST_SIZE), '|')[i]);
  }

  lemma DeclaredAt(text: string, i: nat)
    requires LoadCapabilities(text).Caps? && i + 1 < |LoadCapabilities(text).caps|
    ensures i < |Declared(text)| && ParseCapability(Declared(text)[i]) == Some(LoadCapabilities(text).caps[i])
  {
    LoadedCount(text);
    LoadedAt(text, i);
    TokensOfClip(text, LIST_SIZE, '|');
    assert Tokens(Clip(text, LIST_SIZE), '|')[i] == Declared(text)[i];
  }

  // ------------------------------------------------------------- spelling does not matter

  function Entry(p: Parts): string {
    p.domain + (":" + (p.action + (":" + (p.algorithm + if p.source.Some? then ":" + p.source.value else ""))))
  }

  predicate Plain(p: Parts) { ':' !in p.domain && ':' !in p.action && ':' !in p.algorithm }

  lemma CutOf(head: string, tail: string)
    requires ':' !in head
    ensures CutAt(head + (":" + tail)) == Cut(head, Some(tail)) && CutAt(head) == Cut(head, None)
  {
    SpanOf(head, ':', ":" + tail);
    SpanOf(head, ':', "");
    assert head + "" == head;
    var s := head + (":" + tail);
    assert s[..|head|] == head && s[|head| + 1..] == tail;
  }

  /** Cutting undoes writing the parts one after another. */
  lemma SplitEntry(p: Parts)
    requires Plain(p)
    ensures Split(Entry(p)) == Some(p)
  {
    var rest := if p.source.Some? then ":" + p.source.value else "";
    CutOf(p.domain, p.action + (":" + (p.algorithm + rest)));
    CutOf(p.action, p.algorithm + rest);
    if p.source.Some? {
      CutOf(p.algorithm, p.source.value);
    } else {
      CutOf(p.algorithm, "");
      assert p.algorithm + rest == p.algorithm;
    }
  }

  lemma SameName(a: string, b: string, n: string)
    requires Spells(a, n) && Spells(b, n)
    ensures ParseDomain(a) == ParseDomain(b) && ParseAction(a) == ParseAction(b)
  {
    SquashIffSpells(a, n);
    SquashIffSpells(b, n);
  }

  /** Entries whose parts differ in case, white space or the alias of the algorithm declare the same capability. */
  lemma SpellingIsIrrelevant(p: Parts, q: Parts, domain: string, action: string)
    requires Plain(p) && Plain(q) && |Entry(p)| < ENTRY_SIZE && |Entry(q)| < ENTRY_SIZE
    requires Spells(p.domain, domain) && Spells(q.domain, domain) && Spells(p.action, action) && Spells(q.action, action)
    requires p.source == q.source
    requires Normalize(p.algorithm, MAX_FIELD_LEN) == Normalize(q.algorithm, MAX_FIELD_LEN)
    ensures ParseCapability(Entry(p)) == ParseCapability(Entry(q))
  {
    EntryParses(p);
    EntryParses(q);
    SameName(p.domain, q.domain, domain);
    SameName(p.action, q.action, action);
  }

  /** A declared capability matches a request exactly when the domain and action names agree up to
      case and white space, the algorithm names have one normal form or the declared one is `auto`,
      and the key source is among the declared ones. */
  lemma MatchesUpToSpelling(p: Parts, d: Domain, a: Action, algorithm: string, source: nat)
    requires Plain(p) && |Entry(p)| < ENTRY_SIZE && ParseCapability(Entry(p)).Some?
    requires d != DomainUnknown && a != ActionUnknown && Normalize(algorithm, MAX_FIELD_LEN).Some?
    ensures CapMatches(ParseCapability(Entry(p)).value, Query(d, a, Normalize(algorithm, MAX_FIELD_LEN).value, source))
      <==> (&& Spells(p.domain, DomainToString(d)) && Spells(p.action, ActionToString(a))
            && (|| Normalize(p.algorithm, MAX_FIELD_LEN) == Normalize(algorithm, MAX_FIELD_LEN)
                || Normalize(p.algorithm, MAX_FIELD_LEN) == Some("auto"))
            && (source == 0 || source in if p.source.None? then ANY_SOURCE else KeySourceMask(p.source.value)))
  {
    EntryParses(p);
    DomainNames(p.domain, d);
    ActionNames(p.action, a);
    AssembledMatches(p, d, a, Normalize(algorithm, MAX_FIELD_LEN).value, source);
  }

  lemma EntryParses(p: Parts)
    requires Plain(p) && |Entry(p)| < ENTRY_SIZE
    ensures ParseCapability(Entry(p)) == Assemble(p.domain, p.action, p.algorithm, p.source)
  {
    SplitEntry(p);
  }

  lemma AssembledMatches(p: Parts, d: Domain, a: Action, name: string, source: nat)
    requires Assemble(p.domain, p.action, p.algorithm, p.source).Some? && d != DomainUnknown && a != ActionUnknown
    ensures CapMatches(Assemble(p.domain, p.action, p.algorithm, p.source).value, Query(d, a, name, source))
      <==> (&& ParseDomain(p.domain) == d && ParseAction(p.action) == a
            && Normalize(p.algorithm, MAX_FIELD_LEN) in {Some(name), Some("auto")}
            && (source == 0 || source in if p.source.None? then ANY_SOURCE else KeySourceMask(p.source.value)))
  {
  }
}
