/** Key references: printed by the client (src/client/api/ccm_api.c:23-33, 139-156), read and turned
    into a device hint by the server (src/server/service/scheduler.c:88-160). */
module KeyRefText {
  import opened Common
  import opened CStrings
  import Json
  import Numerals

  /** `Unif_KeyRef`; handles and keys are pointers. */
  datatype KeyRef = KeyRef(
    alg: nat, usage: nat, source: nat, keyIndex: nat, handle: nat, external: nat, keyId: string, deviceId: string)

  const TWO_32: nat := 0x1_0000_0000
  const TWO_64: nat := 0x1_0000_0000_0000_0000

  /** The C types of the fields. */
  predicate WellTyped(k: KeyRef) {
    && k.alg < TWO_32 && k.usage < TWO_32 && k.source < TWO_32 && k.keyIndex < TWO_32
    && k.handle < TWO_64 && k.external < TWO_64 && |k.keyId| <= 63 && |k.deviceId| <= 63
  }

  /** Enumerators of include/ccm.h. */
  predicate InRange(k: KeyRef) { k.alg <= 21 && k.usage <= 8 && k.source <= 4 }

  // ------------------------------------------------------------- printing

  function Digit(d: nat): (c: char)
    requires d < 16
    ensures '0' <= c <= '9' || 'a' <= c <= 'f'
  {
    if d < 10 then (48 + d) as char else (87 + d) as char
  }

  function Digits(n: nat, base: nat): (r: string)
    requires 2 <= base <= 16
    ensures |r| >= 1
  {
    if n < base then [Digit(n)] else Digits(n / base, base) + [Digit(n % base)]
  }

  predicate IsNumeral(s: string) {
    forall i :: 0 <= i < |s| ==> '0' <= s[i] <= '9' || 'a' <= s[i] <= 'f'
  }

  lemma {:induction false} DigitsAreNumerals(n: nat, base: nat)
    requires 2 <= base <= 16
    ensures IsNumeral(Digits(n, base))
  {
    if n >= base {
      var q, r := Split(n, base);
      DigitsAreNumerals(q, base);
      NumeralAppend(Digits(q, base), Digit(r));
    } else {
      NumeralAppend("", Digit(n));
    }
  }

  lemma Split(n: nat, base: nat) returns (q: nat, r: nat)
    requires 2 <= base <= 16 && n >= base
    ensures 0 < q < n && r < base && n == q * base + r && Digits(n, base) == Digits(q, base) + [Digit(r)]
  {
    q, r := Divided(n, base);
  }

  lemma Divided(n: nat, base: nat) returns (q: nat, r: nat)
    requires 2 <= base <= n
    ensures q == n / base && r == n % base && 0 < q < n && r < base && n == q * base + r
  {
    q, r := n / base, n % base;
    if q > 0 { TimesGrows(q, base); }
  }

  lemma TimesGrows(q: nat, base: nat)
    requires q > 0 && base >= 2
    ensures q < q * base
  {
  }

  lemma DigitIsDigit(d: nat)
    requires d < 16
    ensures Numerals.DigitOf(Digit(d)) == d
  {
  }

  /** The printed digits are the numeral of the number, for whoever reads positions. */
  lemma {:induction false} DigitsWrite(n: nat, base: nat)
    requires 2 <= base <= 16
    ensures Numerals.Writes(Digits(n, base), base, n)
  {
    if n < base {
      DigitIsDigit(n);
      Numerals.OneDigit(Digit(n), base);
    } else {
      var q, r := Split(n, base);
      DigitsWrite(q, base);
      DigitIsDigit(r);
      Numerals.NumeralAppend(Digits(q, base), Digit(r), base, q);
    }
  }

  lemma NumeralAppend(s: string, c: char)
    requires IsNumeral(s) && ('0' <= c <= '9' || 'a' <= c <= 'f')
    ensures IsNumeral(s + [c])
  {
  }

  function Power(b: nat, e: nat): nat { if e == 0 then 1 else b * Power(b, e - 1) }

  lemma {:induction false} DigitsLength(n: nat, base: nat, len: nat)
    requires 2 <= base <= 16 && len >= 1 && n < Power(base, len)
    ensures |Digits(n, base)| <= len
    decreases len
  {
    if n >= base && len > 1 {
      QuotientBelow(n, base, Power(base, len - 1));
      DigitsLength(n / base, base, len - 1);
    }
  }

  lemma QuotientBelow(n: nat, b: nat, p: nat)
    requires b > 0 && n < b * p
    ensures n / b < p
  {
    var q := n / b;
    assert b * q <= n;
    assert b * q < b * p;
  }

  /** `%lu` and the C library's `%p`. */
  function Decimal(n: nat): string { Digits(n, 10) }
  function Pointer(p: nat): string { if p == 0 then "(nil)" else "0x" + Digits(p, 16) }

  /** The text is that of a pointer: the hexadecimal numeral behind `0x`, or glibc's word for NULL. */
  predicate WritesPointer(s: string, p: nat) {
    if p == 0 then s == "(nil)" else |s| > 2 && s[0] == '0' && s[1] == 'x' && Numerals.Writes(s[2..], 16, p)
  }

  lemma NumbersArePrinted(n: nat)
    ensures Numerals.Writes(Decimal(n), 10, n) && WritesPointer(Pointer(n), n)
  {
    DigitsWrite(n, 10);
    DigitsWrite(n, 16);
    if n != 0 { assert Pointer(n)[2..] == Digits(n, 16); }
  }

  datatype Item = Item(name: string, text: string)

  function ItemText(i: Item): string { i.name + "=" + i.text }

  /** Appends one `name=text` with a separator unless the text is still empty. */
  function AddItem(s: string, i: Item): string {
    (if s == "" then "" else s + ";") + ItemText(i)
  }

  function AddItems(s: string, items: seq<Item>): string
    decreases |items|
  {
    if items == [] then s else AddItems(AddItem(s, items[0]), items[1..])
  }

  function NumberItems(k: KeyRef): seq<Item> {
    [Item("alg", Decimal(k.alg)), Item("usage", Decimal(k.usage)), Item("source", Decimal(k.source)),
     Item("key_index", Decimal(k.keyIndex)), Item("key_handle", Pointer(k.handle)),
     Item("external_key", Pointer(k.external))]
  }

  function IdItems(k: KeyRef): seq<Item> {
    (if k.keyId == "" then [] else [Item("key_id", k.keyId)])
    + (if k.deviceId == "" then [] else [Item("device_id", k.deviceId)])
  }

  function Items(k: KeyRef): seq<Item> { NumberItems(k) + IdItems(k) }

  /** What `append_key_ref` writes into an empty buffer. */
  function Printed(k: KeyRef): string { AddItems("", Items(k)) }

  lemma {:induction false} AddItemsConcat(s: string, a: seq<Item>, b: seq<Item>)
    ensures AddItems(s, a + b) == AddItems(AddItems(s, a), b)
    decreases |a|
  {
    if a == [] {
      assert a + b == b;
    } else {
      assert (a + b)[1..] == a[1..] + b;
      AddItemsConcat(AddItem(s, a[0]), a[1..], b);
    }
  }

  lemma {:induction false} AddItemsGrows(s: string, items: seq<Item>)
    ensures s <= AddItems(s, items)
    decreases |items|
  {
    if items != [] { AddItemsGrows(AddItem(s, items[0]), items[1..]); }
  }

  /** `append_token` and `append_ptr`, which differ in how the value is printed only. */
  method AppendItem(w: Json.Writer, i: Item) returns (ok: bool)
    requires w.Valid()
    modifies w`pos, w.buf
    ensures w.Valid()
    ensures ok == (|AddItem(old(w.Text()), i)| < w.buf.Length)
    ensures w.Text() == if ok then AddItem(old(w.Text()), i) else old(w.Text())
  {
    ghost var was := w.Text();
    assert |was| == w.pos;
    var sep := if w.pos == 0 then "" else ";";
    assert AddItem(was, i) == was + (sep + i.name + "=" + i.text);
    ok := w.AppendRaw(sep + i.name + "=" + i.text);
  }

  /** The two `append_raw` calls that write an id. */
  method AppendId(w: Json.Writer, i: Item) returns (ok: bool)
    requires w.Valid()
    modifies w`pos, w.buf
    ensures w.Valid()
    ensures ok == (|AddItem(old(w.Text()), i)| < w.buf.Length)
    ensures ok ==> w.Text() == AddItem(old(w.Text()), i)
  {
    ghost var was := w.Text();
    assert |was| == w.pos;
    var head := (if w.pos == 0 then "" else ";") + i.name + "=";
    assert AddItem(was, i) == (was + head) + i.text;
    ok := w.AppendRaw(head);
    if ok { ok := w.AppendRaw(i.text); }
  }

  /** `append_key_ref`, into a buffer that may already hold a key reference. */
  method AppendKeyRef(w: Json.Writer, k: KeyRef) returns (ok: bool)
    requires w.Valid()
    modifies w`pos, w.buf
    ensures w.Valid()
    ensures ok == (|AddItems(old(w.Text()), Items(k))| < w.buf.Length)
    ensures ok ==> w.Text() == AddItems(old(w.Text()), Items(k))
  {
    ghost var was := w.Text();
    AddItemsConcat(was, NumberItems(k), IdItems(k));
    AddItemsGrows(AddItems(was, NumberItems(k)), IdItems(k));
    ok := AppendNumbers(w, k);
    if !ok { return; }
    ghost var mid := w.Text();
    assert |mid| == w.pos;
    var ids := IdItems(k);
    if k.keyId != "" {
      assert ids[0] == Item("key_id", k.keyId);
      AddItemsGrows(AddItem(mid, ids[0]), ids[1..]);
      ok := AppendId(w, Item("key_id", k.keyId));
      if !ok { return; }
      assert ids[1..] == if k.deviceId == "" then [] else [Item("device_id", k.deviceId)];
    }
    ghost var end := w.Text();
    assert |end| == w.pos;
    if k.deviceId != "" {
      ok := AppendId(w, Item("device_id", k.deviceId));
    }
  }

  /** The six numbers of `append_key_ref`. */
  method AppendNumbers(w: Json.Writer, k: KeyRef) returns (ok: bool)
    requires w.Valid()
    modifies w`pos, w.buf
    ensures w.Valid()
    ensures ok == (|AddItems(old(w.Text()), NumberItems(k))| < w.buf.Length)
    ensures ok ==> w.Text() == AddItems(old(w.Text()), NumberItems(k))
  {
    ghost var was, all, n := w.Text(), NumberItems(k), 0;
    assert |was| == w.pos && all[n..] == all;
    ok := AppendNext(w, was, all, n, Item("alg", Decimal(k.alg)));
    if !ok { return; }
    ok := AppendNext(w, was, all, n + 1, Item("usage", Decimal(k.usage)));
    if !ok { return; }
    ok := AppendNext(w, was, all, n + 2, Item("source", Decimal(k.source)));
    if !ok { return; }
    ok := AppendLastThree(w, k, was, all);
  }

  method AppendLastThree(w: Json.Writer, k: KeyRef, ghost was: string, ghost all: seq<Item>) returns (ok: bool)
    requires w.Valid() && all == NumberItems(k) && AddItems(was, all) == AddItems(w.Text(), all[3..])
    modifies w`pos, w.buf
    ensures w.Valid()
    ensures ok ==> w.Text() == AddItems(was, all) && |w.Text()| < w.buf.Length
    ensures !ok ==> |AddItems(was, all)| >= w.buf.Length
  {
    ghost var n := 3;
    ok := AppendNext(w, was, all, n, Item("key_index", Decimal(k.keyIndex)));
    if !ok { return; }
    ok := AppendNext(w, was, all, n + 1, Item("key_handle", Pointer(k.handle)));
    if !ok { return; }
    ok := AppendNext(w, was, all, n + 2, Item("external_key", Pointer(k.external)));
    assert all[n + 3..] == [];
  }

  /** One `append_token` or `append_ptr` of the chain: item `n` of `all`. */
  method AppendNext(w: Json.Writer, ghost was: string, ghost all: seq<Item>, ghost n: nat, i: Item) returns (ok: bool)
    requires w.Valid() && n < |all| && all[n] == i
    requires AddItems(was, all) == AddItems(w.Text(), all[n..])
    modifies w`pos, w.buf
    ensures w.Valid()
    ensures AddItems(was, all) == if ok then AddItems(w.Text(), all[n + 1..]) else AddItems(old(w.Text()), all[n..])
    ensures if ok then |w.Text()| < w.buf.Length else |AddItems(was, all)| >= w.buf.Length
  {
    ghost var before := w.Text();
    assert all[n..][1..] == all[n + 1..];
    AddItemsGrows(AddItem(before, i), all[n + 1..]);
    ok := AppendItem(w, i);
    assert |w.Text()| == w.pos;
  }

  // ------------------------------------------------------------- reading

  predicate HasName(token: string, name: string) {
    |token| > |name| && token[..|name|] == name && token[|name|] == '='
  }

  /** The text behind the name in the first token with this name. */
  function FirstValue(tokens: seq<string>, name: string): Option<string> {
    if tokens == [] then None
    else if HasName(tokens[0], name) then Some(tokens[0][|name| + 1..])
    else FirstValue(tokens[1..], name)
  }

  /** `key_ref_get_token` into a buffer of `MAX_FIELD_LEN` bytes; `None` is its -1 return. */
  function GetToken(keyRef: string, name: string): Option<string> {
    if name == "" then None
    else
      var v := FirstValue(Tokens(Clip(keyRef, MAX_FIELD_LEN), ';'), name);
      if v.None? || v.value == "" then None else Some(Clip(v.value, MAX_FIELD_LEN))
  }

  method KeyRefGetToken(keyRef: string, name: string) returns (r: Option<string>)
    ensures r == GetToken(keyRef, name)
  {
    if keyRef == "" || name == "" { return None; }
    var tmp := Clip(keyRef, MAX_FIELD_LEN);
    ghost var all := Tokens(tmp, ';');
    var token, rest := NextToken(tmp, ';');
    while token.Some?
      invariant FirstValue(all, name) ==
        if token.None? then None else FirstValue([token.value] + Tokens(rest, ';'), name)
      decreases if token.Some? then 1 + |rest| else 0
    {
      var t := token.value;
      assert ([t] + Tokens(rest, ';'))[1..] == Tokens(rest, ';');
      if HasName(t, name) {
        var out := Clip(t[|name| + 1..], MAX_FIELD_LEN);
        return if out == "" then None else Some(out);
      }
      token, rest := NextToken(rest, ';');
    }
    return None;
  }

  predicate IsInternalIndex(keyRef: string) {
    var source := GetToken(keyRef, "source");
    source == Some("1") || source == Some("internal_index")
  }

  /** `key_ref_source_value`. */
  function SourceValue(keyRef: string): nat {
    match GetToken(keyRef, "source")
    case None => 0
    case Some(s) =>
      if s == "internal_index" || s == "1" then 1
      else if s == "session_handle" || s == "2" then 2
      else if s == "external_key" || s == "3" then 3
      else if s == "managed_key" || s == "4" then 4
      else 0
  }

  datatype Resolved = Hint(id: string) | Conflict | Unbound

  /** `resolve_device_hint_from_key_ref`. */
  function ResolveHint(deviceHint: string, keyRef: string): Resolved {
    var hint := Clip(deviceHint, MAX_FIELD_LEN);
    if !IsInternalIndex(keyRef) then Hint(hint)
    else
      match GetToken(keyRef, "device_id")
      case Some(id) => if hint != "" && hint != id then Conflict else Hint(id)
      case None => if hint != "" then Hint(hint) else Unbound
  }

  // ------------------------------------------------------------- what a printed text says

  /** The value that the first token of this name has in a text. */
  function Raw(text: string, name: string): Option<string> { FirstValue(Tokens(text, ';'), name) }

  /** An empty value counts as none. */
  function Visible(v: Option<string>): Option<string> { if v == Some("") then None else v }

  function Either(a: Option<string>, b: Option<string>): Option<string> { if a.Some? then a else b }

  lemma {:induction false} FirstValueConcat(a: seq<string>, b: seq<string>, name: string)
    ensures FirstValue(a + b, name) == Either(FirstValue(a, name), FirstValue(b, name))
  {
    if a == [] {
      assert a + b == b;
    } else {
      assert (a + b)[1..] == a[1..] + b;
      FirstValueConcat(a[1..], b, name);
    }
  }

  lemma RawOfTwo(a: string, b: string, name: string)
    ensures Raw(a + (";" + b), name) == Either(Raw(a, name), Raw(b, name))
  {
    TokensOfTwo(a, ';', b);
    FirstValueConcat(Tokens(a, ';'), Tokens(b, ';'), name);
  }

  lemma {:induction false} FirstValueIsShort(tokens: seq<string>, name: string, most: nat)
    requires forall j :: 0 <= j < |tokens| ==> |tokens[j]| <= most
    ensures FirstValue(tokens, name).Some? ==> |FirstValue(tokens, name).value| <= most
  {
    if tokens != [] {
      assert forall j :: 0 <= j < |tokens[1..]| ==> tokens[1..][j] == tokens[j + 1];
      FirstValueIsShort(tokens[1..], name, most);
    }
  }

  lemma {:induction false} FirstValueLacks(tokens: seq<string>, name: string, d: char)
    requires forall t :: t in tokens ==> d !in t
    ensures FirstValue(tokens, name).Some? ==> d !in FirstValue(tokens, name).value
  {
    if tokens != [] {
      assert tokens[0] in tokens && forall t :: t in tokens[1..] ==> t in tokens;
      FirstValueLacks(tokens[1..], name, d);
    }
  }

  /** In a text that the server's buffer holds, `key_ref_get_token` finds the first value. */
  lemma GetTokenIsRaw(text: string, name: string)
    requires |text| < MAX_FIELD_LEN && name != ""
    ensures GetToken(text, name) == Visible(Raw(text, name))
  {
    var tokens := Tokens(text, ';');
    forall j | 0 <= j < |tokens| ensures |tokens[j]| <= |text| { TokensAreShort(text, ';', j); }
    FirstValueIsShort(tokens, name, |text|);
  }

  /** No value that the server reads holds a separator. */
  lemma ValueHasNoSeparator(text: string, name: string)
    ensures GetToken(text, name).Some? ==> ';' !in GetToken(text, name).value
  {
    FirstValueLacks(Tokens(Clip(text, MAX_FIELD_LEN), ';'), name, ';');
  }

  /** A value up to its first separator, and what is behind it. */
  function Before(text: string): string { text[..Span(text, ';')] }
  function Behind(text: string): string { if Span(text, ';') < |text| then text[Span(text, ';') + 1..] else "" }

  predicate Word(s: string) { s != "" && '=' !in s && ';' !in s }

  predicate Named(i: Item) { Word(i.name) }

  predicate AllNamed(items: seq<Item>) { forall n :: 0 <= n < |items| ==> Named(items[n]) }

  /** What one printed item says about a name: the value is cut at its first separator, and the text
      behind that is read as further tokens. */
  function ItemSays(i: Item, name: string): Option<string> {
    if i.name == name then Some(Before(i.text)) else Raw(Behind(i.text), name)
  }

  /** What a printed list says: the first item that says something decides. */
  function ItemsSay(items: seq<Item>, name: string): Option<string> {
    if items == [] then None else Either(ItemSays(items[0], name), ItemsSay(items[1..], name))
  }

  lemma HasNameIff(own: string, text: string, name: string)
    requires '=' !in own && '=' !in name
    ensures HasName(own + ("=" + text), name) <==> own == name
    ensures own == name ==> (own + ("=" + text))[|name| + 1..] == text
  {
    var t := own + ("=" + text);
    SpanOf(own, '=', "=" + text);
    if HasName(t, name) {
      assert t == name + t[|name|..];
      SpanOf(name, '=', t[|name|..]);
    }
  }

  lemma FirstOfOne(t: string, name: string)
    ensures FirstValue([t], name) == if HasName(t, name) then Some(t[|name| + 1..]) else None
  {
    assert [t][1..] == [];
  }

  lemma RawOfOne(own: string, value: string, name: string)
    requires own != "" && '=' !in own && ';' !in own && ';' !in value && '=' !in name
    ensures Raw(own + ("=" + value), name) == if own == name then Some(value) else None
  {
    var t := own + ("=" + value);
    assert ';' !in t && t != "";
    TokensHead(t, "", ';');
    assert t + "" == t && Tokens("", ';') == [];
    HasNameIff(own, value, name);
    FirstOfOne(t, name);
  }

  lemma RawOfValue(own: string, value: string, tail: string, name: string)
    requires own != "" && '=' !in own && ';' !in own && ';' !in value && '=' !in name
    ensures Raw(own + ("=" + value) + (";" + tail), name) == if own == name then Some(value) else Raw(tail, name)
  {
    RawOfOne(own, value, name);
    RawOfTwo(own + ("=" + value), tail, name);
  }

  lemma SplitValue(own: string, value: string, rest: string)
    ensures own + "=" + (value + rest) == own + ("=" + value) + rest
  {
  }

  lemma RawOfItem(i: Item, name: string)
    requires Named(i) && '=' !in name
    ensures Raw(ItemText(i), name) == ItemSays(i, name)
  {
    var t := i.text;
    if Span(t, ';') < |t| {
      assert t == Before(t) + (";" + Behind(t));
      SplitValue(i.name, Before(t), ";" + Behind(t));
      RawOfValue(i.name, Before(t), Behind(t), name);
    } else {
      assert t == Before(t) + "";
      SplitValue(i.name, Before(t), "");
      RawOfOne(i.name, Before(t), name);
      assert i.name + ("=" + Before(t)) + "" == i.name + ("=" + Before(t));
      EmptySaysNothing(name);
    }
  }

  lemma EmptySaysNothing(name: string)
    ensures Raw("", name) == None
  {
    assert Tokens("", ';') == [];
  }

  lemma RawOfAddItem(s: string, i: Item, name: string)
    requires Named(i) && '=' !in name
    ensures Raw(AddItem(s, i), name) == Either(Raw(s, name), ItemSays(i, name))
  {
    RawOfItem(i, name);
    if s == "" {
      assert AddItem(s, i) == ItemText(i);
    } else {
      RawOfTwo(s, ItemText(i), name);
      assert AddItem(s, i) == s + (";" + ItemText(i));
    }
  }

  /** A printed list of items, read behind any text and with any characters in the values. */
  lemma {:induction false} RawOfItems(s: string, items: seq<Item>, name: string)
    requires AllNamed(items) && '=' !in name
    ensures Raw(AddItems(s, items), name) == Either(Raw(s, name), ItemsSay(items, name))
    decreases |items|
  {
    if items != [] {
      assert Named(items[0]);
      assert forall n :: 0 <= n < |items[1..]| ==> items[1..][n] == items[n + 1];
      RawOfAddItem(s, items[0], name);
      RawOfItems(AddItem(s, items[0]), items[1..], name);
    }
  }

  lemma {:induction false} ItemsSayConcat(a: seq<Item>, b: seq<Item>, name: string)
    ensures ItemsSay(a + b, name) == Either(ItemsSay(a, name), ItemsSay(b, name))
  {
    if a == [] {
      assert a + b == b;
    } else {
      assert (a + b)[1..] == a[1..] + b;
      ItemsSayConcat(a[1..], b, name);
    }
  }

  // ------------------------------------------------------------- the round trip

  function TextOf(items: seq<Item>, name: string): Option<string> {
    if items == [] then None else if items[0].name == name then Some(items[0].text) else TextOf(items[1..], name)
  }

  predicate Delimited(i: Item) { Named(i) && ';' !in i.text }

  predicate AllDelimited(items: seq<Item>) { forall n :: 0 <= n < |items| ==> Delimited(items[n]) }

  lemma NothingBehind(text: string, name: string)
    requires ';' !in text
    ensures Before(text) == text && Raw(Behind(text), name) == None
  {
  }

  lemma {:induction false} DelimitedItemsSay(items: seq<Item>, name: string)
    requires AllDelimited(items)
    ensures ItemsSay(items, name) == TextOf(items, name)
  {
    if items != [] {
      assert Delimited(items[0]);
      assert forall n :: 0 <= n < |items[1..]| ==> items[1..][n] == items[n + 1];
      NothingBehind(items[0].text, name);
      DelimitedItemsSay(items[1..], name);
    }
  }

  /** Reading back any printed list that the server's buffer can hold, whatever the values are. */
  lemma ItemsRoundTrip(items: seq<Item>, name: string)
    requires AllNamed(items) && |AddItems("", items)| < MAX_FIELD_LEN && name != "" && '=' !in name
    ensures GetToken(AddItems("", items), name) == Visible(ItemsSay(items, name))
    ensures AllDelimited(items) ==> GetToken(AddItems("", items), name) == Visible(TextOf(items, name))
  {
    GetTokenIsRaw(AddItems("", items), name);
    RawOfItems("", items, name);
    if AllDelimited(items) { DelimitedItemsSay(items, name); }
  }

  lemma {:induction false} TextAt(items: seq<Item>, j: nat)
    requires j < |items| && forall i :: 0 <= i < j ==> items[i].name != items[j].name
    ensures TextOf(items, items[j].name) == Some(items[j].text)
  {
    if j > 0 {
      assert items[0].name != items[j].name && items[1..][j - 1] == items[j];
      assert forall i :: 0 <= i < j - 1 ==> items[1..][i] == items[i + 1];
      TextAt(items[1..], j - 1);
    }
  }

  /** The first item of each name in a printed list is read as it is. */
  lemma ItemIsRead(items: seq<Item>, j: nat)
    requires AllDelimited(items) && AllNamed(items) && |AddItems("", items)| < MAX_FIELD_LEN
    requires j < |items| && items[j].text != "" && forall i :: 0 <= i < j ==> items[i].name != items[j].name
    ensures GetToken(AddItems("", items), items[j].name) == Some(items[j].text)
  {
    assert Named(items[j]);
    TextAt(items, j);
    ItemsRoundTrip(items, items[j].name);
  }

  lemma NumeralText(n: nat)
    ensures ';' !in Decimal(n) && ';' !in Pointer(n)
  {
    DigitsAreNumerals(n, 10);
    DigitsAreNumerals(n, 16);
  }

  lemma NumeralsAreDelimited(k: KeyRef)
    ensures AllDelimited(NumberItems(k)) && AllNamed(NumberItems(k))
  {
    NumeralText(k.alg);
    NumeralText(k.usage);
    NumeralText(k.source);
    NumeralText(k.keyIndex);
    NumeralText(k.handle);
    NumeralText(k.external);
    SixDelimited(Decimal(k.alg), Decimal(k.usage), Decimal(k.source), Decimal(k.keyIndex), Pointer(k.handle), Pointer(k.external));
  }

  lemma SixDelimited(a: string, b: string, c: string, d: string, e: string, f: string)
    requires ';' !in a && ';' !in b && ';' !in c && ';' !in d && ';' !in e && ';' !in f
    ensures AllDelimited([Item("alg", a), Item("usage", b), Item("source", c),
                          Item("key_index", d), Item("key_handle", e), Item("external_key", f)])
  {
    NamesAreWords();
  }

  lemma NamesAreWords()
    ensures Word("alg") && Word("usage") && Word("source") && Word("key_index") && Word("key_handle") && Word("external_key")
    ensures Word("key_id") && Word("device_id")
  {
  }

  lemma ItemsAreNamed(k: KeyRef)
    ensures AllNamed(Items(k))
  {
    NumeralsAreDelimited(k);
    NamesAreWords();
  }

  /** The numbers of a key reference by name. */
  function NumberText(k: KeyRef, name: string): Option<string> {
    if name == "alg" then Some(Decimal(k.alg))
    else if name == "usage" then Some(Decimal(k.usage))
    else if name == "source" then Some(Decimal(k.source))
    else if name == "key_index" then Some(Decimal(k.keyIndex))
    else if name == "key_handle" then Some(Pointer(k.handle))
    else if name == "external_key" then Some(Pointer(k.external))
    else None
  }

  /** The value of a field of a key reference, if it is printed. */
  function FieldText(k: KeyRef, name: string): Option<string> {
    if NumberText(k, name).Some? then NumberText(k, name)
    else if name == "key_id" && k.keyId != "" then Some(k.keyId)
    else if name == "device_id" && k.deviceId != "" then Some(k.deviceId)
    else None
  }

  function IdSays(own: string, id: string, name: string): Option<string> {
    if id == "" then None else ItemSays(Item(own, id), name)
  }

  /** What the text of a key reference says about a name: a number as it is, otherwise what the ids
      say, the key id first. */
  function Says(k: KeyRef, name: string): Option<string> {
    Either(NumberText(k, name), Either(IdSays("key_id", k.keyId, name), IdSays("device_id", k.deviceId, name)))
  }

  lemma {:induction false} TextOfConcat(a: seq<Item>, b: seq<Item>, name: string)
    ensures TextOf(a + b, name) == Either(TextOf(a, name), TextOf(b, name))
  {
    if a == [] {
      assert a + b == b;
    } else {
      assert (a + b)[1..] == a[1..] + b;
      TextOfConcat(a[1..], b, name);
    }
  }

  lemma TextOfSix(a: Item, b: Item, c: Item, d: Item, e: Item, f: Item, name: string)
    ensures TextOf([a, b, c, d, e, f], name) ==
      if a.name == name then Some(a.text) else if b.name == name then Some(b.text)
      else if c.name == name then Some(c.text) else if d.name == name then Some(d.text)
      else if e.name == name then Some(e.text) else if f.name == name then Some(f.text) else None
  {
    TextOfThree(d, e, f, name);
    TextOfThree(a, b, c, name);
    TextOfConcat([a, b, c], [d, e, f], name);
    assert [a, b, c] + [d, e, f] == [a, b, c, d, e, f];
  }

  lemma TextOfThree(a: Item, b: Item, c: Item, name: string)
    ensures TextOf([a, b, c], name) ==
      if a.name == name then Some(a.text) else if b.name == name then Some(b.text)
      else if c.name == name then Some(c.text) else None
  {
    TextOfConcat([a], [b, c], name);
    TextOfConcat([b], [c], name);
    assert [a] + [b, c] == [a, b, c] && [b] + [c] == [b, c];
  }

  lemma NumbersSay(k: KeyRef, name: string)
    ensures ItemsSay(NumberItems(k), name) == NumberText(k, name)
  {
    NumeralsAreDelimited(k);
    DelimitedItemsSay(NumberItems(k), name);
    var n := NumberItems(k);
    TextOfSix(n[0], n[1], n[2], n[3], n[4], n[5], name);
  }

  lemma ItemsSayAll(k: KeyRef, name: string)
    ensures ItemsSay(Items(k), name) == Says(k, name)
  {
    var a := if k.keyId == "" then [] else [Item("key_id", k.keyId)];
    var b := if k.deviceId == "" then [] else [Item("device_id", k.deviceId)];
    assert ItemsSay(a, name) == IdSays("key_id", k.keyId, name);
    assert ItemsSay(b, name) == IdSays("device_id", k.deviceId, name);
    NumbersSay(k, name);
    ItemsSayConcat(a, b, name);
    ItemsSayConcat(NumberItems(k), a + b, name);
  }

  /** What the server reads from the text of a key reference, whatever the ids contain. */
  lemma KeyRefRead(k: KeyRef, name: string)
    requires |Printed(k)| < MAX_FIELD_LEN && name != "" && '=' !in name
    ensures GetToken(Printed(k), name) == Visible(Says(k, name))
  {
    ItemsAreNamed(k);
    ItemsRoundTrip(Items(k), name);
    ItemsSayAll(k, name);
  }

  predicate NoSeparator(k: KeyRef) { ';' !in k.keyId && ';' !in k.deviceId }

  lemma NoSeparatorSays(k: KeyRef, name: string)
    requires NoSeparator(k)
    ensures Visible(Says(k, name)) == FieldText(k, name)
  {
    NothingBehind(k.keyId, name);
    NothingBehind(k.deviceId, name);
    NumbersAreVisible(k, name);
  }

  lemma NumbersAreVisible(k: KeyRef, name: string)
    ensures NumberText(k, name) != Some("")
  {
  }

  predicate Recovered(k: KeyRef, name: string) { GetToken(Printed(k), name) == FieldText(k, name) }

  lemma SeparatorIsLost(k: KeyRef)
    requires !NoSeparator(k)
    ensures !Recovered(k, if ';' in k.keyId then "key_id" else "device_id")
  {
    var name := if ';' in k.keyId then "key_id" else "device_id";
    ValueHasNoSeparator(Printed(k), name);
  }

  lemma RecoveredWithoutSeparator(k: KeyRef, name: string)
    requires NoSeparator(k) && |Printed(k)| < MAX_FIELD_LEN && name != "" && '=' !in name
    ensures Recovered(k, name)
  {
    KeyRefRead(k, name);
    NoSeparatorSays(k, name);
  }

  /** Every field of a key reference is recovered, and nothing else is found in it, exactly when
      neither id holds a separator. */
  lemma KeyRefRoundTrip(k: KeyRef)
    requires |Printed(k)| < MAX_FIELD_LEN
    ensures (forall name :: name != "" && '=' !in name ==> Recovered(k, name)) <==> NoSeparator(k)
  {
    if NoSeparator(k) {
      forall name | name != "" && '=' !in name ensures Recovered(k, name) { RecoveredWithoutSeparator(k, name); }
    } else {
      SeparatorIsLost(k);
    }
  }

  /** The server's token of this name is a numeral of `n`, or a pointer's text. */
  predicate ReadsNumber(text: string, name: string, n: nat) {
    GetToken(text, name).Some? && Numerals.Writes(GetToken(text, name).value, 10, n)
  }

  predicate ReadsPointer(text: string, name: string, p: nat) {
    GetToken(text, name).Some? && WritesPointer(GetToken(text, name).value, p)
  }

  lemma NumberIsRead(k: KeyRef, name: string, n: nat)
    requires |Printed(k)| < MAX_FIELD_LEN && name != "" && '=' !in name
    ensures NumberText(k, name) == Some(Decimal(n)) ==> ReadsNumber(Printed(k), name, n)
    ensures NumberText(k, name) == Some(Pointer(n)) ==> ReadsPointer(Printed(k), name, n)
  {
    KeyRefRead(k, name);
    NumbersArePrinted(n);
  }

  /** All six numbers of a key reference are read as what they are, whatever the ids contain. */
  lemma KeyNumbersAreRead(k: KeyRef)
    requires |Printed(k)| < MAX_FIELD_LEN
    ensures ReadsNumber(Printed(k), "alg", k.alg) && ReadsNumber(Printed(k), "usage", k.usage)
    ensures ReadsNumber(Printed(k), "source", k.source) && ReadsNumber(Printed(k), "key_index", k.keyIndex)
    ensures ReadsPointer(Printed(k), "key_handle", k.handle) && ReadsPointer(Printed(k), "external_key", k.external)
  {
    NamesAreWords();
    NumberIsRead(k, "alg", k.alg);
    NumberIsRead(k, "usage", k.usage);
    NumberIsRead(k, "source", k.source);
    NumberIsRead(k, "key_index", k.keyIndex);
    NumberIsRead(k, "key_handle", k.handle);
    NumberIsRead(k, "external_key", k.external);
  }

  /** Two key references in one text: the second answers only for what the first does not say. */
  lemma SecondKeyIsShadowed(k1: KeyRef, k2: KeyRef, name: string)
    requires name != "" && '=' !in name && |AddItems(Printed(k1), Items(k2))| < MAX_FIELD_LEN
    ensures GetToken(AddItems(Printed(k1), Items(k2)), name) == Visible(Either(Says(k1, name), Says(k2, name)))
  {
    ItemsAreNamed(k1);
    ItemsAreNamed(k2);
    AddItemsConcat("", Items(k1), Items(k2));
    ItemsRoundTrip(Items(k1) + Items(k2), name);
    ItemsSayConcat(Items(k1), Items(k2), name);
    ItemsSayAll(k1, name);
    ItemsSayAll(k2, name);
  }

  // ------------------------------------------------------------- lengths

  lemma NumberLengths(k: KeyRef)
    requires WellTyped(k)
    ensures |Decimal(k.alg)| <= 10 && |Decimal(k.usage)| <= 10 && |Decimal(k.source)| <= 10 && |Decimal(k.keyIndex)| <= 10
    ensures |Pointer(k.handle)| <= 18 && |Pointer(k.external)| <= 18
    ensures InRange(k) ==> |Decimal(k.alg)| <= 2 && |Decimal(k.usage)| == 1 && |Decimal(k.source)| == 1
  {
    var ten, sixteen, two := 10, 16, 2;
    assert TWO_32 < Power(10, ten) by { PowersOfTen(); }
    assert TWO_64 == Power(16, sixteen) by { PowersOfSixteen(); }
    DigitsLength(k.alg, 10, ten);
    DigitsLength(k.usage, 10, ten);
    DigitsLength(k.source, 10, ten);
    DigitsLength(k.keyIndex, 10, ten);
    DigitsLength(k.handle, 16, sixteen);
    DigitsLength(k.external, 16, sixteen);
  }

  lemma PowersOfTen()
    ensures Power(10, 10) == 10_000_000_000
  {
    assert Power(10, 2) == 100;
    assert Power(10, 4) == 10 * (10 * Power(10, 2)) == 10_000;
    assert Power(10, 6) == 10 * (10 * Power(10, 4)) == 1_000_000;
    assert Power(10, 8) == 10 * (10 * Power(10, 6)) == 100_000_000;
  }

  lemma PowersOfSixteen()
    ensures Power(16, 16) == TWO_64
  {
    assert Power(16, 2) == 0x100;
    assert Power(16, 4) == 16 * (16 * Power(16, 2)) == 0x1_0000;
    assert Power(16, 6) == 16 * (16 * Power(16, 4)) == 0x100_0000;
    assert Power(16, 8) == 16 * (16 * Power(16, 6)) == 0x1_0000_0000;
    assert Power(16, 10) == 16 * (16 * Power(16, 8)) == 0x100_0000_0000;
    assert Power(16, 12) == 16 * (16 * Power(16, 10)) == 0x1_0000_0000_0000;
    assert Power(16, 14) == 16 * (16 * Power(16, 12)) == 0x100_0000_0000_0000;
  }

  /** Length of a printed list: texts, names, equal signs and separators. */
  function TotalLength(items: seq<Item>): nat {
    if items == [] then 0 else 2 + |items[0].name| + |items[0].text| + TotalLength(items[1..])
  }

  lemma {:induction false} AddItemsLength(s: string, items: seq<Item>)
    requires s != ""
    ensures |AddItems(s, items)| == |s| + TotalLength(items)
    decreases |items|
  {
    if items != [] { AddItemsLength(AddItem(s, items[0]), items[1..]); }
  }

  lemma {:induction false} TotalLengthConcat(a: seq<Item>, b: seq<Item>)
    ensures TotalLength(a + b) == TotalLength(a) + TotalLength(b)
  {
    if a == [] {
      assert a + b == b;
    } else {
      assert (a + b)[1..] == a[1..] + b;
      TotalLengthConcat(a[1..], b);
    }
  }

  lemma NumbersLength(k: KeyRef)
    ensures TotalLength(NumberItems(k)) == 57 + |Decimal(k.alg)| + |Decimal(k.usage)| + |Decimal(k.source)|
      + |Decimal(k.keyIndex)| + |Pointer(k.handle)| + |Pointer(k.external)|
  {
    var n := NumberItems(k);
    assert n == [n[0]] + ([n[1]] + ([n[2]] + ([n[3]] + ([n[4]] + [n[5]]))));
    TotalLengthConcat([n[0]], [n[1]] + ([n[2]] + ([n[3]] + ([n[4]] + [n[5]]))));
    TotalLengthConcat([n[1]], [n[2]] + ([n[3]] + ([n[4]] + [n[5]])));
    TotalLengthConcat([n[2]], [n[3]] + ([n[4]] + [n[5]]));
    TotalLengthConcat([n[3]], [n[4]] + [n[5]]);
    TotalLengthConcat([n[4]], [n[5]]);
  }

  lemma PrintedLength(k: KeyRef)
    ensures |Printed(k)| == 56 + |Decimal(k.alg)| + |Decimal(k.usage)| + |Decimal(k.source)| + |Decimal(k.keyIndex)|
      + |Pointer(k.handle)| + |Pointer(k.external)|
      + (if k.keyId == "" then 0 else 8 + |k.keyId|) + (if k.deviceId == "" then 0 else 11 + |k.deviceId|)
  {
    var items := Items(k);
    AddItemsLength(AddItem("", items[0]), items[1..]);
    NumbersLength(k);
    TotalLengthConcat(NumberItems(k), IdItems(k));
    TotalLengthConcat(if k.keyId == "" then [] else [Item("key_id", k.keyId)],
                      if k.deviceId == "" then [] else [Item("device_id", k.deviceId)]);
  }

  /** With enumerators in range a key reference takes at most 251 bytes, so the server's 256-byte
      field always holds it. */
  lemma KeyRefFits(k: KeyRef)
    requires WellTyped(k) && InRange(k)
    ensures |Printed(k)| <= 251 < MAX_FIELD_LEN
  {
    NumberLengths(k);
    PrintedLength(k);
  }

  // ------------------------------------------------------------- the source and the device

  lemma SeparatorBehind(s: string, items: seq<Item>)
    requires s != "" && items != []
    ensures s + ";" <= AddItems(s, items)
  {
    AddItemsGrows(AddItem(s, items[0]), items[1..]);
    assert AddItem(s, items[0]) == s + ";" + ItemText(items[0]);
  }

  /** A text that starts with some complete items gives their values even when the server has to cut
      it behind them. */
  lemma FrontIsRead(front: string, text: string, name: string, value: string)
    requires front + ";" <= text && |front| + 1 < MAX_FIELD_LEN && name != ""
    requires Raw(front, name) == Some(value) && 0 < |value| < MAX_FIELD_LEN
    ensures GetToken(text, name) == Some(value)
  {
    var kept := Clip(text, MAX_FIELD_LEN);
    var rest := kept[|front| + 1..];
    assert kept[..|front| + 1] == text[..|front| + 1] == front + ";";
    assert kept == front + (";" + rest);
    RawOfTwo(front, rest, name);
  }

  /** The first three numbers, which hold the source. */
  function FrontItems(k: KeyRef): seq<Item> {
    [Item("alg", Decimal(k.alg)), Item("usage", Decimal(k.usage)), Item("source", Decimal(k.source))]
  }

  function RestItems(k: KeyRef): seq<Item> {
    [Item("key_index", Decimal(k.keyIndex)), Item("key_handle", Pointer(k.handle)),
     Item("external_key", Pointer(k.external))] + IdItems(k)
  }

  lemma FrontSaysSource(k: KeyRef)
    ensures Raw(AddItems("", FrontItems(k)), "source") == Some(Decimal(k.source))
  {
    var n := NumberItems(k);
    NumeralsAreDelimited(k);
    assert Delimited(n[0]) && Delimited(n[1]) && Delimited(n[2]);
    RawOfItems("", FrontItems(k), "source");
    DelimitedItemsSay(FrontItems(k), "source");
    TextOfThree(n[0], n[1], n[2], "source");
  }

  lemma FrontIsShort(k: KeyRef)
    requires WellTyped(k)
    ensures |AddItems("", FrontItems(k))| <= 49
  {
    NumberLengths(k);
    ThreeItemsLength(Item("alg", Decimal(k.alg)), Item("usage", Decimal(k.usage)), Item("source", Decimal(k.source)));
  }

  lemma ThreeItemsLength(a: Item, b: Item, c: Item)
    ensures |AddItems("", [a, b, c])| == |a.name| + |a.text| + |b.name| + |b.text| + |c.name| + |c.text| + 5
  {
    assert [a, b, c] == [a] + ([b] + [c]);
    AddItemsConcat("", [a], [b] + [c]);
    OneItemLength(a);
    AddItemsLength(AddItems("", [a]), [b] + [c]);
    TotalLengthConcat([b], [c]);
    OneItemLength(b);
    OneItemLength(c);
  }

  lemma OneItemLength(i: Item)
    ensures |AddItems("", [i])| == |i.name| + |i.text| + 1 && TotalLength([i]) == 2 + |i.name| + |i.text|
  {
    assert AddItems(AddItem("", i), []) == AddItem("", i);
    assert TotalLength([]) == 0 && [i][1..] == [];
  }

  /** The source comes before the ids, so it is recovered whatever the ids contain, and even from a
      text that the server has to cut. */
  lemma SourceRecovered(k: KeyRef)
    requires WellTyped(k)
    ensures GetToken(Printed(k), "source") == Some(Decimal(k.source))
  {
    var front := AddItems("", FrontItems(k));
    assert Items(k) == FrontItems(k) + RestItems(k);
    AddItemsConcat("", FrontItems(k), RestItems(k));
    FrontIsShort(k);
    FrontSaysSource(k);
    assert front != "";
    SeparatorBehind(front, RestItems(k));
    NumberLengths(k);
    FrontIsRead(front, Printed(k), "source", Decimal(k.source));
  }

  lemma DecimalOfDigit(n: nat)
    requires n < TWO_32
    ensures n < 10 ==> Decimal(n) == [Digit(n)]
    ensures n >= 10 ==> 2 <= |Decimal(n)| <= 10
  {
    var ten := 10;
    PowersOfTen();
    DigitsLength(n, 10, ten);
  }

  lemma SourceRecoveredAsNumber(k: KeyRef)
    requires WellTyped(k)
    ensures SourceValue(Printed(k)) == if 1 <= k.source <= 4 then k.source else 0
    ensures IsInternalIndex(Printed(k)) <==> k.source == 1
  {
    SourceRecovered(k);
    DecimalOfDigit(k.source);
  }

  /** The words for the sources of a key, beside the numbers of include/ccm.h. */
  lemma SourceWords(text: string)
    ensures SourceValue(text) == 1 <==> GetToken(text, "source") in {Some("1"), Some("internal_index")}
    ensures SourceValue(text) == 2 <==> GetToken(text, "source") in {Some("2"), Some("session_handle")}
    ensures SourceValue(text) == 3 <==> GetToken(text, "source") in {Some("3"), Some("external_key")}
    ensures SourceValue(text) == 4 <==> GetToken(text, "source") in {Some("4"), Some("managed_key")}
    ensures IsInternalIndex(text) <==> SourceValue(text) == 1
  {
  }

  /** A key of any other source leaves the device to the hint, whatever its ids say. */
  lemma OtherKeysFollowTheHint(k: KeyRef, hint: string)
    requires WellTyped(k) && k.source != 1 && |hint| < MAX_FIELD_LEN
    ensures ResolveHint(hint, Printed(k)) == Hint(hint)
  {
    SourceRecoveredAsNumber(k);
  }

  /** A device that the key id names behind its first separator. */
  function Injected(k: KeyRef): Option<string> { Raw(Behind(k.keyId), "device_id") }

  function DeviceRaw(k: KeyRef): Option<string> {
    Either(Injected(k), if k.deviceId == "" then None else Some(Before(k.deviceId)))
  }

  /** The device that the server reads: an injected one if there is one, else the key's own up to its
      first separator. */
  function DeviceSeen(k: KeyRef): Option<string> { Visible(DeviceRaw(k)) }

  /** How a request with this device in its key reference and this hint is bound. */
  function Resolve(hint: string, device: Option<string>): Resolved {
    match device
    case Some(id) => if hint != "" && hint != id then Conflict else Hint(id)
    case None => if hint != "" then Hint(hint) else Unbound
  }

  /** Where an internal-index key goes, whatever its ids contain: to the device that the server sees;
      to the hint only when it sees none; nowhere on a conflict, or when there is neither. */
  lemma InternalKeyResolves(k: KeyRef, hint: string)
    requires WellTyped(k) && |Printed(k)| < MAX_FIELD_LEN && k.source == 1 && |hint| < MAX_FIELD_LEN
    ensures ResolveHint(hint, Printed(k)) == Resolve(hint, DeviceSeen(k))
  {
    SourceRecoveredAsNumber(k);
    KeyRefRead(k, "device_id");
    RawSays(k);
  }

  /** The key id injects no device, or this same one, and the device id itself has no separator. */
  predicate OwnDeviceNamed(k: KeyRef) {
    ';' !in k.deviceId && (Injected(k) == None || Injected(k) == Some(k.deviceId))
  }

  /** That is exactly when the server sees the key's own device. */
  lemma OwnDeviceIsSeen(k: KeyRef)
    requires k.deviceId != ""
    ensures DeviceSeen(k) == Some(k.deviceId) <==> OwnDeviceNamed(k)
  {
    FirstValueLacks(Tokens(Behind(k.keyId), ';'), "device_id", ';');
    assert ';' !in Before(k.deviceId);
    if ';' !in k.deviceId { NothingBehind(k.deviceId, "device_id"); }
  }

  lemma RawSays(k: KeyRef)
    ensures Says(k, "device_id") == DeviceRaw(k)
  {
    if k.keyId == "" { EmptySaysNothing("device_id"); }
  }

  lemma BehindFront(front: string, tail: string)
    requires ';' !in front
    ensures Behind(front + (";" + tail)) == tail
  {
    SpanOf(front, ';', ";" + tail);
  }

  /** The device that the server sees in the texts of two key references. */
  function HybridSeen(k1: KeyRef, k2: KeyRef): Option<string> { Visible(Either(DeviceRaw(k1), DeviceRaw(k2))) }

  /** The same for two key references in one text, of which the first is of an internal index. */
  lemma HybridResolves(k1: KeyRef, k2: KeyRef, hint: string)
    requires WellTyped(k1) && k1.source == 1 && |hint| < MAX_FIELD_LEN && |AddItems(Printed(k1), Items(k2))| < MAX_FIELD_LEN
    ensures ResolveHint(hint, AddItems(Printed(k1), Items(k2))) == Resolve(hint, HybridSeen(k1, k2))
  {
    HybridIsInternal(k1, k2);
    SecondKeyIsShadowed(k1, k2, "device_id");
    RawSays(k1);
    RawSays(k2);
  }

  lemma HybridIsInternal(k1: KeyRef, k2: KeyRef)
    requires WellTyped(k1) && k1.source == 1 && |AddItems(Printed(k1), Items(k2))| < MAX_FIELD_LEN
    ensures IsInternalIndex(AddItems(Printed(k1), Items(k2)))
  {
    SecondKeyIsShadowed(k1, k2, "source");
    DecimalOfDigit(k1.source);
  }

  lemma HybridLength(k1: KeyRef, k2: KeyRef)
    ensures |AddItems(Printed(k1), Items(k2))| == |Printed(k1)| + 1 + |Printed(k2)|
  {
    var items := Items(k2);
    PrintedLength(k1);
    AddItemsLength(Printed(k1), items);
    AddItemsLength(AddItem("", items[0]), items[1..]);
  }

  /** A key id that injects: the request is bound to the device it names, not to the key's own. */
  lemma InjectedDeviceWins(k: KeyRef, front: string, other: string)
    requires k.keyId == front + (";" + ItemText(Item("device_id", other)))
    requires ';' !in front && ';' !in other && other != ""
    ensures DeviceSeen(k) == Some(other)
  {
    var injected := Item("device_id", other);
    BehindFront(front, ItemText(injected));
    RawOfItem(injected, injected.name);
    NothingBehind(other, injected.name);
  }
}
