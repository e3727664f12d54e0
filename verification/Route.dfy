/** The client's calls: `route_buffered` (src/client/api/ccm_api.c:125-182), which prints parameters,
    key and buffers into the options of a request, and why every such request arrives. */
module Route {
  import opened Common
  import opened CStrings
  import opened Names
  import opened RequestParser
  import opened RequestCodec
  import opened RequestRoundTrip
  import opened Framing
  import opened KeyRefText
  import Json

  /** `Unif_AlgParams`, with the pointer to its extra parameters. */
  datatype AlgParams = AlgParams(algId: nat, mode: nat, padding: nat, hashAlg: nat, securityLevel: nat, exParams: nat)

  /** `Unif_Buffer`: the client prints the pointer, not the bytes. */
  datatype Buffer = Buffer(data: nat, len: nat)

  /** The arguments of `route_buffered`; `None` is a NULL pointer. */
  datatype Call = Call(
    requestId: string, domain: string, action: string, alg: Option<AlgParams>, key: Option<KeyRef>,
    primary: Option<Buffer>, auxIn: Option<Buffer>, output: Option<Buffer>)

  const KEY_REF_SIZE: nat := 512
  const PAYLOAD_SIZE: nat := 1024

  predicate AlgTyped(a: Option<AlgParams>) {
    a.Some? ==>
      && a.value.algId < TWO_32 && a.value.mode < TWO_32 && a.value.padding < TWO_32 && a.value.hashAlg < TWO_32
      && a.value.securityLevel < TWO_32 && a.value.exParams < TWO_64
  }

  predicate BufferTyped(b: Option<Buffer>) { b.Some? ==> b.value.data < TWO_64 && b.value.len < TWO_32 }

  /** The C types of the arguments. */
  predicate CallTyped(c: Call) {
    && AlgTyped(c.alg) && (c.key.Some? ==> WellTyped(c.key.value))
    && BufferTyped(c.primary) && BufferTyped(c.auxIn) && BufferTyped(c.output)
  }

  // ------------------------------------------------------------- printing a call

  function AlgItems(a: Option<AlgParams>): seq<Item> {
    if a.None? then []
    else
      [Item("mode", Decimal(a.value.mode)), Item("padding", Decimal(a.value.padding)),
       Item("hash_alg", Decimal(a.value.hashAlg)), Item("security_level", Decimal(a.value.securityLevel)),
       Item("ex_params", Pointer(a.value.exParams))]
  }

  function BufferItems(name: string, b: Option<Buffer>): seq<Item> {
    if b.None? then [] else [Item(name, Pointer(b.value.data)), Item("len", Decimal(b.value.len))]
  }

  function PayloadItems(c: Call): seq<Item> { AlgItems(c.alg) + BufferItems("data", c.primary) }
  function AuxItems(c: Call): seq<Item> { BufferItems("aux", c.auxIn) + BufferItems("out", c.output) }
  function KeyItems(c: Call): seq<Item> { if c.key.None? then [] else Items(c.key.value) }

  /** `alg_or_auto`. */
  function AlgIdOf(c: Call): nat { if c.alg.None? then 0 else c.alg.value.algId }

  function RoutedOptions(c: Call): Options {
    Options(Clip(c.requestId, MAX_ID_LEN), AddItems("", KeyItems(c)), AddItems("", PayloadItems(c)), AddItems("", AuxItems(c)),
            "", "", "")
  }

  predicate OptionsHaveRoom(o: Options) {
    |o.keyRef| < KEY_REF_SIZE && |o.payload| < PAYLOAD_SIZE && |o.auxPayload| < PAYLOAD_SIZE
  }

  /** `append_alg_params`. */
  method AppendAlgParams(w: Json.Writer, a: AlgParams) returns (ok: bool)
    requires w.Valid()
    modifies w`pos, w.buf
    ensures w.Valid()
    ensures ok == (|AddItems(old(w.Text()), AlgItems(Some(a)))| < w.buf.Length)
    ensures ok ==> w.Text() == AddItems(old(w.Text()), AlgItems(Some(a)))
  {
    ghost var was, all, n := w.Text(), AlgItems(Some(a)), 0;
    assert |was| == w.pos && all[n..] == all;
    ok := AppendNext(w, was, all, n, Item("mode", Decimal(a.mode)));
    if !ok { return; }
    ok := AppendNext(w, was, all, n + 1, Item("padding", Decimal(a.padding)));
    if !ok { return; }
    ok := AppendLastAlgParams(w, a, was, all);
  }

  method AppendLastAlgParams(w: Json.Writer, a: AlgParams, ghost was: string, ghost all: seq<Item>) returns (ok: bool)
    requires w.Valid() && all == AlgItems(Some(a)) && AddItems(was, all) == AddItems(w.Text(), all[2..])
    modifies w`pos, w.buf
    ensures w.Valid()
    ensures ok == (|AddItems(was, all)| < w.buf.Length)
    ensures ok ==> w.Text() == AddItems(was, all)
  {
    ghost var n := 2;
    ok := AppendNext(w, was, all, n, Item("hash_alg", Decimal(a.hashAlg)));
    if !ok { return; }
    ok := AppendNext(w, was, all, n + 1, Item("security_level", Decimal(a.securityLevel)));
    if !ok { return; }
    ok := AppendNext(w, was, all, n + 2, Item("ex_params", Pointer(a.exParams)));
    assert all[n + 3..] == [];
  }

  /** `append_buffer`. */
  method AppendBuffer(w: Json.Writer, name: string, b: Buffer) returns (ok: bool)
    requires w.Valid()
    modifies w`pos, w.buf
    ensures w.Valid()
    ensures ok == (|AddItems(old(w.Text()), BufferItems(name, Some(b)))| < w.buf.Length)
    ensures ok ==> w.Text() == AddItems(old(w.Text()), BufferItems(name, Some(b)))
  {
    ghost var was, all, n := w.Text(), BufferItems(name, Some(b)), 0;
    assert |was| == w.pos && all[n..] == all;
    ok := AppendNext(w, was, all, n, Item(name, Pointer(b.data)));
    if !ok { return; }
    ok := AppendNext(w, was, all, n + 1, Item("len", Decimal(b.len)));
    assert all[n + 2..] == [];
  }

  function IfFits(text: string, size: nat): Option<string> { if |text| < size then Some(text) else None }

  lemma TwoLists(a: seq<Item>, b: seq<Item>)
    ensures AddItems("", a + b) == AddItems(AddItems("", a), b)
    ensures |AddItems("", a)| <= |AddItems("", a + b)|
  {
    AddItemsConcat("", a, b);
    AddItemsGrows(AddItems("", a), b);
  }

  method PrintPayload(c: Call) returns (r: Option<string>)
    ensures r == IfFits(AddItems("", PayloadItems(c)), PAYLOAD_SIZE)
  {
    TwoLists(AlgItems(c.alg), BufferItems("data", c.primary));
    var w := new Json.Writer(PAYLOAD_SIZE);
    if c.alg.Some? {
      var ok := AppendAlgParams(w, c.alg.value);
      if !ok { return None; }
    }
    if c.primary.Some? {
      var ok := AppendBuffer(w, "data", c.primary.value);
      if !ok { return None; }
    }
    assert |w.Text()| == w.pos;
    return Some(w.buf[..w.pos]);
  }

  method PrintAux(c: Call) returns (r: Option<string>)
    ensures r == IfFits(AddItems("", AuxItems(c)), PAYLOAD_SIZE)
  {
    TwoLists(BufferItems("aux", c.auxIn), BufferItems("out", c.output));
    var w := new Json.Writer(PAYLOAD_SIZE);
    if c.auxIn.Some? {
      var ok := AppendBuffer(w, "aux", c.auxIn.value);
      if !ok { return None; }
    }
    if c.output.Some? {
      var ok := AppendBuffer(w, "out", c.output.value);
      if !ok { return None; }
    }
    assert |w.Text()| == w.pos;
    return Some(w.buf[..w.pos]);
  }

  method PrintKey(c: Call) returns (r: Option<string>)
    ensures r == IfFits(AddItems("", KeyItems(c)), KEY_REF_SIZE)
  {
    var w := new Json.Writer(KEY_REF_SIZE);
    if c.key.Some? {
      var ok := AppendKeyRef(w, c.key.value);
      if !ok { return None; }
    }
    assert |w.Text()| == w.pos;
    return Some(w.buf[..w.pos]);
  }

  /** `route_buffered`: no room for an option comes before every other error. */
  method RouteBuffered(c: Call, w: Json.Writer) returns (st: ClientStatus)
    requires w.Valid() && w.pos == 0
    modifies w`pos, w.buf
    ensures w.Valid()
    ensures !OptionsHaveRoom(RoutedOptions(c)) ==> st == BufferTooSmall
    ensures OptionsHaveRoom(RoutedOptions(c)) ==>
      && (st.InvalidArgument? <==> c.requestId == "")
      && (st.UnsupportedAlgorithm? <==> c.requestId != "" && AlgorithmName(AlgIdOf(c)).None?)
    ensures OptionsHaveRoom(RoutedOptions(c)) && c.requestId != "" && AlgorithmName(AlgIdOf(c)).Some? ==>
      var message := Message(Fields(c.domain, c.action, AlgorithmName(AlgIdOf(c)).value, RoutedOptions(c)));
      && (st.CcmOk? <==> |message| + 1 < w.buf.Length)
      && (st.CcmOk? ==> w.Text() == message + "\n")
  {
    var payload := PrintPayload(c);
    var key := PrintKey(c);
    var aux := PrintAux(c);
    if payload.None? || key.None? || aux.None? { return BufferTooSmall; }
    var o := Options(Clip(c.requestId, MAX_ID_LEN), key.value, payload.value, aux.value, "", "", "");
    assert o == RoutedOptions(c);
    st := BuildJson(c.domain, c.action, AlgIdOf(c), o, w);
  }

  // ------------------------------------------------------------- lengths

  predicate ShortItem(i: Item) { |i.name| + |i.text| <= 28 }

  predicate AllShort(items: seq<Item>) { forall n :: 0 <= n < |items| ==> ShortItem(items[n]) }

  lemma {:induction false} ShortTotal(items: seq<Item>)
    requires AllShort(items)
    ensures TotalLength(items) <= 30 * |items|
  {
    if items != [] {
      assert ShortItem(items[0]);
      assert forall n :: 0 <= n < |items[1..]| ==> items[1..][n] == items[n + 1];
      ShortTotal(items[1..]);
    }
  }

  lemma ListLength(items: seq<Item>)
    ensures |AddItems("", items)| <= TotalLength(items)
  {
    if items != [] { AddItemsLength(AddItem("", items[0]), items[1..]); }
  }

  lemma NumberIsShort(n: nat)
    ensures n < TWO_32 ==> |Decimal(n)| <= 10
    ensures n < TWO_64 ==> |Pointer(n)| <= 18
  {
    var ten, sixteen := 10, 16;
    PowersOfTen();
    PowersOfSixteen();
    if n < TWO_32 { DigitsLength(n, 10, ten); }
    if n < TWO_64 { DigitsLength(n, 16, sixteen); }
  }

  lemma AlgItemsAreShort(a: Option<AlgParams>)
    requires AlgTyped(a)
    ensures AllShort(AlgItems(a)) && |AlgItems(a)| <= 5
  {
    if a.Some? {
      NumberIsShort(a.value.mode);
      NumberIsShort(a.value.padding);
      NumberIsShort(a.value.hashAlg);
      NumberIsShort(a.value.securityLevel);
      NumberIsShort(a.value.exParams);
    }
  }

  lemma BufferItemsAreShort(name: string, b: Option<Buffer>)
    requires BufferTyped(b) && |name| <= 4
    ensures AllShort(BufferItems(name, b)) && |BufferItems(name, b)| <= 2
  {
    if b.Some? {
      NumberIsShort(b.value.data);
      NumberIsShort(b.value.len);
    }
  }

  lemma KeyIsShort(k: KeyRef)
    requires WellTyped(k)
    ensures |Printed(k)| <= 277
  {
    NumberLengths(k);
    PrintedLength(k);
  }

  /** The buffers of `route_buffered` always hold what it prints into them. */
  lemma OptionsAlwaysFit(c: Call)
    requires CallTyped(c)
    ensures OptionsHaveRoom(RoutedOptions(c))
    ensures |RoutedOptions(c).payload| <= 210 && |RoutedOptions(c).auxPayload| <= 120 && |RoutedOptions(c).keyRef| <= 277
  {
    AlgItemsAreShort(c.alg);
    BufferItemsAreShort("data", c.primary);
    BufferItemsAreShort("aux", c.auxIn);
    BufferItemsAreShort("out", c.output);
    ShortTotal(PayloadItems(c));
    ShortTotal(AuxItems(c));
    ListLength(PayloadItems(c));
    ListLength(AuxItems(c));
    if c.key.Some? { KeyIsShort(c.key.value); }
  }

  // ------------------------------------------------------------- the numbers can be read

  lemma AlgItemsAreDelimited(a: Option<AlgParams>)
    ensures AllDelimited(AlgItems(a))
  {
    if a.Some? {
      NumeralText(a.value.mode);
      NumeralText(a.value.padding);
      NumeralText(a.value.hashAlg);
      NumeralText(a.value.securityLevel);
      NumeralText(a.value.exParams);
      AlgWords();
    }
  }

  lemma AlgWords()
    ensures Word("mode") && Word("padding") && Word("hash_alg") && Word("security_level") && Word("ex_params")
  {
  }

  lemma BufferWords()
    ensures Word("data") && Word("aux") && Word("out") && Word("len")
  {
  }

  lemma BufferItemsAreDelimited(name: string, b: Option<Buffer>)
    requires Word(name)
    ensures AllDelimited(BufferItems(name, b))
  {
    if b.Some? {
      NumeralText(b.value.data);
      NumeralText(b.value.len);
      BufferWords();
    }
  }

  lemma DelimitedTogether(a: seq<Item>, b: seq<Item>)
    requires AllDelimited(a) && AllDelimited(b)
    ensures AllDelimited(a + b) && AllNamed(a + b)
  {
  }

  predicate Readable(items: seq<Item>) {
    AllDelimited(items) && AllNamed(items) && |AddItems("", items)| < MAX_FIELD_LEN
  }

  /** Item `j` is the first of its name. */
  predicate FirstNamed(items: seq<Item>, j: nat, name: string) {
    j < |items| && items[j].name == name && forall i :: 0 <= i < j ==> items[i].name != name
  }

  lemma TextIsRead(items: seq<Item>, j: nat, name: string, text: string)
    requires Readable(items) && FirstNamed(items, j, name) && items[j].text == text != ""
    ensures GetToken(AddItems("", items), name) == Some(text)
  {
    ItemIsRead(items, j);
  }

  /** What the first item of its name holds is what is read. */
  lemma NumberAt(items: seq<Item>, line: string, j: nat, name: string, n: nat)
    requires Readable(items) && line == AddItems("", items) && FirstNamed(items, j, name) && items[j].text == Decimal(n)
    ensures ReadsNumber(line, name, n)
  {
    NumbersArePrinted(n);
    TextIsRead(items, j, name, Decimal(n));
  }

  lemma PointerAt(items: seq<Item>, line: string, j: nat, name: string, p: nat)
    requires Readable(items) && line == AddItems("", items) && FirstNamed(items, j, name) && items[j].text == Pointer(p)
    ensures ReadsPointer(line, name, p)
  {
    NumbersArePrinted(p);
    TextIsRead(items, j, name, Pointer(p));
  }

  lemma PayloadIsReadable(c: Call)
    requires CallTyped(c)
    ensures Readable(PayloadItems(c)) && AddItems("", PayloadItems(c)) == RoutedOptions(c).payload
  {
    OptionsAlwaysFit(c);
    AlgItemsAreDelimited(c.alg);
    BufferWords();
    BufferItemsAreDelimited("data", c.primary);
    DelimitedTogether(AlgItems(c.alg), BufferItems("data", c.primary));
  }

  lemma AuxIsReadable(c: Call)
    requires CallTyped(c)
    ensures Readable(AuxItems(c)) && AddItems("", AuxItems(c)) == RoutedOptions(c).auxPayload
  {
    OptionsAlwaysFit(c);
    BufferWords();
    BufferItemsAreDelimited("aux", c.auxIn);
    BufferItemsAreDelimited("out", c.output);
    DelimitedTogether(BufferItems("aux", c.auxIn), BufferItems("out", c.output));
  }

  /** Where the items of a call stand. */
  lemma ParametersStand(items: seq<Item>, a: AlgParams, b: Option<Buffer>)
    requires items == AlgItems(Some(a)) + BufferItems("data", b)
    ensures FirstNamed(items, 0, "mode") && FirstNamed(items, 1, "padding") && FirstNamed(items, 2, "hash_alg")
    ensures FirstNamed(items, 3, "security_level") && FirstNamed(items, 4, "ex_params")
    ensures items[0].text == Decimal(a.mode) && items[1].text == Decimal(a.padding) && items[2].text == Decimal(a.hashAlg)
    ensures items[3].text == Decimal(a.securityLevel) && items[4].text == Pointer(a.exParams)
  {
  }

  lemma BufferStands(front: seq<Item>, name: string, b: Buffer)
    requires forall i :: 0 <= i < |front| ==> front[i].name != name
    ensures var items, j := front + BufferItems(name, Some(b)), |front|;
      && FirstNamed(items, j, name) && items[j].text == Pointer(b.data) && items[j + 1].text == Decimal(b.len)
      && (name != "len" && (forall i :: 0 <= i < |front| ==> front[i].name != "len") ==> FirstNamed(items, j + 1, "len"))
  {
  }

  lemma OtherNames(a: Option<AlgParams>)
    ensures forall i :: 0 <= i < |AlgItems(a)| ==> AlgItems(a)[i].name != "data" && AlgItems(a)[i].name != "len"
  {
  }

  /** The parameters of a call are read as what they are. */
  lemma ParametersAreRead(c: Call, line: string)
    requires CallTyped(c) && c.alg.Some? && line == RoutedOptions(c).payload
    ensures var a := c.alg.value;
      && ReadsNumber(line, "mode", a.mode) && ReadsNumber(line, "padding", a.padding)
      && ReadsNumber(line, "hash_alg", a.hashAlg) && ReadsNumber(line, "security_level", a.securityLevel)
      && ReadsPointer(line, "ex_params", a.exParams)
  {
    var items, a := PayloadItems(c), c.alg.value;
    PayloadIsReadable(c);
    ParametersStand(items, a, c.primary);
    FiveAreRead(items, line, a);
  }

  lemma FiveAreRead(items: seq<Item>, line: string, a: AlgParams)
    requires Readable(items) && line == AddItems("", items)
    requires FirstNamed(items, 0, "mode") && FirstNamed(items, 1, "padding") && FirstNamed(items, 2, "hash_alg")
    requires FirstNamed(items, 3, "security_level") && FirstNamed(items, 4, "ex_params")
    requires items[0].text == Decimal(a.mode) && items[1].text == Decimal(a.padding) && items[2].text == Decimal(a.hashAlg)
    requires items[3].text == Decimal(a.securityLevel) && items[4].text == Pointer(a.exParams)
    ensures ReadsNumber(line, "mode", a.mode) && ReadsNumber(line, "padding", a.padding)
    ensures ReadsNumber(line, "hash_alg", a.hashAlg) && ReadsNumber(line, "security_level", a.securityLevel)
    ensures ReadsPointer(line, "ex_params", a.exParams)
  {
    NumberAt(items, line, 0, "mode", a.mode);
    NumberAt(items, line, 1, "padding", a.padding);
    NumberAt(items, line, 2, "hash_alg", a.hashAlg);
    NumberAt(items, line, 3, "security_level", a.securityLevel);
    PointerAt(items, line, 4, "ex_params", a.exParams);
  }

  /** So are the address and the length of the data. */
  lemma DataIsRead(c: Call, line: string)
    requires CallTyped(c) && c.primary.Some? && line == RoutedOptions(c).payload
    ensures ReadsPointer(line, "data", c.primary.value.data) && ReadsNumber(line, "len", c.primary.value.len)
  {
    PayloadIsReadable(c);
    OtherNames(c.alg);
    BufferStands(AlgItems(c.alg), "data", c.primary.value);
    PointerAt(PayloadItems(c), line, |AlgItems(c.alg)|, "data", c.primary.value.data);
    NumberAt(PayloadItems(c), line, |AlgItems(c.alg)| + 1, "len", c.primary.value.len);
  }

  /** And those of the auxiliary buffers, except that both lengths have one name: the first is read. */
  lemma AuxInIsRead(c: Call, line: string)
    requires CallTyped(c) && c.auxIn.Some? && line == RoutedOptions(c).auxPayload
    ensures ReadsPointer(line, "aux", c.auxIn.value.data) && ReadsNumber(line, "len", c.auxIn.value.len)
  {
    AuxIsReadable(c);
    PointerAt(AuxItems(c), line, 0, "aux", c.auxIn.value.data);
    NumberAt(AuxItems(c), line, 1, "len", c.auxIn.value.len);
  }

  lemma OutputIsRead(c: Call, line: string)
    requires CallTyped(c) && c.output.Some? && line == RoutedOptions(c).auxPayload
    ensures ReadsPointer(line, "out", c.output.value.data)
    ensures c.auxIn.None? ==> ReadsNumber(line, "len", c.output.value.len)
  {
    AuxIsReadable(c);
    var front := BufferItems("aux", c.auxIn);
    BufferStands(front, "out", c.output.value);
    PointerAt(AuxItems(c), line, |front|, "out", c.output.value.data);
    if c.auxIn.None? { NumberAt(AuxItems(c), line, |front| + 1, "len", c.output.value.len); }
  }

  // ------------------------------------------------------------- printed lists can be sent

  predicate AllClean(items: seq<Item>) { forall i :: 0 <= i < |items| ==> Json.Clean(ItemText(items[i])) }

  lemma {:induction false} AddItemsClean(s: string, items: seq<Item>)
    requires Json.Clean(s) && AllClean(items)
    ensures Json.Clean(AddItems(s, items))
    decreases |items|
  {
    if items != [] {
      assert Json.Clean(ItemText(items[0]));
      assert forall i :: 0 <= i < |items[1..]| ==> items[1..][i] == items[i + 1];
      AddItemsClean(AddItem(s, items[0]), items[1..]);
    }
  }

  lemma NumeralClean(n: nat, name: string)
    requires Json.Clean(name)
    ensures Json.Clean(ItemText(Item(name, Decimal(n)))) && Json.Clean(ItemText(Item(name, Pointer(n))))
  {
    DigitsAreNumerals(n, 10);
    DigitsAreNumerals(n, 16);
  }

  lemma FrontClean(k: KeyRef)
    ensures AllClean(FrontItems(k))
  {
    NumeralClean(k.alg, "alg");
    NumeralClean(k.usage, "usage");
    NumeralClean(k.source, "source");
  }

  lemma MiddleClean(k: KeyRef)
    ensures AllClean([Item("key_index", Decimal(k.keyIndex)), Item("key_handle", Pointer(k.handle)),
                      Item("external_key", Pointer(k.external))])
  {
    NumeralClean(k.keyIndex, "key_index");
    NumeralClean(k.handle, "key_handle");
    NumeralClean(k.external, "external_key");
  }

  lemma CleanTogether(a: seq<Item>, b: seq<Item>)
    requires AllClean(a) && AllClean(b)
    ensures AllClean(a + b)
  {
  }

  lemma AlgItemsClean(a: Option<AlgParams>)
    ensures AllClean(AlgItems(a))
  {
    if a.Some? {
      NumeralClean(a.value.mode, "mode");
      NumeralClean(a.value.padding, "padding");
      NumeralClean(a.value.hashAlg, "hash_alg");
      NumeralClean(a.value.securityLevel, "security_level");
      NumeralClean(a.value.exParams, "ex_params");
    }
  }

  lemma BufferItemsClean(name: string, b: Option<Buffer>)
    requires Json.Clean(name)
    ensures AllClean(BufferItems(name, b))
  {
    if b.Some? {
      NumeralClean(b.value.data, name);
      NumeralClean(b.value.len, "len");
    }
  }

  predicate IdsClean(k: KeyRef) { Json.Clean(k.keyId) && Json.Clean(k.deviceId) }

  lemma IdItemsClean(k: KeyRef)
    requires IdsClean(k)
    ensures AllClean(IdItems(k))
  {
    assert Json.Clean(ItemText(Item("key_id", k.keyId))) && Json.Clean(ItemText(Item("device_id", k.deviceId)));
  }

  lemma KeyItemsClean(k: KeyRef)
    requires IdsClean(k)
    ensures AllClean(Items(k))
  {
    FrontClean(k);
    MiddleClean(k);
    IdItemsClean(k);
    var middle := [Item("key_index", Decimal(k.keyIndex)), Item("key_handle", Pointer(k.handle)),
                   Item("external_key", Pointer(k.external))];
    CleanTogether(middle, IdItems(k));
    CleanTogether(FrontItems(k), middle + IdItems(k));
    assert Items(k) == FrontItems(k) + (middle + IdItems(k));
  }

  lemma KeyNameHasNoEquals(key: Key)
    ensures '=' !in KeyName(key)
  {
  }

  lemma EmptyIsSendable()
    ensures Sendable("")
  {
    forall key: Key ensures "" != KeyName(key) {}
  }

  lemma EqualsInList(items: seq<Item>)
    requires items != []
    ensures '=' in AddItems("", items)
  {
    var first := ItemText(items[0]);
    AddItemsGrows(AddItem("", items[0]), items[1..]);
    assert AddItem("", items[0]) == first && first[|items[0].name|] == '=';
    assert AddItems("", items)[|items[0].name|] == '=';
  }

  /** A printed list that needs no escape is never the name of a field, so it survives the trip. */
  lemma ListIsSendable(items: seq<Item>)
    requires AllClean(items)
    ensures Sendable(AddItems("", items))
  {
    if items == [] {
      EmptyIsSendable();
    } else {
      AddItemsClean("", items);
      EqualsInList(items);
      forall key: Key ensures AddItems("", items) != KeyName(key) { KeyNameHasNoEquals(key); }
    }
  }

  lemma PrintedIsSendable(k: KeyRef)
    requires IdsClean(k)
    ensures Sendable(Printed(k))
  {
    KeyItemsClean(k);
    ListIsSendable(Items(k));
  }

  // ------------------------------------------------------------- requests that arrive

  /** What the client must observe: values that can be sent and fit, known names, a line that fits. */
  ghost predicate GoodRequest(domain: string, action: string, algId: nat, o: Options) {
    && AlgorithmName(algId).Some? && Sendable(domain) && Sendable(action) && OptionsSendable(o)
    && |o.requestId| < MAX_ID_LEN && |domain| < MAX_FIELD_LEN && |action| < MAX_FIELD_LEN
    && ParseDomain(domain) != DomainUnknown && ParseAction(action) != ActionUnknown
    && |Message(Fields(domain, action, AlgorithmName(algId).value, o))| + 1 < LINE_SIZE
  }

  /** What a message takes: each name and value, their quotes, a colon and a comma. */
  function Bulk(fs: seq<Field>): nat {
    if fs == [] then 0 else |Name(fs[0])| + |fs[0].value| + 6 + Bulk(fs[1..])
  }

  lemma {:induction false} RenderLength(fs: seq<Field>, first: bool)
    requires forall i :: 0 <= i < |fs| ==> Json.Clean(fs[i].value)
    ensures |Render(fs, first)| == if first && fs != [] then Bulk(fs) - 1 else Bulk(fs)
  {
    if fs != [] {
      Json.EscapeIsIdentity(fs[0].value);
      assert forall i :: 0 <= i < |fs[1..]| ==> fs[1..][i] == fs[i + 1];
      RenderLength(fs[1..], false);
    }
  }

  lemma {:induction false} BulkConcat(a: seq<Field>, b: seq<Field>)
    ensures Bulk(a + b) == Bulk(a) + Bulk(b)
  {
    if a == [] {
      assert a + b == b;
    } else {
      assert (a + b)[1..] == a[1..] + b;
      BulkConcat(a[1..], b);
    }
  }

  lemma HeadBulk(domain: string, action: string, algorithm: string, o: Options)
    ensures Bulk(HeadFields(domain, action, algorithm, o)) == 55 + |o.requestId| + |domain| + |action| + |algorithm|
  {
    var h := HeadFields(domain, action, algorithm, o);
    assert h == [h[0]] + ([h[1]] + ([h[2]] + [h[3]]));
    BulkConcat([h[0]], [h[1]] + ([h[2]] + [h[3]]));
    BulkConcat([h[1]], [h[2]] + [h[3]]);
    BulkConcat([h[2]], [h[3]]);
  }

  lemma OptionalBulk(k: Key, v: string)
    ensures Bulk(Optional(k, v)) <= |KeyName(k)| + 6 + |v|
  {
    if v != "" { assert Optional(k, v)[1..] == []; }
  }

  function OptionsLength(o: Options): nat {
    |o.keyRef| + |o.payload| + |o.auxPayload| + |o.deviceHint| + |o.preference| + |o.sequence|
  }

  lemma OptionsBulk(o: Options)
    ensures Bulk(OptionFields(o)) <= 90 + OptionsLength(o)
  {
    var o1, o2, o3 := Optional(KeyKeyRef, o.keyRef), Optional(KeyPayload, o.payload), Optional(KeyAux, o.auxPayload);
    var o4, o5, o6 := Optional(KeyHint, o.deviceHint), Optional(KeyPreference, o.preference), Optional(KeySequence, o.sequence);
    BulkConcat(o1, o2);
    BulkConcat(o1 + o2, o3);
    BulkConcat(o1 + o2 + o3, o4);
    BulkConcat(o1 + o2 + o3 + o4, o5);
    BulkConcat(o1 + o2 + o3 + o4 + o5, o6);
    OptionalBulk(KeyKeyRef, o.keyRef);
    OptionalBulk(KeyPayload, o.payload);
    OptionalBulk(KeyAux, o.auxPayload);
    OptionalBulk(KeyHint, o.deviceHint);
    OptionalBulk(KeyPreference, o.preference);
    OptionalBulk(KeySequence, o.sequence);
  }

  lemma MessageFits(domain: string, action: string, name: string, o: Options)
    requires Sendable(domain) && Sendable(action) && Sendable(name) && OptionsSendable(o) && |name| < 20
    requires |o.requestId| < MAX_ID_LEN && |domain| < MAX_FIELD_LEN && |action| < MAX_FIELD_LEN && OptionsLength(o) <= 1200
    ensures |Message(Fields(domain, action, name, o))| + 1 < LINE_SIZE
  {
    FieldsSendable(domain, action, name, o);
    HeadBulk(domain, action, name, o);
    OptionsBulk(o);
    BulkConcat(HeadFields(domain, action, name, o), OptionFields(o));
    RenderLength(Fields(domain, action, name, o), true);
  }

  /** Sendable options of 1200 bytes together always make a request that arrives. */
  lemma ShortRequestIsGood(domain: string, action: string, algId: nat, o: Options)
    requires AlgorithmName(algId).Some? && Sendable(domain) && Sendable(action) && OptionsSendable(o)
    requires |o.requestId| < MAX_ID_LEN && |domain| < MAX_FIELD_LEN && |action| < MAX_FIELD_LEN && OptionsLength(o) <= 1200
    requires ParseDomain(domain) != DomainUnknown && ParseAction(action) != ActionUnknown
    ensures GoodRequest(domain, action, algId, o)
  {
    AlgorithmNameTravels(algId);
    MessageFits(domain, action, AlgorithmName(algId).value, o);
  }

  /** Names that the API's functions pass. */
  ghost predicate NamesKnown(c: Call) {
    && AlgorithmName(AlgIdOf(c)).Some? && Sendable(Clip(c.requestId, MAX_ID_LEN))
    && Sendable(c.domain) && Sendable(c.action) && |c.domain| < MAX_FIELD_LEN && |c.action| < MAX_FIELD_LEN
    && ParseDomain(c.domain) != DomainUnknown && ParseAction(c.action) != ActionUnknown
  }

  lemma PayloadIsSendable(c: Call)
    ensures Sendable(RoutedOptions(c).payload)
  {
    AlgItemsClean(c.alg);
    BufferItemsClean("data", c.primary);
    ListIsSendable(PayloadItems(c));
  }

  lemma AuxIsSendable(c: Call)
    ensures Sendable(RoutedOptions(c).auxPayload)
  {
    BufferItemsClean("aux", c.auxIn);
    BufferItemsClean("out", c.output);
    ListIsSendable(AuxItems(c));
  }

  lemma KeyIsSendable(c: Call)
    requires c.key.Some? ==> IdsClean(c.key.value)
    ensures Sendable(RoutedOptions(c).keyRef)
  {
    if c.key.Some? { KeyItemsClean(c.key.value); }
    ListIsSendable(KeyItems(c));
  }

  lemma RoutedLength(o: Options)
    requires |o.payload| <= 210 && |o.auxPayload| <= 120 && |o.keyRef| <= 277
    requires o.deviceHint == "" && o.preference == "" && o.sequence == ""
    ensures OptionsLength(o) <= 1200
  {
  }

  /** Every call with known names and ids that need no escape makes a request that arrives, whatever
      parameters, key and buffers it carries. */
  lemma RoutedCallIsGood(c: Call)
    requires CallTyped(c) && NamesKnown(c) && (c.key.Some? ==> IdsClean(c.key.value))
    ensures GoodRequest(c.domain, c.action, AlgIdOf(c), RoutedOptions(c))
  {
    var o := RoutedOptions(c);
    OptionsAlwaysFit(c);
    RoutedLength(o);
    PayloadIsSendable(c);
    AuxIsSendable(c);
    KeyIsSendable(c);
    EmptyIsSendable();
    assert OptionsSendable(o);
    ShortRequestIsGood(c.domain, c.action, AlgIdOf(c), o);
  }
}
