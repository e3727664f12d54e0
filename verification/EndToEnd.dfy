/** Properties that cross the whole path of a request: built by the client, sent as a line, parsed by
    the server, resolved to a device and run. */
module EndToEnd {
  import opened Common
  import opened CStrings
  import opened Names
  import opened RequestParser
  import opened RequestCodec
  import opened RequestRoundTrip
  import opened Framing
  import opened KeyRefText
  import opened Registry
  import opened SequenceText
  import opened Scheduler
  import opened Route
  import Json
  import Leases

  /** The server reads the line from the stream and parses it. */
  function Read(stream: string): Parse { ParseRequest(ReadLine(stream, LINE_SIZE)) }

  function Line(domain: string, action: string, algId: nat, o: Options, more: string): string
    requires AlgorithmName(algId).Some?
  {
    Message(Fields(domain, action, AlgorithmName(algId).value, o)) + "\n" + more
  }

  /** What arrives is what was sent, whatever follows on the connection. */
  lemma Arrives(domain: string, action: string, algId: nat, o: Options, more: string)
    requires GoodRequest(domain, action, algId, o)
    ensures Read(Line(domain, action, algId, o, more))
      == Parsed(Received(ParseDomain(domain), ParseAction(action), AlgorithmName(algId).value, o))
  {
    RequestIsOneLine(Fields(domain, action, AlgorithmName(algId).value, o), more);
    RoundTrip(domain, action, algId, o);
  }

  /** The server takes the line for the request `req`. */
  predicate Delivers(domain: string, action: string, algId: nat, o: Options, more: string, req: Request)
    requires AlgorithmName(algId).Some?
  {
    Read(Line(domain, action, algId, o, more)) == Parsed(req)
  }

  /** Every good request is taken for one request, which has what was sent as far as it fits. */
  lemma DeliveredAs(domain: string, action: string, algId: nat, o: Options, more: string) returns (req: Request)
    requires GoodRequest(domain, action, algId, o)
    ensures Delivers(domain, action, algId, o, more, req)
  {
    Arrives(domain, action, algId, o, more);
    req := Received(ParseDomain(domain), ParseAction(action), AlgorithmName(algId).value, o);
  }

  lemma DeliveredFields(domain: string, action: string, algId: nat, o: Options, more: string, req: Request)
    requires GoodRequest(domain, action, algId, o) && Delivers(domain, action, algId, o, more, req)
    ensures req.keyRef == Kept(o.keyRef, MAX_FIELD_LEN) && req.deviceHint == Kept(o.deviceHint, MAX_FIELD_LEN)
    ensures req.userPin == ""
  {
    Arrives(domain, action, algId, o, more);
  }

  /** Every call of the client's API with known names and clean ids: what it prints is what the server
      has, parameters, key and buffers included. */
  lemma CallArrives(c: Route.Call, more: string)
    requires CallTyped(c) && NamesKnown(c) && (c.key.Some? ==> IdsClean(c.key.value))
    ensures Read(Line(c.domain, c.action, AlgIdOf(c), RoutedOptions(c), more))
      == Parsed(Request(Clip(c.requestId, MAX_ID_LEN), ParseDomain(c.domain), ParseAction(c.action),
                        AlgorithmName(AlgIdOf(c)).value, Kept(AddItems("", KeyItems(c)), MAX_FIELD_LEN),
                        AddItems("", PayloadItems(c)), AddItems("", AuxItems(c)), "", "", PrefBalanced, ""))
  {
    RoutedCallIsGood(c);
    Arrives(c.domain, c.action, AlgIdOf(c), RoutedOptions(c), more);
    RoutedIsReceived(c);
  }

  lemma RoutedIsReceived(c: Route.Call)
    requires CallTyped(c) && AlgorithmName(AlgIdOf(c)).Some?
    ensures Received(ParseDomain(c.domain), ParseAction(c.action), AlgorithmName(AlgIdOf(c)).value, RoutedOptions(c))
      == Request(Clip(c.requestId, MAX_ID_LEN), ParseDomain(c.domain), ParseAction(c.action),
                 AlgorithmName(AlgIdOf(c)).value, Kept(AddItems("", KeyItems(c)), MAX_FIELD_LEN),
                 AddItems("", PayloadItems(c)), AddItems("", AuxItems(c)), "", "", PrefBalanced, "")
  {
    OptionsAlwaysFit(c);
  }

  // ------------------------------------------------------------- the answer of a bound request

  lemma {:induction false} JoinedSame(d: string, n: nat)
    requires d != ""
    ensures |Joined(seq(n, _ => d), ">")| == if n == 0 then 0 else n * |d| + n - 1
  {
    if n > 0 {
      JoinedSame(d, n - 1);
      assert seq(n, _ => d)[..n - 1] == seq(n - 1, _ => d);
      if n == 1 {
        assert seq(1, _ => d)[..0] == [];
      } else {
        OneFactor(n, |d|);
        assert Joined(seq(n - 1, _ => d), ">") != "";
      }
    }
  }

  lemma OneFactor(n: nat, m: nat)
    requires n > 0
    ensures (n - 1) * m + m == n * m
  {
  }

  /** How many steps a request has. */
  function StepCount(req: Request): nat {
    if req.sequence == "" then 1
    else if ParseSteps(req.sequence).Steps? then |ParseSteps(req.sequence).steps|
    else 0
  }

  lemma BoundSingleNamesItsDevice(ms: seq<Moment>, req: Request, d: string)
    requires BoundTo(req, d) && |d| < MAX_ID_LEN && SingleReply(ms, req).Answer?
    ensures SingleReply(ms, req).response.selectedDevice == d == Joined(seq(1, _ => d), ">")
  {
    BoundResult(ms[0], req, SingleStep(req), req.payload, d);
    JoinedOne(d, ">");
    assert seq(1, _ => d) == [d];
  }

  lemma BoundSequenceNamesItsDevice(ms: seq<Moment>, req: Request, d: string)
    requires BoundTo(req, d) && |d| < MAX_ID_LEN && SequenceReply(ms, req).Answer?
    ensures SequenceReply(ms, req).response.selectedDevice == Joined(seq(|ParseSteps(req.sequence).steps|, _ => d), ">")
  {
    AcceptedStepsAreKnown(req.sequence);
    var steps, start := ParseSteps(req.sequence).steps, Clip(req.payload, MAX_RESPONSE_LEN);
    BoundChainUsesItsDevice(ms, req, steps, start, d);
    ListOfSame(Chain(ms, req, steps, start).results, d);
  }

  lemma ListOfSame(rs: seq<StepResult>, d: string)
    requires 0 < |d| < MAX_ID_LEN && |rs| <= 4 && forall i :: 0 <= i < |rs| ==> rs[i].selectedDevice == Clip(d, MAX_RESPONSE_LEN)
    ensures Clip(Joined(Devices(rs), ">"), MAX_RESPONSE_LEN) == Joined(seq(|rs|, _ => d), ">")
  {
    assert Devices(rs) == seq(|rs|, _ => d);
    JoinedSame(d, |rs|);
    SmallProduct(|rs|, |d|);
  }

  lemma SmallProduct(n: nat, m: nat)
    requires n <= 4 && m < 64
    ensures n * m <= 252
  {
  }

  /** The answer to a request bound to `d` names `d` once for each step and no other device, whatever
      tables the steps meet, whatever the library answers, and whatever the pin. */
  lemma BoundReplyNamesItsDevice(ms: seq<Moment>, pin: string, req: Request, d: string)
    requires BoundTo(req, d) && |d| < MAX_ID_LEN
    requires ReplyTo(ms, pin, req).Answer? && CheckPin(pin, req).Proceed?
    ensures ReplyTo(ms, pin, req).response.selectedDevice == Joined(seq(StepCount(req), _ => d), ">")
  {
    if req.sequence == "" {
      BoundSingleNamesItsDevice(ms, req, d);
    } else {
      BoundSequenceNamesItsDevice(ms, req, d);
    }
  }

  /** The same for every answer given in every run of any number of workers. */
  lemma BoundAnswersInEveryRun(devs: seq<Device>, pin: string, n: nat, trace: seq<Leases.State>, i: nat, w: nat, d: string)
    requires Leases.Run(devs, pin, n, trace) && i < |trace| && w < |trace[i].workers| && trace[i].workers[w].Answered?
    requires var p := trace[i].workers[w];
      BoundTo(p.req, d) && |d| < MAX_ID_LEN && p.reply.Answer? && CheckPin(pin, p.req).Proceed?
    ensures var p := trace[i].workers[w];
      p.reply.response.selectedDevice == Joined(seq(StepCount(p.req), _ => d), ">")
  {
    Leases.RepliesAreSpecified(devs, pin, n, trace, i, w);
    BoundReplyNamesItsDevice(trace[i].workers[w].seen, pin, trace[i].workers[w].req, d);
  }

  /** A request without a resolvable device never leases one, and is answered only when it has no
      step to run: the pin check, or a sequence of delimiters only. */
  lemma UnresolvedIsRefused(ms: seq<Moment>, pin: string, req: Request)
    requires !ResolveHint(req.deviceHint, req.keyRef).Hint?
    ensures forall devs, step :: Choose(devs, req, step).None?
    ensures ReplyTo(ms, pin, req).Answer?
      <==> CheckPin(pin, req).PinAccepted?
           || (CheckPin(pin, req).Proceed? && req.sequence != "" && OnlyDelimiters(Clip(req.sequence, MAX_PAYLOAD_LEN), '>'))
  {
    NoStepsIff(req.sequence);
    if CheckPin(pin, req).Proceed? {
      var step, payload := SingleStep(req), req.payload;
      if req.sequence != "" && ParseSteps(req.sequence).Steps? && ParseSteps(req.sequence).steps != [] {
        step, payload := ParseSteps(req.sequence).steps[0], Clip(req.payload, MAX_RESPONSE_LEN);
      }
      if ms != [] { UnresolvedNeverChooses(ms[0], req, step, payload); }
    }
  }

  // ------------------------------------------------------------- key binding, end to end

  predicate GoodKey(k: KeyRef) { WellTyped(k) && InRange(k) && k.source == 1 }

  lemma KeyResolvesEndToEnd(domain: string, action: string, algId: nat, o: Options, more: string, k: KeyRef, req: Request)
    requires GoodRequest(domain, action, algId, o) && GoodKey(k) && o.keyRef == Printed(k) && |o.deviceHint| < MAX_FIELD_LEN
    requires Delivers(domain, action, algId, o, more, req)
    ensures ResolveHint(req.deviceHint, req.keyRef) == Resolve(o.deviceHint, DeviceSeen(k))
  {
    DeliveredFields(domain, action, algId, o, more, req);
    KeyRefFits(k);
    InternalKeyResolves(k, o.deviceHint);
  }

  /** How a received key of source INTERNAL_INDEX binds its request: by the device that the server
      sees in its text.  Every step, on every table, chooses the device it resolves to or none. */
  lemma KeyBindingEndToEnd(domain: string, action: string, algId: nat, o: Options, more: string, k: KeyRef, req: Request)
    requires GoodRequest(domain, action, algId, o) && GoodKey(k) && o.keyRef == Printed(k) && |o.deviceHint| < MAX_FIELD_LEN
    requires Delivers(domain, action, algId, o, more, req)
    ensures ResolveHint(req.deviceHint, req.keyRef) == Resolve(o.deviceHint, DeviceSeen(k))
    ensures forall devs: seq<Device>, step :: Choose(devs, req, step).Some? ==>
      Resolve(o.deviceHint, DeviceSeen(k)) == Hint(devs[Choose(devs, req, step).value].id)
  {
    KeyResolvesEndToEnd(domain, action, algId, o, more, k, req);
    ResolvedIsChosen(req, o.deviceHint, DeviceSeen(k));
  }

  lemma ResolvedIsChosen(req: Request, hint: string, device: Option<string>)
    requires ResolveHint(req.deviceHint, req.keyRef) == Resolve(hint, device) && device != Some("")
    ensures forall devs: seq<Device>, step :: Choose(devs, req, step).Some? ==>
      Resolve(hint, device) == Hint(devs[Choose(devs, req, step).value].id)
  {
    forall devs: seq<Device>, step | Choose(devs, req, step).Some?
      ensures Resolve(hint, device) == Hint(devs[Choose(devs, req, step).value].id)
    {
      ChosenAsResolved(devs, req, step, Resolve(hint, device));
    }
  }

  lemma ChosenAsResolved(devs: seq<Device>, req: Request, step: Step, r: Resolved)
    requires ResolveHint(req.deviceHint, req.keyRef) == r && (r.Hint? ==> r.id != "") && Choose(devs, req, step).Some?
    ensures r == Hint(devs[Choose(devs, req, step).value].id)
  {
    if r.Hint? { BoundStepUsesItsDevice(devs, req, step, r.id); }
  }

  /** The other direction of binding: which requests are bound to a given device. */
  lemma BoundAsResolved(req: Request, hint: string, device: Option<string>, d: string)
    requires ResolveHint(req.deviceHint, req.keyRef) == Resolve(hint, device) && d != ""
    ensures BoundTo(req, d) <==> (device == Some(d) && hint in {"", d}) || (device == None && hint == d)
  {
  }

  /** So the request is bound to the key's own device if and only if the hint agrees, the device id has
      no separator and the key id injects no other device; or the server sees no device at all in the
      text and the hint names the same one. */
  lemma BoundToOwnDevice(domain: string, action: string, algId: nat, o: Options, more: string, k: KeyRef, req: Request)
    requires GoodRequest(domain, action, algId, o) && GoodKey(k) && o.keyRef == Printed(k) && |o.deviceHint| < MAX_FIELD_LEN
    requires Delivers(domain, action, algId, o, more, req) && k.deviceId != ""
    ensures BoundTo(req, k.deviceId) <==>
      || (OwnDeviceNamed(k) && o.deviceHint in {"", k.deviceId})
      || (DeviceSeen(k) == None && o.deviceHint == k.deviceId)
  {
    KeyResolvesEndToEnd(domain, action, algId, o, more, k, req);
    OwnDeviceIsSeen(k);
    BoundAsResolved(req, o.deviceHint, DeviceSeen(k), k.deviceId);
  }

  /** The same in every run of any number of workers: whoever holds a lease for the received request
      holds the device that it resolves to. */
  lemma KeyBindingInEveryRun(
    domain: string, action: string, algId: nat, o: Options, more: string, k: KeyRef, req: Request,
    devs: seq<Device>, pin: string, n: nat, trace: seq<Leases.State>, i: nat, w: nat)
    requires GoodRequest(domain, action, algId, o) && GoodKey(k) && o.keyRef == Printed(k) && |o.deviceHint| < MAX_FIELD_LEN
    requires Delivers(domain, action, algId, o, more, req)
    requires Leases.Run(devs, pin, n, trace) && i < |trace| && w < |trace[i].workers|
    requires trace[i].workers[w].Holding? && trace[i].workers[w].req == req
    ensures var held := trace[i].workers[w].k;
      held < |devs| && Resolve(o.deviceHint, DeviceSeen(k)) == Hint(devs[held].id)
  {
    KeyResolvesEndToEnd(domain, action, algId, o, more, k, req);
    SeenIsNotEmpty(o.deviceHint, k);
    HeldAsResolved(devs, pin, n, trace, i, w, req, Resolve(o.deviceHint, DeviceSeen(k)));
  }

  lemma SeenIsNotEmpty(hint: string, k: KeyRef)
    ensures Resolve(hint, DeviceSeen(k)).Hint? ==> Resolve(hint, DeviceSeen(k)).id != ""
  {
  }

  lemma HeldAsResolved(devs: seq<Device>, pin: string, n: nat, trace: seq<Leases.State>, i: nat, w: nat, req: Request, r: Resolved)
    requires Leases.Run(devs, pin, n, trace) && i < |trace| && w < |trace[i].workers|
    requires trace[i].workers[w].Holding? && trace[i].workers[w].req == req
    requires ResolveHint(req.deviceHint, req.keyRef) == r && (r.Hint? ==> r.id != "")
    ensures var held := trace[i].workers[w].k; held < |devs| && r == Hint(devs[held].id)
  {
    Leases.BoundRequestsHoldTheirDevice(devs, pin, n, trace, i, w, if r.Hint? then r.id else "");
  }

  // ------------------------------------------------------------- two keys in one field

  /** Two key references in one field, as the hybrid calls send them: they bind like one key while both
      fit the server's field together; otherwise the server sees no key at all and the request runs
      wherever the hint, if any, lets it. */
  lemma HybridKeyBinding(domain: string, action: string, algId: nat, o: Options, more: string, k1: KeyRef, k2: KeyRef, req: Request)
    requires GoodRequest(domain, action, algId, o) && WellTyped(k1) && k1.source == 1 && |o.deviceHint| < MAX_FIELD_LEN
    requires o.keyRef == AddItems(Printed(k1), Items(k2)) && Delivers(domain, action, algId, o, more, req)
    ensures var fits := |Printed(k1)| + 1 + |Printed(k2)| < MAX_FIELD_LEN;
      && ResolveHint(req.deviceHint, req.keyRef) == (if fits then Resolve(o.deviceHint, HybridSeen(k1, k2)) else Hint(o.deviceHint))
      && (!fits ==> SourceValue(req.keyRef) == 0)
  {
    DeliveredFields(domain, action, algId, o, more, req);
    HybridLength(k1, k2);
    if |o.keyRef| < MAX_FIELD_LEN {
      HybridResolves(k1, k2, o.deviceHint);
    } else {
      NothingInEmpty(o.deviceHint);
    }
  }

  lemma NothingInEmpty(hint: string)
    requires |hint| < MAX_FIELD_LEN
    ensures SourceValue("") == 0 && ResolveHint(hint, "") == Hint(hint)
  {
    assert Tokens(Clip("", MAX_FIELD_LEN), ';') == [];
  }

  /** Without a hint the first key's device is kept exactly when both fit and it is what that key names. */
  lemma HybridKeepsFirstDevice(domain: string, action: string, algId: nat, o: Options, more: string, k1: KeyRef, k2: KeyRef, req: Request)
    requires GoodRequest(domain, action, algId, o) && WellTyped(k1) && k1.source == 1 && k1.deviceId != ""
    requires o.keyRef == AddItems(Printed(k1), Items(k2)) && o.deviceHint == "" && Delivers(domain, action, algId, o, more, req)
    ensures BoundTo(req, k1.deviceId) <==> |Printed(k1)| + 1 + |Printed(k2)| < MAX_FIELD_LEN && OwnDeviceNamed(k1)
  {
    HybridKeyBinding(domain, action, algId, o, more, k1, k2, req);
    OwnDeviceIsSeen(k1);
    HybridSeesFirst(k1, k2);
    if |Printed(k1)| + 1 + |Printed(k2)| < MAX_FIELD_LEN { BoundAsResolved(req, "", DeviceSeen(k1), k1.deviceId); }
  }

  lemma HybridSeesFirst(k1: KeyRef, k2: KeyRef)
    requires k1.deviceId != ""
    ensures HybridSeen(k1, k2) == DeviceSeen(k1)
  {
  }

  lemma HybridRequestIsGood(domain: string, action: string, algId: nat, requestId: string, k1: KeyRef, k2: KeyRef)
    requires AlgorithmName(algId).Some? && Sendable(domain) && Sendable(action) && Sendable(requestId)
    requires |requestId| < MAX_ID_LEN && |domain| < MAX_FIELD_LEN && |action| < MAX_FIELD_LEN
    requires ParseDomain(domain) != DomainUnknown && ParseAction(action) != ActionUnknown
    requires GoodKey(k1) && GoodKey(k2) && IdsClean(k1) && IdsClean(k2)
    ensures GoodRequest(domain, action, algId, HybridOptions(requestId, k1, k2))
  {
    KeyRefFits(k1);
    KeyRefFits(k2);
    HybridLength(k1, k2);
    HybridIsSendable(k1, k2);
    EmptyIsSendable();
    ShortRequestIsGood(domain, action, algId, HybridOptions(requestId, k1, k2));
  }

  function HybridOptions(requestId: string, k1: KeyRef, k2: KeyRef): Options {
    Options(requestId, AddItems(Printed(k1), Items(k2)), "", "", "", "", "")
  }

  lemma HybridIsSendable(k1: KeyRef, k2: KeyRef)
    requires IdsClean(k1) && IdsClean(k2)
    ensures Sendable(AddItems(Printed(k1), Items(k2)))
  {
    KeyItemsClean(k1);
    KeyItemsClean(k2);
    CleanTogether(Items(k1), Items(k2));
    AddItemsConcat("", Items(k1), Items(k2));
    ListIsSendable(Items(k1) + Items(k2));
  }

  /** A key with ids as long as its fields allow: 63 bytes each. */
  function LongKey(): KeyRef { KeyRef(1, 1, 1, 1, 0, 0, seq(63, _ => 'k'), seq(63, _ => 'd')) }

  lemma LongIdsArePlain(c: char)
    requires Json.Plain(c) && c != ';'
    ensures Json.Clean(seq(63, _ => c)) && ';' !in seq(63, _ => c)
  {
  }

  lemma LongKeyIsGood(k: KeyRef)
    requires k == LongKey()
    ensures GoodKey(k) && IdsClean(k) && OwnDeviceNamed(k) && 2 * |Printed(k)| + 1 >= MAX_FIELD_LEN
  {
    LongIdsArePlain('k');
    LongIdsArePlain('d');
    NothingBehind(k.keyId, "device_id");
    PrintedLength(k);
  }

  /** The field is too small for what the types allow: two good keys with plain ids whose request
      arrives without either. */
  lemma HybridCanOverflow(domain: string, action: string, algId: nat, requestId: string, more: string) returns (req: Request)
    requires AlgorithmName(algId).Some? && Sendable(domain) && Sendable(action) && Sendable(requestId)
    requires |requestId| < MAX_ID_LEN && |domain| < MAX_FIELD_LEN && |action| < MAX_FIELD_LEN
    requires ParseDomain(domain) != DomainUnknown && ParseAction(action) != ActionUnknown
    ensures var k := LongKey(); var o := HybridOptions(requestId, k, k);
      && GoodKey(k) && IdsClean(k) && OwnDeviceNamed(k) && GoodRequest(domain, action, algId, o)
      && Delivers(domain, action, algId, o, more, req) && !BoundTo(req, k.deviceId)
  {
    var k := LongKey();
    LongKeyIsGood(k);
    HybridRequestIsGood(domain, action, algId, requestId, k, k);
    var o := HybridOptions(requestId, k, k);
    req := DeliveredAs(domain, action, algId, o, more);
    HybridKeepsFirstDevice(domain, action, algId, o, more, k, k, req);
  }

  // ------------------------------------------------------------- pins and spellings

  /** The client never sends a pin: with a pin configured, every built request is refused, and
      without one none is. */
  lemma BuiltRequestsCarryNoPin(domain: string, action: string, algId: nat, o: Options, more: string, req: Request,
                                pin: string, ms: seq<Moment>)
    requires GoodRequest(domain, action, algId, o) && Delivers(domain, action, algId, o, more, req)
    ensures var reply := ReplyTo(ms, pin, req); (reply.Refusal? && reply.status == Unauthorized) <==> pin != ""
  {
    DeliveredFields(domain, action, algId, o, more, req);
    RefusedWithoutPin(ms, pin, req);
  }

  lemma RefusedWithoutPin(ms: seq<Moment>, pin: string, req: Request)
    requires req.userPin == ""
    ensures var reply := ReplyTo(ms, pin, req); (reply.Refusal? && reply.status == Unauthorized) <==> pin != ""
  {
  }

  /** How the algorithm is spelled does not matter: requests that differ in case, white space or alias
      only are parsed to the same request, so they choose the same device from every table. */
  lemma SpellingOfAlgorithm(domain: string, action: string, a: string, b: string, o: Options)
    requires Sendable(domain) && Sendable(action) && Sendable(a) && Sendable(b) && OptionsSendable(o)
    requires |a| < MAX_FIELD_LEN && |b| < MAX_FIELD_LEN
    requires Normalize(a, MAX_FIELD_LEN) == Normalize(b, MAX_FIELD_LEN)
    ensures ParseRequest(Message(Fields(domain, action, a, o))) == ParseRequest(Message(Fields(domain, action, b, o)))
  {
    var ma, mb := Message(Fields(domain, action, a, o)), Message(Fields(domain, action, b, o));
    GetAll(domain, action, a, o);
    GetAll(domain, action, b, o);
    SameButAlgorithm(ma, mb, domain, action, a, b, o);
    assert Get(ma, KeyAlgorithm) == Value(a) && Get(mb, KeyAlgorithm) == Value(b);
    SameParse(ma, mb, a, b);
  }

  lemma SameParse(ma: string, mb: string, a: string, b: string)
    requires forall k: Key :: k != KeyAlgorithm ==> Get(ma, k) == Get(mb, k)
    requires Get(ma, KeyAlgorithm) == Value(a) && Get(mb, KeyAlgorithm) == Value(b)
    requires Normalize(a, MAX_FIELD_LEN) == Normalize(b, MAX_FIELD_LEN)
    ensures ParseRequest(ma) == ParseRequest(mb)
  {
    SameAssembly(Get(ma, KeyRequestId), Get(ma, KeyDomain), Get(ma, KeyAction), a, b, Get(ma, KeyKeyRef), Get(ma, KeyPayload),
                 Get(ma, KeyAux), Get(ma, KeyHint), Get(ma, KeyPin), Get(ma, KeyPreference), Get(ma, KeySequence));
  }

  lemma SameAssembly(id: Extracted, dom: Extracted, act: Extracted, a: string, b: string, keyRef: Extracted, payload: Extracted,
                     aux: Extracted, hint: Extracted, pin: Extracted, pref: Extracted, sequence: Extracted)
    requires Normalize(a, MAX_FIELD_LEN) == Normalize(b, MAX_FIELD_LEN)
    ensures Assemble(id, dom, act, Value(a), keyRef, payload, aux, hint, pin, pref, sequence)
      == Assemble(id, dom, act, Value(b), keyRef, payload, aux, hint, pin, pref, sequence)
  {
  }

  lemma SameButAlgorithm(ma: string, mb: string, domain: string, action: string, a: string, b: string, o: Options)
    requires Carries(ma, domain, action, a, o) && Carries(mb, domain, action, b, o)
    ensures forall k: Key :: k != KeyAlgorithm ==> Get(ma, k) == Get(mb, k)
  {
    forall k: Key | k != KeyAlgorithm ensures Get(ma, k) == Get(mb, k) {
      assert Get(ma, k) == Expected(domain, action, a, o, k) && Get(mb, k) == Expected(domain, action, b, o, k);
    }
  }
}
