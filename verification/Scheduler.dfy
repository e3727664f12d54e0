/** Executing a request (src/server/service/scheduler.c): resolve the key's device, lease a device,
    translate, dispatch, release; a sequence feeds each step's result to the next.  Other workers use
    the registry in between, so every step meets a table of its own. */
module Scheduler {
  import opened Common
  import opened CStrings
  import opened Registry
  import opened KeyRefText
  import opened SequenceText
  import opened Translator

  datatype StepResult = StepResult(selectedDevice: string, backendName: string, backendCall: string, result: string)

  datatype Reason =
    | BindingConflict | BindingMissing | NoDevice | NoRule | AdapterFailed
    | WrongPin | PinRequired | BadSteps(error: StepError)

  datatype Outcome = Succeeded(r: StepResult) | Failed(reason: Reason)

  /** The message text of an error response is its reason; all its other fields are empty. */
  datatype Reply = Answer(response: Response) | Refusal(requestId: string, status: Status, reason: Reason)

  /** What a step meets: the table when it leases, and what the SKF library makes of its call, in
      case it gets that far. */
  datatype Moment = Moment(table: seq<Device>, answer: Option<string>)

  function BuildOrder(pref: Preference, explicitType: DeviceType): seq<DeviceType> {
    if explicitType != DevUnknown then [explicitType]
    else if pref == PrefPqcFirst || pref == PrefSecure then [DevPqc, DevClassic]
    else [DevClassic, DevPqc]
  }

  /** The hint that the registry search gets. */
  function SearchHint(req: Request, step: Step, resolved: string): string {
    if resolved != "" then resolved else if step.devType == DevUnknown then req.deviceHint else ""
  }

  function StepQuery(req: Request, step: Step): Query {
    Query(step.domain, step.action, step.algorithm, SourceValue(req.keyRef))
  }

  /** The device that a step leases, given the table at that moment. */
  function Choose(devs: seq<Device>, req: Request, step: Step): (r: Option<nat>)
    ensures r.Some? ==> r.value < |devs| && Eligible(devs[r.value], StepQuery(req, step))
  {
    match ResolveHint(req.deviceHint, req.keyRef)
    case Hint(h) =>
      Pick(devs, StepQuery(req, step), SearchHint(req, step, h), req.preference, BuildOrder(req.preference, step.devType))
    case _ => None
  }

  function FailureToChoose(req: Request): Reason {
    match ResolveHint(req.deviceHint, req.keyRef)
    case Conflict => BindingConflict
    case Unbound => BindingMissing
    case Hint(_) => NoDevice
  }

  /** What a step makes of its leased device. */
  function RunOn(d: Device, req: Request, step: Step, payload: string, answer: Option<string>): Outcome {
    var t := Translate(step.domain, step.action, step.algorithm, payload, req.auxPayload, req.keyRef, d);
    if t.None? then Failed(NoRule)
    else
      var out := Dispatch(d, t.value.call, answer);
      if out.None? then Failed(AdapterFailed)
      else Succeeded(StepResult(Clip(d.id, MAX_RESPONSE_LEN), Clip(t.value.backendName, MAX_RESPONSE_LEN),
                                Clip(t.value.backendCall, MAX_RESPONSE_LEN), Clip(out.value, MAX_RESPONSE_LEN)))
  }

  /** A whole step. */
  function StepOn(m: Moment, req: Request, step: Step, payload: string): Outcome {
    var k := Choose(m.table, req, step);
    if k.None? then Failed(FailureToChoose(req))
    else RunOn(Lease(m.table, k.value)[k.value], req, step, payload, m.answer)
  }

  /** A step runs on its leased device exactly when a row of the table matches it; on a device of the
      SKF profile the library must also answer.  A declared capability alone is not enough. */
  lemma StepSucceedsIffRule(d: Device, req: Request, step: Step, payload: string, answer: Option<string>)
    ensures RunOn(d, req, step, payload, answer).Succeeded?
      <==> HasRule(d, step.domain, step.action, step.algorithm) && (d.profile == GM3000 ==> answer.Some?)
  {
    TranslatesIffRule(step.domain, step.action, step.algorithm, payload, req.auxPayload, req.keyRef, d);
    if Translate(step.domain, step.action, step.algorithm, payload, req.auxPayload, req.keyRef, d).Some? {
      TranslationSuffices(step.domain, step.action, step.algorithm, payload, req.auxPayload, req.keyRef, d, answer);
    }
  }

  // ------------------------------------------------------------- one step among other workers

  /** The counters are the leases of the other workers plus this one's, which holds device `held` at most. */
  ghost predicate Shared(devs: seq<Device>, others: seq<int>, held: Option<nat>) {
    && DistinctIds(devs) && |others| == |devs|
    && forall k :: 0 <= k < |devs| ==> others[k] >= 0 && devs[k].inflight == others[k] + if held == Some(k) then 1 else 0
  }

  lemma LeaseShares(devs: seq<Device>, others: seq<int>, k: nat)
    requires Shared(devs, others, None) && k < |devs|
    ensures Shared(Lease(devs, k), others, Some(k)) && SameTable(Lease(devs, k), devs)
  {
  }

  /** Releasing by id gives back exactly this worker's lease, whatever the others hold by now. */
  lemma ReleaseGivesBack(devs: seq<Device>, others: seq<int>, k: nat)
    requires Shared(devs, others, Some(k)) && k < |devs|
    ensures Shared(Release(devs, devs[k].id), others, None) && SameTable(Release(devs, devs[k].id), devs)
  {
    FirstWithDistinctIds(devs, k);
    ReleaseAt(devs, devs[k].id);
  }

  /** Any number of steps of other workers: they change the counters, but not this worker's lease. */
  method OthersMove(table: DeviceTable, ghost others: seq<int>, held: Option<nat>) returns (ghost next: seq<int>)
    requires table.Valid() && Shared(table.View(), others, held)
    modifies table.devices
    ensures table.Valid() && SameTable(table.View(), old(table.View())) && Shared(table.View(), next, held)
  {
    next := others;
    for i := 0 to table.count
      invariant SameTable(table.View(), old(table.View())) && Shared(table.View(), next, held)
    {
      var n: int :| n >= if held == Some(i) then 1 else 0;
      table.devices[i] := table.devices[i].(inflight := n);
      next := next[i := if held == Some(i) then n - 1 else n];
    }
  }

  lemma SameTableThrough(a: seq<Device>, b: seq<Device>, c: seq<Device>)
    requires SameTable(a, b) && SameTable(b, c)
    ensures SameTable(a, c)
  {
    forall k | 0 <= k < |a| ensures a[k].(inflight := 0) == c[k].(inflight := 0) {
      assert b[k].(inflight := 0) == c[k].(inflight := 0);
    }
  }

  /** `execute_single_step`, with other workers at any point between its critical sections: the
      outcome is that of the table `seen` on which it leased, and whatever it leased it has given back. */
  method ExecuteSingleStep(table: DeviceTable, ghost others: seq<int>, req: Request, step: Step, payload: string,
                           answer: Option<string>)
    returns (r: Outcome, ghost left: seq<int>, ghost seen: seq<Device>)
    requires table.Valid() && Shared(table.View(), others, None)
    modifies table.devices
    ensures table.Valid() && SameTable(table.View(), old(table.View())) && Shared(table.View(), left, None)
    ensures SameTable(seen, old(table.View()))
    ensures r == StepOn(Moment(seen, answer), req, step, payload)
  {
    ghost var start := table.View();
    left := OthersMove(table, others, None);
    seen := table.View();
    var resolved := ResolveHint(req.deviceHint, req.keyRef);
    if !resolved.Hint? { return Failed(FailureToChoose(req)), left, seen; }
    var hint := SearchHint(req, step, resolved.id);
    var order := BuildOrder(req.preference, step.devType);
    var k := table.AcquireCandidate(StepQuery(req, step), hint, req.preference, order);
    if k.None? { return Failed(NoDevice), left, seen; }
    LeaseShares(seen, left, k.value);
    var d := table.devices[k.value];
    assert d == Lease(seen, k.value)[k.value];
    r, left := UseAndRelease(table, left, k.value, d, req, step, payload, answer);
    SameTableThrough(table.View(), Lease(seen, k.value), seen);
    SameTableThrough(table.View(), seen, start);
  }

  /** Translation and dispatch on the leased device, and the release on every way out. */
  method UseAndRelease(table: DeviceTable, ghost others: seq<int>, k: nat, d: Device, req: Request, step: Step,
                       payload: string, answer: Option<string>)
    returns (r: Outcome, ghost left: seq<int>)
    requires table.Valid() && Shared(table.View(), others, Some(k)) && k < |table.View()| && d.id == table.View()[k].id
    modifies table.devices
    ensures table.Valid() && SameTable(table.View(), old(table.View())) && Shared(table.View(), left, None)
    ensures r == RunOn(d, req, step, payload, answer)
  {
    ghost var start := table.View();
    left := OthersMove(table, others, Some(k));
    assert table.View()[k].(inflight := 0).id == start[k].(inflight := 0).id;
    ReleaseGivesBack(table.View(), left, k);
    ghost var moved := table.View();
    var t := TranslateBackendCall(step.domain, step.action, step.algorithm, payload, req.auxPayload, req.keyRef, d);
    if t.None? {
      r := Failed(NoRule);
    } else {
      var out := Dispatch(d, t.value.call, answer);
      r := if out.None? then Failed(AdapterFailed)
           else Succeeded(StepResult(Clip(d.id, MAX_RESPONSE_LEN), Clip(t.value.backendName, MAX_RESPONSE_LEN),
                                     Clip(t.value.backendCall, MAX_RESPONSE_LEN), Clip(out.value, MAX_RESPONSE_LEN)));
    }
    table.ReleaseDevice(d.id);
    SameTableThrough(table.View(), moved, start);
  }

  // ------------------------------------------------------------- joined response fields

  /** `append_with_sep` into a field of `MAX_RESPONSE_LEN` bytes: two `strncat` calls. */
  function WithSep(dst: string, value: string, sep: string): string {
    if value == "" then dst
    else Clip((if dst == "" then dst else Clip(dst + sep, MAX_RESPONSE_LEN)) + value, MAX_RESPONSE_LEN)
  }

  /** The list the field is meant to hold: the non-empty values, separated. */
  function Joined(values: seq<string>, sep: string): string {
    if values == [] then ""
    else
      var init, last := Joined(values[..|values| - 1], sep), values[|values| - 1];
      if last == "" then init else if init == "" then last else init + sep + last
  }

  lemma ClipTwice(a: string, b: string, size: nat)
    requires size > 1
    ensures Clip(Clip(a, size) + b, size) == Clip(a + b, size)
    ensures Clip(a, size) == "" <==> a == ""
  {
  }

  /** Clipping at every append is clipping once at the end. */
  lemma AppendIsClippedJoin(values: seq<string>, value: string, sep: string)
    ensures WithSep(Clip(Joined(values, sep), MAX_RESPONSE_LEN), value, sep)
      == Clip(Joined(values + [value], sep), MAX_RESPONSE_LEN)
  {
    var init := Joined(values, sep);
    assert (values + [value])[..|values|] == values;
    ClipTwice(init, sep, MAX_RESPONSE_LEN);
    ClipTwice(init + sep, value, MAX_RESPONSE_LEN);
  }

  // ------------------------------------------------------------- sequences

  datatype Chained = Completed(results: seq<StepResult>) | Broken(reason: Reason)

  function Before(done: seq<StepResult>, c: Chained): Chained {
    if c.Completed? then Completed(done + c.results) else c
  }

  /** How step `i` is run on its input. */
  type Runner = (nat, Step, string) -> Outcome

  /** The meaning of a sequence from step `i` on: a left fold in which each step consumes the previous result. */
  function Fold(run: Runner, steps: seq<Step>, i: nat, payload: string): Chained
    decreases |steps| - i
  {
    if i >= |steps| then Completed([])
    else
      match run(i, steps[i], payload)
      case Failed(reason) => Broken(reason)
      case Succeeded(r) => Before([r], Fold(run, steps, i + 1, r.result))
  }

  /** Step `i` meets the moment `ms[i]`; behind the last moment there is no device. */
  function RunnerOn(ms: seq<Moment>, req: Request): Runner {
    (i: nat, step: Step, input: string) => if i < |ms| then StepOn(ms[i], req, step, input) else Failed(NoDevice)
  }

  function Chain(ms: seq<Moment>, req: Request, steps: seq<Step>, payload: string): Chained {
    Fold(RunnerOn(ms, req), steps, 0, payload)
  }

  /** What step `i` consumes, given the results so far. */
  function InputOf(start: string, done: seq<StepResult>, i: nat): string
    requires i <= |done|
  {
    if i == 0 then start else done[i - 1].result
  }

  /** Step `j` has succeeded on the result before it. */
  predicate FedAt(run: Runner, steps: seq<Step>, start: string, done: seq<StepResult>, j: nat)
    requires j < |done| <= |steps|
  {
    run(j, steps[j], InputOf(start, done, j)) == Succeeded(done[j])
  }

  /** Each of the first `|done|` steps has succeeded with its result in `done`. */
  ghost predicate Fed(run: Runner, steps: seq<Step>, start: string, done: seq<StepResult>) {
    |done| <= |steps| && forall j: nat :: j < |done| ==> FedAt(run, steps, start, done, j)
  }

  lemma {:induction false} FedFold(run: Runner, steps: seq<Step>, start: string, done: seq<StepResult>, i: nat)
    requires Fed(run, steps, start, done) && i <= |done|
    ensures Fold(run, steps, i, InputOf(start, done, i))
      == Before(done[i..], Fold(run, steps, |done|, InputOf(start, done, |done|)))
    decreases |done| - i
  {
    var rest := Fold(run, steps, |done|, InputOf(start, done, |done|));
    if i == |done| {
      BeforeNothing(done[i..], rest);
    } else {
      FedFold(run, steps, start, done, i + 1);
      assert FedAt(run, steps, start, done, i);
      FoldStep(run, steps, i, InputOf(start, done, i), done[i]);
      BeforeTwice(done[i], done[i + 1..], done[i..], rest);
    }
  }

  lemma FoldStep(run: Runner, steps: seq<Step>, i: nat, payload: string, r: StepResult)
    requires i < |steps| && run(i, steps[i], payload) == Succeeded(r)
    ensures Fold(run, steps, i, payload) == Before([r], Fold(run, steps, i + 1, r.result))
  {
  }

  lemma BeforeNothing(done: seq<StepResult>, c: Chained)
    requires done == []
    ensures Before(done, c) == c
  {
    if c.Completed? { assert done + c.results == c.results; }
  }

  lemma BeforeTwice(r: StepResult, more: seq<StepResult>, all: seq<StepResult>, c: Chained)
    requires all == [r] + more
    ensures Before([r], Before(more, c)) == Before(all, c)
  {
    if c.Completed? { assert [r] + (more + c.results) == all + c.results; }
  }

  /** All steps have succeeded: the fold is complete. */
  lemma FedCompletes(run: Runner, steps: seq<Step>, start: string, done: seq<StepResult>)
    requires Fed(run, steps, start, done) && |done| == |steps|
    ensures Fold(run, steps, 0, start) == Completed(done)
  {
    FedFold(run, steps, start, done, 0);
    assert done[0..] + [] == done;
  }

  /** The step after those that have succeeded fails: so does the fold. */
  lemma FedBreaks(run: Runner, steps: seq<Step>, start: string, done: seq<StepResult>, reason: Reason)
    requires Fed(run, steps, start, done) && |done| < |steps|
    requires run(|done|, steps[|done|], InputOf(start, done, |done|)) == Failed(reason)
    ensures Fold(run, steps, 0, start) == Broken(reason)
  {
    FedFold(run, steps, start, done, 0);
  }

  lemma {:induction false} FoldLength(run: Runner, steps: seq<Step>, i: nat, payload: string)
    requires i <= |steps| && Fold(run, steps, i, payload).Completed?
    ensures |Fold(run, steps, i, payload).results| == |steps| - i
    decreases |steps| - i
  {
    if i < |steps| { FoldLength(run, steps, i + 1, run(i, steps[i], payload).r.result); }
  }

  /** Conversely the results of a completed fold are those of its steps. */
  lemma {:induction false} FoldFeedsForward(run: Runner, steps: seq<Step>, i: nat, payload: string, j: nat)
    requires i <= |steps| && Fold(run, steps, i, payload).Completed? && i + j < |steps|
    ensures var rs := Fold(run, steps, i, payload).results;
      |rs| == |steps| - i && run(i + j, steps[i + j], InputOf(payload, rs, j)) == Succeeded(rs[j])
    decreases |steps| - i
  {
    FoldLength(run, steps, i, payload);
    if j > 0 { FoldFeedsForward(run, steps, i + 1, run(i, steps[i], payload).r.result, j - 1); }
  }

  /** A moment more does not change how the earlier steps run. */
  lemma RunnerGrows(ms: seq<Moment>, m: Moment, req: Request, j: nat, step: Step, input: string)
    requires j <= |ms|
    ensures RunnerOn(ms + [m], req)(j, step, input)
      == if j < |ms| then RunnerOn(ms, req)(j, step, input) else StepOn(m, req, step, input)
  {
  }

  lemma FedStays(run: Runner, run': Runner, steps: seq<Step>, start: string, done: seq<StepResult>)
    requires Fed(run, steps, start, done)
    requires forall j: nat :: j < |done| ==> run'(j, steps[j], InputOf(start, done, j)) == run(j, steps[j], InputOf(start, done, j))
    ensures Fed(run', steps, start, done)
  {
    forall j: nat | j < |done| ensures FedAt(run', steps, start, done, j) { assert FedAt(run, steps, start, done, j); }
  }

  lemma FedExtends(run: Runner, steps: seq<Step>, start: string, done: seq<StepResult>, r: StepResult)
    requires Fed(run, steps, start, done) && |done| < |steps|
    requires run(|done|, steps[|done|], InputOf(start, done, |done|)) == Succeeded(r)
    ensures Fed(run, steps, start, done + [r])
  {
    var done' := done + [r];
    forall j: nat | j < |done'| ensures FedAt(run, steps, start, done', j) {
      assert InputOf(start, done', j) == InputOf(start, done, j);
      if j < |done| { assert FedAt(run, steps, start, done, j); }
    }
  }

  /** Every step so far has met a moment of its own and succeeded. */
  ghost predicate Midway(ms: seq<Moment>, req: Request, steps: seq<Step>, start: string, done: seq<StepResult>) {
    |ms| == |done| && Fed(RunnerOn(ms, req), steps, start, done)
  }

  lemma MidwayStays(ms: seq<Moment>, m: Moment, req: Request, steps: seq<Step>, start: string, done: seq<StepResult>)
    requires Midway(ms, req, steps, start, done)
    ensures Fed(RunnerOn(ms + [m], req), steps, start, done)
  {
    var run, run' := RunnerOn(ms, req), RunnerOn(ms + [m], req);
    forall j: nat | j < |done|
      ensures run'(j, steps[j], InputOf(start, done, j)) == run(j, steps[j], InputOf(start, done, j))
    {
      RunnerGrows(ms, m, req, j, steps[j], InputOf(start, done, j));
    }
    FedStays(run, run', steps, start, done);
  }

  /** The next step succeeds at the moment `m`. */
  lemma MidwayGrows(ms: seq<Moment>, m: Moment, req: Request, steps: seq<Step>, start: string, done: seq<StepResult>, r: StepResult)
    requires Midway(ms, req, steps, start, done) && |done| < |steps|
    requires StepOn(m, req, steps[|done|], InputOf(start, done, |done|)) == Succeeded(r)
    ensures Midway(ms + [m], req, steps, start, done + [r])
  {
    MidwayStays(ms, m, req, steps, start, done);
    RunnerGrows(ms, m, req, |done|, steps[|done|], InputOf(start, done, |done|));
    FedExtends(RunnerOn(ms + [m], req), steps, start, done, r);
  }

  /** The next step fails at the moment `m`. */
  lemma MidwayFails(ms: seq<Moment>, m: Moment, req: Request, steps: seq<Step>, start: string, done: seq<StepResult>, reason: Reason)
    requires Midway(ms, req, steps, start, done) && |done| < |steps|
    requires StepOn(m, req, steps[|done|], InputOf(start, done, |done|)) == Failed(reason)
    ensures Chain(ms + [m], req, steps, start) == Broken(reason)
  {
    MidwayStays(ms, m, req, steps, start, done);
    RunnerGrows(ms, m, req, |done|, steps[|done|], InputOf(start, done, |done|));
    FedBreaks(RunnerOn(ms + [m], req), steps, start, done, reason);
  }

  function Devices(rs: seq<StepResult>): seq<string> {
    seq(|rs|, i requires 0 <= i < |rs| => rs[i].selectedDevice)
  }
  function Backends(rs: seq<StepResult>): seq<string> {
    seq(|rs|, i requires 0 <= i < |rs| => rs[i].backendName)
  }
  function Calls(rs: seq<StepResult>): seq<string> {
    seq(|rs|, i requires 0 <= i < |rs| => rs[i].backendCall)
  }
  function Results(rs: seq<StepResult>): seq<string> {
    seq(|rs|, i requires 0 <= i < |rs| => rs[i].result)
  }

  function LastResult(rs: seq<StepResult>): string { if rs == [] then "" else rs[|rs| - 1].result }

  /** The response to a completed sequence: ideal lists, cut to the size of the fields. */
  function ChainResponse(req: Request, rs: seq<StepResult>): Response {
    Response(Clip(req.requestId, MAX_ID_LEN), StatusOk,
      Clip(Joined(Devices(rs), ">"), MAX_RESPONSE_LEN), Clip(Joined(Backends(rs), ">"), MAX_RESPONSE_LEN),
      Clip(Joined(Calls(rs), ">"), MAX_RESPONSE_LEN), Clip(Joined(Results(rs), " => "), MAX_RESPONSE_LEN),
      LastResult(rs))
  }

  function Refuse(req: Request, status: Status, reason: Reason): Reply {
    Refusal(Clip(req.requestId, MAX_ID_LEN), status, reason)
  }

  function SequenceAnswer(req: Request, c: Chained): Reply {
    match c
    case Broken(reason) => Refuse(req, BackendFail, reason)
    case Completed(rs) => Answer(ChainResponse(req, rs))
  }

  function SequenceReply(ms: seq<Moment>, req: Request): Reply {
    match ParseSteps(req.sequence)
    case BadSequence(e) => Refuse(req, BadRequest, BadSteps(e))
    case Steps(steps) => SequenceAnswer(req, Chain(ms, req, steps, Clip(req.payload, MAX_RESPONSE_LEN)))
  }

  /** The four list fields after the steps `rs`. */
  datatype Lists = Lists(devices: string, backends: string, calls: string, trace: string)

  function ListsOf(rs: seq<StepResult>): Lists {
    Lists(Clip(Joined(Devices(rs), ">"), MAX_RESPONSE_LEN), Clip(Joined(Backends(rs), ">"), MAX_RESPONSE_LEN),
          Clip(Joined(Calls(rs), ">"), MAX_RESPONSE_LEN), Clip(Joined(Results(rs), " => "), MAX_RESPONSE_LEN))
  }

  /** The four `append_with_sep` calls after a step. */
  function AddToLists(l: Lists, r: StepResult): Lists {
    Lists(WithSep(l.devices, r.selectedDevice, ">"), WithSep(l.backends, r.backendName, ">"),
          WithSep(l.calls, r.backendCall, ">"), WithSep(l.trace, r.result, " => "))
  }

  lemma AddToListsIsListsOf(rs: seq<StepResult>, r: StepResult)
    ensures AddToLists(ListsOf(rs), r) == ListsOf(rs + [r])
  {
    assert Devices(rs + [r]) == Devices(rs) + [r.selectedDevice];
    assert Backends(rs + [r]) == Backends(rs) + [r.backendName];
    assert Calls(rs + [r]) == Calls(rs) + [r.backendCall];
    assert Results(rs + [r]) == Results(rs) + [r.result];
    AppendIsClippedJoin(Devices(rs), r.selectedDevice, ">");
    AppendIsClippedJoin(Backends(rs), r.backendName, ">");
    AppendIsClippedJoin(Calls(rs), r.backendCall, ">");
    AppendIsClippedJoin(Results(rs), r.result, " => ");
  }

  /** The fields of a step's result fit the buffers that they are copied to. */
  predicate Fits(out: Outcome) {
    out.Succeeded? ==>
      && |out.r.selectedDevice| < MAX_RESPONSE_LEN && |out.r.backendName| < MAX_RESPONSE_LEN
      && |out.r.backendCall| < MAX_RESPONSE_LEN && |out.r.result| < MAX_RESPONSE_LEN
  }

  lemma OutcomeFits(m: Moment, req: Request, step: Step, payload: string)
    ensures Fits(StepOn(m, req, step, payload))
    ensures var out := StepOn(m, req, step, payload);
      out.Succeeded? ==> Clip(out.r.result, MAX_RESPONSE_LEN) == out.r.result
  {
  }

  /** What the SKF library would make of the call of each step. */
  type Answers = nat -> Option<string>

  /** The moments come from this registry and these answers. */
  ghost predicate MomentsOf(ms: seq<Moment>, devs: seq<Device>, answers: Answers) {
    forall i: nat :: i < |ms| ==> SameTable(ms[i].table, devs) && ms[i].answer == answers(i)
  }

  lemma MomentAdded(ms: seq<Moment>, m: Moment, devs: seq<Device>, answers: Answers)
    requires MomentsOf(ms, devs, answers) && SameTable(m.table, devs) && m.answer == answers(|ms|)
    ensures MomentsOf(ms + [m], devs, answers)
  {
  }

  lemma InputGrows(start: string, done: seq<StepResult>, r: StepResult)
    ensures InputOf(start, done + [r], |done| + 1) == r.result
  {
  }

  /** `execute_sequence`. */
  method ExecuteSequence(table: DeviceTable, ghost others: seq<int>, req: Request, answers: Answers)
    returns (reply: Reply, ghost left: seq<int>, ghost ms: seq<Moment>)
    requires table.Valid() && Shared(table.View(), others, None)
    modifies table.devices
    ensures table.Valid() && SameTable(table.View(), old(table.View())) && Shared(table.View(), left, None)
    ensures MomentsOf(ms, old(table.View()), answers) && reply == SequenceReply(ms, req)
  {
    left, ms := others, [];
    var parsed := ParseSequence(req.sequence);
    if parsed.BadSequence? { return Refuse(req, BadRequest, BadSteps(parsed.error)), left, ms; }
    var broken, lists, result;
    broken, lists, result, left, ms := ExecuteSteps(table, others, req, parsed.steps, Clip(req.payload, MAX_RESPONSE_LEN), answers);
    if broken.Some? { return Refuse(req, BackendFail, broken.value), left, ms; }
    FilledIsAnswer(req, Chain(ms, req, parsed.steps, Clip(req.payload, MAX_RESPONSE_LEN)), lists, result);
    reply := FilledReply(req, lists, result);
  }

  /** The filled fields as an answer. */
  function FilledReply(req: Request, lists: Lists, result: string): Reply {
    Answer(Response(Clip(req.requestId, MAX_ID_LEN), StatusOk, lists.devices, lists.backends, lists.calls, lists.trace, result))
  }

  lemma FilledIsAnswer(req: Request, c: Chained, lists: Lists, result: string)
    requires c.Completed? && lists == ListsOf(c.results) && result == LastResult(c.results)
    ensures FilledReply(req, lists, result) == SequenceAnswer(req, c)
  {
  }

  /** The loop over the steps: the reason of the first failure, or the filled fields. */
  method ExecuteSteps(table: DeviceTable, ghost others: seq<int>, req: Request, steps: seq<Step>, payload: string, answers: Answers)
    returns (broken: Option<Reason>, lists: Lists, result: string, ghost left: seq<int>, ghost ms: seq<Moment>)
    requires table.Valid() && Shared(table.View(), others, None)
    modifies table.devices
    ensures table.Valid() && SameTable(table.View(), old(table.View())) && Shared(table.View(), left, None)
    ensures MomentsOf(ms, old(table.View()), answers)
    ensures match Chain(ms, req, steps, payload)
      case Broken(reason) => broken == Some(reason)
      case Completed(rs) => broken == None && lists == ListsOf(rs) && result == LastResult(rs)
  {
    ghost var start := table.View();
    var current := payload;
    ghost var done: seq<StepResult> := [];
    broken, lists, result, left, ms := None, Lists("", "", "", ""), "", others, [];
    assert lists == ListsOf(done);
    for i := 0 to |steps|
      invariant table.Valid() && SameTable(table.View(), start) && Shared(table.View(), left, None)
      invariant MomentsOf(ms, start, answers) && Midway(ms, req, steps, payload, done) && |done| == i
      invariant current == InputOf(payload, done, i) && broken == None
      invariant lists == ListsOf(done) && result == LastResult(done)
    {
      var out;
      ghost var m;
      out, left, m := NextStep(table, left, req, steps[i], current, answers, i, start);
      MomentAdded(ms, m, start, answers);
      if out.Failed? {
        MidwayFails(ms, m, req, steps, payload, done, out.reason);
        return Some(out.reason), lists, result, left, ms + [m];
      }
      MidwayGrows(ms, m, req, steps, payload, done, out.r);
      InputGrows(payload, done, out.r);
      AddToListsIsListsOf(done, out.r);
      lists := AddToLists(lists, out.r);
      current := Clip(out.r.result, MAX_RESPONSE_LEN);
      ms, done, result := ms + [m], done + [out.r], current;
    }
    FedCompletes(RunnerOn(ms, req), steps, payload, done);
  }

  /** Step `i` of a request that found the registry as `start`. */
  method NextStep(table: DeviceTable, ghost others: seq<int>, req: Request, step: Step, payload: string, answers: Answers,
                  i: nat, ghost start: seq<Device>)
    returns (out: Outcome, ghost left: seq<int>, ghost m: Moment)
    requires table.Valid() && SameTable(table.View(), start) && Shared(table.View(), others, None)
    modifies table.devices
    ensures table.Valid() && SameTable(table.View(), start) && Shared(table.View(), left, None)
    ensures SameTable(m.table, start) && m.answer == answers(i) && out == StepOn(m, req, step, payload)
    ensures out.Succeeded? ==> Clip(out.r.result, MAX_RESPONSE_LEN) == out.r.result
  {
    ghost var before, seen := table.View(), [];
    out, left, seen := ExecuteSingleStep(table, others, req, step, payload, answers(i));
    m := Moment(seen, answers(i));
    SameTableThrough(table.View(), before, start);
    SameTableThrough(seen, before, start);
    OutcomeFits(m, req, step, payload);
  }

  // ------------------------------------------------------------- whole requests

  datatype PinVerdict = Proceed | PinAccepted | Denied(reason: Reason)

  /** `validate_gateway_pin`; an empty configured pin switches the check off. */
  function CheckPin(pin: string, req: Request): PinVerdict {
    if pin == "" then Proceed
    else if req.action == ActionCheckPin && req.domain == DomainAuth then
      if req.userPin == pin then PinAccepted else Denied(WrongPin)
    else if req.userPin != pin then Denied(PinRequired)
    else Proceed
  }

  function PinOk(req: Request): Reply {
    Answer(Response(Clip(req.requestId, MAX_ID_LEN), StatusOk, "", "gateway-auth", "check_pin", "", "pin_ok"))
  }

  function SingleStep(req: Request): Step { Step(req.domain, req.action, DevUnknown, req.algorithm) }

  function SingleReply(ms: seq<Moment>, req: Request): Reply {
    SingleAnswer(req, RunnerOn(ms, req)(0, SingleStep(req), req.payload))
  }

  function SingleAnswer(req: Request, out: Outcome): Reply {
    match out
    case Failed(reason) => Refuse(req, NoResource, reason)
    case Succeeded(r) =>
      Answer(Response(Clip(req.requestId, MAX_ID_LEN), StatusOk, r.selectedDevice, r.backendName, r.backendCall,
                      Clip(Joined([r.selectedDevice, r.backendCall, r.result], ":"), MAX_RESPONSE_LEN), r.result))
  }

  /** What `scheduler_execute` answers, given what its steps meet. */
  function ReplyTo(ms: seq<Moment>, pin: string, req: Request): Reply {
    match CheckPin(pin, req)
    case Denied(reason) => Refuse(req, Unauthorized, reason)
    case PinAccepted => PinOk(req)
    case Proceed => if req.sequence != "" then SequenceReply(ms, req) else SingleReply(ms, req)
  }

  method ExecuteSingle(table: DeviceTable, ghost others: seq<int>, req: Request, answers: Answers)
    returns (reply: Reply, ghost left: seq<int>, ghost ms: seq<Moment>)
    requires table.Valid() && Shared(table.View(), others, None)
    modifies table.devices
    ensures table.Valid() && SameTable(table.View(), old(table.View())) && Shared(table.View(), left, None)
    ensures MomentsOf(ms, old(table.View()), answers) && reply == SingleReply(ms, req)
  {
    ghost var seen;
    var out;
    out, left, seen := ExecuteSingleStep(table, others, req, SingleStep(req), req.payload, answers(0));
    ms := [Moment(seen, answers(0))];
    if out.Failed? { return Refuse(req, NoResource, out.reason), left, ms; }
    var r := out.r;
    var trace := WithSep("", r.selectedDevice, ":");
    trace := WithSep(trace, r.backendCall, ":");
    trace := WithSep(trace, r.result, ":");
    TraceIsJoined(r.selectedDevice, r.backendCall, r.result);
    reply := Answer(Response(Clip(req.requestId, MAX_ID_LEN), StatusOk, r.selectedDevice, r.backendName, r.backendCall, trace, r.result));
  }

  lemma TraceIsJoined(a: string, b: string, c: string)
    ensures WithSep(WithSep(WithSep("", a, ":"), b, ":"), c, ":") == Clip(Joined([a, b, c], ":"), MAX_RESPONSE_LEN)
  {
    AppendIsClippedJoin([], a, ":");
    AppendIsClippedJoin([a], b, ":");
    AppendIsClippedJoin([a, b], c, ":");
    assert [] + [a] == [a] && [a] + [b] == [a, b] && [a, b] + [c] == [a, b, c];
  }

  /** `scheduler_execute`: whatever other workers do meanwhile, the reply is the specified one for
      the tables that the steps met, and this worker holds no lease afterwards. */
  method Execute(table: DeviceTable, ghost others: seq<int>, pin: string, req: Request, answers: Answers)
    returns (reply: Reply, ghost left: seq<int>, ghost ms: seq<Moment>)
    requires table.Valid() && Shared(table.View(), others, None)
    modifies table.devices
    ensures table.Valid() && SameTable(table.View(), old(table.View())) && Shared(table.View(), left, None)
    ensures MomentsOf(ms, old(table.View()), answers) && reply == ReplyTo(ms, pin, req)
  {
    left, ms := others, [];
    var verdict := CheckPin(pin, req);
    if verdict.Denied? { return Refuse(req, Unauthorized, verdict.reason), left, ms; }
    if verdict.PinAccepted? { return PinOk(req), left, ms; }
    if req.sequence != "" {
      reply, left, ms := ExecuteSequence(table, others, req, answers);
    } else {
      reply, left, ms := ExecuteSingle(table, others, req, answers);
    }
  }

  // ------------------------------------------------------------- which device runs a step

  /** A leased device is enabled, has room, and declares the step's domain, action and algorithm for
      the key's source. */
  lemma LeasedDeviceDeclaresStep(devs: seq<Device>, req: Request, step: Step)
    requires Choose(devs, req, step).Some?
    ensures var d := devs[Choose(devs, req, step).value];
      && d.enabled && d.inflight < d.maxInflight
      && exists i :: 0 <= i < |d.caps| && d.caps[i].domain == step.domain && d.caps[i].action == step.action
           && d.caps[i].algorithm in {step.algorithm, "auto"}
           && (SourceValue(req.keyRef) == 0 || SourceValue(req.keyRef) in d.caps[i].sources)
  {
    var d := devs[Choose(devs, req, step).value];
    var i :| 0 <= i < |d.caps| && CapMatches(d.caps[i], StepQuery(req, step));
  }

  /** A hint is obeyed by every step, typed or not. */
  lemma HintedStepUsesItsDevice(devs: seq<Device>, req: Request, step: Step)
    requires req.deviceHint != "" && Choose(devs, req, step).Some?
    ensures devs[Choose(devs, req, step).value].id == Clip(req.deviceHint, MAX_FIELD_LEN)
  {
  }

  function PreferredType(pref: Preference): DeviceType {
    match pref
    case PrefSecure => DevPqc
    case PrefPqcFirst => DevPqc
    case _ => DevClassic
  }

  /** Without hint, internal key and declared type, a step gets a device of the preferred type
      exactly when one is eligible; the other type is only the fallback. */
  lemma PreferredTypeFirst(devs: seq<Device>, req: Request, step: Step)
    requires req.deviceHint == "" && !IsInternalIndex(req.keyRef) && step.devType == DevUnknown
    requires Choose(devs, req, step).Some?
    ensures devs[Choose(devs, req, step).value].devType == PreferredType(req.preference)
      <==> exists i :: 0 <= i < |devs| && Eligible(devs[i], StepQuery(req, step)) && devs[i].devType == PreferredType(req.preference)
  {
    var q, order := StepQuery(req, step), BuildOrder(req.preference, step.devType);
    var k := Choose(devs, req, step).value;
    PickIsGlobalOptimum(devs, q, req.preference, order, k);
  }

  /** A step that succeeds reports the device it leased and the call of the one row that matches it. */
  lemma SucceededStepFollowsItsRule(m: Moment, req: Request, step: Step, payload: string, k: nat, rule: Rule)
    requires StepOn(m, req, step, payload).Succeeded? && Choose(m.table, req, step) == Some(k)
    requires rule in Rules() && Matches(rule, m.table[k], step.domain, step.action, step.algorithm)
    ensures var r := StepOn(m, req, step, payload).r;
      r.selectedDevice == Clip(m.table[k].id, MAX_RESPONSE_LEN) && r.backendCall == Clip(rule.call, MAX_FIELD_LEN)
  {
    RuleOfSuccess(Lease(m.table, k)[k], req, step, payload, m.answer, rule);
  }

  lemma RuleOfSuccess(d: Device, req: Request, step: Step, payload: string, answer: Option<string>, rule: Rule)
    requires RunOn(d, req, step, payload, answer).Succeeded?
    requires rule in Rules() && Matches(rule, d, step.domain, step.action, step.algorithm)
    ensures RunOn(d, req, step, payload, answer).r.selectedDevice == Clip(d.id, MAX_RESPONSE_LEN)
    ensures RunOn(d, req, step, payload, answer).r.backendCall == Clip(rule.call, MAX_FIELD_LEN)
  {
    var j := FindRule(Rules(), d, step.domain, step.action, step.algorithm, 0).value;
    var i :| 0 <= i < |Rules()| && Rules()[i] == rule;
    AtMostOneRule(i, j, d, step.domain, step.action, step.algorithm);
  }

  /** A typed step of a request without hint and without internal key runs on its declared type. */
  lemma TypedStepUsesItsType(devs: seq<Device>, req: Request, step: Step)
    requires req.deviceHint == "" && !IsInternalIndex(req.keyRef) && step.devType != DevUnknown
    requires Choose(devs, req, step).Some?
    ensures devs[Choose(devs, req, step).value].devType == step.devType
  {
    var k := Choose(devs, req, step).value;
    PickIsGlobalOptimum(devs, StepQuery(req, step), req.preference, [step.devType], k);
  }

  /** The key reference pins every step to one device, whatever the state of the table. */
  predicate BoundTo(req: Request, id: string) { id != "" && ResolveHint(req.deviceHint, req.keyRef) == Hint(id) }

  lemma BoundStepUsesItsDevice(devs: seq<Device>, req: Request, step: Step, id: string)
    requires BoundTo(req, id) && Choose(devs, req, step).Some?
    ensures devs[Choose(devs, req, step).value].id == id
  {
  }

  /** A request that no device may serve is refused in every state of the table. */
  lemma UnresolvedNeverChooses(m: Moment, req: Request, step: Step, payload: string)
    requires !ResolveHint(req.deviceHint, req.keyRef).Hint?
    ensures Choose(m.table, req, step).None?
    ensures StepOn(m, req, step, payload)
      == Failed(if ResolveHint(req.deviceHint, req.keyRef).Conflict? then BindingConflict else BindingMissing)
  {
  }

  /** Every step of a completed sequence consumed what the step before it produced, on a device of
      the table that it met itself. */
  lemma ChainFeedsForward(ms: seq<Moment>, req: Request, steps: seq<Step>, payload: string, i: nat)
    requires Chain(ms, req, steps, payload).Completed? && i < |steps|
    ensures var rs := Chain(ms, req, steps, payload).results;
      |rs| == |steps| <= |ms| && StepOn(ms[i], req, steps[i], InputOf(payload, rs, i)) == Succeeded(rs[i])
  {
    var rs := Chain(ms, req, steps, payload).results;
    FoldIsFed(RunnerOn(ms, req), steps, payload, rs);
    FedIsRun(ms, req, steps, payload, rs, i);
    FedIsRun(ms, req, steps, payload, rs, |steps| - 1);
  }

  lemma FoldIsFed(run: Runner, steps: seq<Step>, payload: string, rs: seq<StepResult>)
    requires Fold(run, steps, 0, payload) == Completed(rs)
    ensures |rs| == |steps| && Fed(run, steps, payload, rs)
  {
    FoldLength(run, steps, 0, payload);
    forall j: nat | j < |rs| ensures FedAt(run, steps, payload, rs, j) { FoldFeedsForward(run, steps, 0, payload, j); }
  }

  lemma FedIsRun(ms: seq<Moment>, req: Request, steps: seq<Step>, payload: string, rs: seq<StepResult>, i: nat)
    requires Fed(RunnerOn(ms, req), steps, payload, rs) && i < |rs|
    ensures i < |ms| && StepOn(ms[i], req, steps[i], InputOf(payload, rs, i)) == Succeeded(rs[i])
  {
    assert FedAt(RunnerOn(ms, req), steps, payload, rs, i);
    RunnerSucceeds(ms, req, i, steps[i], InputOf(payload, rs, i), rs[i]);
  }

  lemma RunnerSucceeds(ms: seq<Moment>, req: Request, i: nat, step: Step, input: string, r: StepResult)
    requires RunnerOn(ms, req)(i, step, input) == Succeeded(r)
    ensures i < |ms| && StepOn(ms[i], req, step, input) == Succeeded(r)
  {
  }

  /** All steps of a bound sequence run on its device, however the table changes between them. */
  lemma BoundChainUsesItsDevice(ms: seq<Moment>, req: Request, steps: seq<Step>, payload: string, id: string)
    requires BoundTo(req, id) && Chain(ms, req, steps, payload).Completed?
    ensures var rs := Chain(ms, req, steps, payload).results;
      |rs| == |steps| && forall i :: 0 <= i < |rs| ==> rs[i].selectedDevice == Clip(id, MAX_RESPONSE_LEN)
  {
    var rs := Chain(ms, req, steps, payload).results;
    FoldLength(RunnerOn(ms, req), steps, 0, payload);
    forall i | 0 <= i < |rs| ensures rs[i].selectedDevice == Clip(id, MAX_RESPONSE_LEN) {
      ChainFeedsForward(ms, req, steps, payload, i);
      BoundResult(ms[i], req, steps[i], InputOf(payload, rs, i), id);
    }
  }

  lemma BoundResult(m: Moment, req: Request, step: Step, payload: string, id: string)
    requires BoundTo(req, id) && StepOn(m, req, step, payload).Succeeded?
    ensures StepOn(m, req, step, payload).r.selectedDevice == Clip(id, MAX_RESPONSE_LEN)
  {
    BoundStepUsesItsDevice(m.table, req, step, id);
  }

  /** With a hint or a bound key the declared type of a step does not matter. */
  lemma HintedTypeIsIrrelevant(m: Moment, req: Request, a: Step, b: Step, payload: string)
    requires ResolveHint(req.deviceHint, req.keyRef).Hint? && ResolveHint(req.deviceHint, req.keyRef).id != ""
    requires a == b.(devType := a.devType)
    ensures Choose(m.table, req, a) == Choose(m.table, req, b)
    ensures StepOn(m, req, a, payload) == StepOn(m, req, b, payload)
  {
  }

  /** So a sequence of one step with the request's own domain, action and algorithm does what the
      request does without it: the answers differ in nothing but the trace. */
  lemma OneStepSequenceAgrees(m: Moment, req: Request, step: Step)
    requires ResolveHint(req.deviceHint, req.keyRef).Hint? && ResolveHint(req.deviceHint, req.keyRef).id != ""
    requires ParseSteps(req.sequence) == Steps([step]) && step == SingleStep(req).(devType := step.devType)
    requires |req.payload| < MAX_PAYLOAD_LEN
    ensures SameButTrace(SequenceReply([m], req), SingleReply([m], req))
  {
    HintedTypeIsIrrelevant(m, req, step, SingleStep(req), req.payload);
    FoldOne(RunnerOn([m], req), step, req.payload);
    OutcomeFits(m, req, step, req.payload);
    OneStepAnswers(req, StepOn(m, req, step, req.payload), Chain([m], req, [step], req.payload));
  }

  predicate SameButTrace(a: Reply, b: Reply) {
    match a
    case Answer(r) => b.Answer? && r.(trace := "") == b.response.(trace := "")
    case Refusal(id, status, reason) => b == Refusal(id, NoResource, reason) && status == BackendFail
  }

  lemma FoldOne(run: Runner, step: Step, payload: string)
    ensures Fold(run, [step], 0, payload) ==
      match run(0, step, payload) {
        case Failed(reason) => Broken(reason)
        case Succeeded(r) => Completed([r])
      }
  {
    var out := run(0, step, payload);
    if out.Succeeded? {
      assert Fold(run, [step], 1, out.r.result) == Completed([]);
      assert [out.r] + [] == [out.r];
    }
  }

  lemma OneStepAnswers(req: Request, out: Outcome, c: Chained)
    requires Fits(out) && c == if out.Failed? then Broken(out.reason) else Completed([out.r])
    ensures SameButTrace(SequenceAnswer(req, c), SingleAnswer(req, out))
  {
    if out.Succeeded? {
      assert Devices([out.r]) == [out.r.selectedDevice] && Backends([out.r]) == [out.r.backendName];
      assert Calls([out.r]) == [out.r.backendCall];
      JoinedOne(out.r.selectedDevice, ">");
      JoinedOne(out.r.backendName, ">");
      JoinedOne(out.r.backendCall, ">");
    }
  }

  lemma JoinedOne(x: string, sep: string)
    ensures Joined([x], sep) == x
  {
    assert [x][..0] == [];
  }

  // ------------------------------------------------------------- sequences without steps

  /** A sequence is answered without running a step exactly when its first 1023 bytes are delimiters
      only; then the answer is empty, whatever the tables are. */
  lemma AnsweredWithoutStep(ms: seq<Moment>, req: Request)
    requires req.sequence != ""
    ensures ParseSteps(req.sequence) == Steps([]) <==> OnlyDelimiters(Clip(req.sequence, MAX_PAYLOAD_LEN), '>')
    ensures OnlyDelimiters(Clip(req.sequence, MAX_PAYLOAD_LEN), '>') ==>
      SequenceReply(ms, req) == Answer(Response(Clip(req.requestId, MAX_ID_LEN), StatusOk, "", "", "", "", ""))
    ensures SequenceReply([], req).Answer? <==> OnlyDelimiters(Clip(req.sequence, MAX_PAYLOAD_LEN), '>')
  {
    NoStepsIff(req.sequence);
    if ParseSteps(req.sequence).Steps? && ParseSteps(req.sequence) != Steps([]) {
      var steps := ParseSteps(req.sequence).steps;
      assert RunnerOn([], req)(0, steps[0], Clip(req.payload, MAX_RESPONSE_LEN)) == Failed(NoDevice);
    }
  }
}
