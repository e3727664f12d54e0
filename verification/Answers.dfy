/** What a reply says (src/server/service/scheduler.c:21-60, 279-362), in terms of the request and of its
    steps: who is turned away, with which status, and what each field of an answer holds. */
module Answers {
  import opened Common
  import opened CStrings
  import opened Registry
  import opened SequenceText
  import opened Scheduler

  // ------------------------------------------------------------- the pin

  predicate RefusedWith(reply: Reply, req: Request, status: Status) {
    reply.Refusal? && reply.status == status && reply.requestId == Clip(req.requestId, 64)
  }

  /** Turned away is who brings another pin than a configured one, and nobody else.  The right pin
      answers a pin check; for all other requests it is as if no pin were configured. */
  lemma PinDecides(ms: seq<Moment>, pin: string, req: Request)
    ensures RefusedWith(ReplyTo(ms, pin, req), req, Unauthorized) <==> pin != "" && req.userPin != pin
    ensures pin != "" && req.userPin == pin && req.domain == DomainAuth && req.action == ActionCheckPin ==>
      ReplyTo(ms, pin, req)
        == Answer(Response(Clip(req.requestId, 64), StatusOk, "", "gateway-auth", "check_pin", "", "pin_ok"))
    ensures req.userPin == pin && !(req.domain == DomainAuth && req.action == ActionCheckPin) ==>
      ReplyTo(ms, pin, req) == ReplyTo(ms, "", req)
  {
    AdmittedIsNotUnauthorized(ms, req);
  }

  lemma AdmittedIsNotUnauthorized(ms: seq<Moment>, req: Request)
    ensures !RefusedWith(SequenceReply(ms, req), req, Unauthorized) && !RefusedWith(SingleReply(ms, req), req, Unauthorized)
  {
  }

  /** Without a configured pin the request is run, as a sequence if it has one. */
  lemma UnlockedIsRun(ms: seq<Moment>, req: Request)
    ensures ReplyTo(ms, "", req) == if req.sequence != "" then SequenceReply(ms, req) else SingleReply(ms, req)
  {
  }

  // ------------------------------------------------------------- lists in a field

  /** The non-empty values, each behind a separator. */
  function Separated(values: seq<string>, sep: string): string {
    if values == [] then ""
    else (if values[0] == "" then "" else sep + values[0]) + Separated(values[1..], sep)
  }

  /** ... without the first separator. */
  function ListText(values: seq<string>, sep: string): string {
    var s := Separated(values, sep);
    if |s| < |sep| then "" else s[|sep|..]
  }

  lemma {:induction false} SeparatedAppend(values: seq<string>, v: string, sep: string)
    ensures Separated(values + [v], sep) == Separated(values, sep) + if v == "" then "" else sep + v
  {
    if values == [] {
      assert values + [v] == [v];
      assert [v][1..] == [];
    } else {
      assert (values + [v])[1..] == values[1..] + [v];
      SeparatedAppend(values[1..], v, sep);
    }
  }

  lemma {:induction false} SeparatedIsJoined(values: seq<string>, sep: string)
    requires sep != ""
    ensures Separated(values, sep) == if Joined(values, sep) == "" then "" else sep + Joined(values, sep)
  {
    if values != [] {
      var init, last := values[..|values| - 1], values[|values| - 1];
      SeparatedIsJoined(init, sep);
      assert init + [last] == values;
      SeparatedAppend(init, last, sep);
      OneMore(sep, Joined(init, sep), last);
    }
  }

  lemma OneMore(sep: string, init: string, last: string)
    ensures (if init == "" then "" else sep + init) + (if last == "" then "" else sep + last)
      == var all := if last == "" then init else if init == "" then last else init + sep + last;
         if all == "" then "" else sep + all
  {
  }

  lemma ListIsJoined(values: seq<string>, sep: string)
    requires sep != ""
    ensures ListText(values, sep) == Joined(values, sep)
  {
    SeparatedIsJoined(values, sep);
    var j := Joined(values, sep);
    assert (sep + j)[|sep|..] == j;
  }

  /** A list of three, none of them empty. */
  lemma ListOfThree(a: string, b: string, c: string, sep: string)
    requires a != "" && b != "" && c != "" && sep != ""
    ensures ListText([a, b, c], sep) == a + sep + b + sep + c
  {
    assert [a, b, c][..2] == [a, b] && [a, b][..1] == [a] && [a][..0] == [];
    ListIsJoined([a, b, c], sep);
    assert Joined([a], sep) == a;
    assert Joined([a, b], sep) == a + sep + b;
  }

  // ------------------------------------------------------------- a request without a sequence

  /** The request's own step, on a device of any type. */
  function OwnOutcome(m: Moment, req: Request): Outcome {
    StepOn(m, req, Step(req.domain, req.action, DevUnknown, req.algorithm), req.payload)
  }

  /** Each field of the answer is the step's, and the trace lists device, call and result. */
  lemma SingleAnswerShows(m: Moment, req: Request, r: StepResult)
    requires OwnOutcome(m, req) == Succeeded(r)
    ensures SingleReply([m], req).Answer?
    ensures var a := SingleReply([m], req).response;
      && a.requestId == Clip(req.requestId, 64) && a.status == StatusOk
      && a.selectedDevice == r.selectedDevice && a.backendName == r.backendName && a.backendCall == r.backendCall
      && a.result == r.result
      && a.trace == Clip(ListText([r.selectedDevice, r.backendCall, r.result], ":"), 2048)
  {
    ListIsJoined([r.selectedDevice, r.backendCall, r.result], ":");
  }

  lemma SingleRefusal(m: Moment, req: Request)
    requires OwnOutcome(m, req).Failed?
    ensures SingleReply([m], req) == Refusal(Clip(req.requestId, 64), NoResource, OwnOutcome(m, req).reason)
  {
  }

  // ------------------------------------------------------------- a request with a sequence

  /** What step `i` consumes: the payload or the result before it. */
  function Consumed(req: Request, rs: seq<StepResult>, i: nat): string
    requires i <= |rs|
  {
    if i == 0 then Clip(req.payload, 2048) else rs[i - 1].result
  }

  predicate RanAt(ms: seq<Moment>, req: Request, steps: seq<Step>, rs: seq<StepResult>, i: nat)
    requires i < |rs| <= |steps| && |rs| <= |ms|
  {
    StepOn(ms[i], req, steps[i], Consumed(req, rs, i)) == Succeeded(rs[i])
  }

  /** The first steps ran, each on a table of its own and on the result before it. */
  ghost predicate RanInTurn(ms: seq<Moment>, req: Request, steps: seq<Step>, rs: seq<StepResult>) {
    |rs| <= |steps| && |rs| <= |ms| && forall i: nat :: i < |rs| ==> RanAt(ms, req, steps, rs, i)
  }

  /** The fields of the answer to a sequence whose steps had these results. */
  predicate AnswerLists(a: Response, req: Request, rs: seq<StepResult>) {
    && a.requestId == Clip(req.requestId, 64) && a.status == StatusOk
    && a.selectedDevice == Clip(ListText(seq(|rs|, i requires 0 <= i < |rs| => rs[i].selectedDevice), ">"), 2048)
    && a.backendName == Clip(ListText(seq(|rs|, i requires 0 <= i < |rs| => rs[i].backendName), ">"), 2048)
    && a.backendCall == Clip(ListText(seq(|rs|, i requires 0 <= i < |rs| => rs[i].backendCall), ">"), 2048)
    && a.trace == Clip(ListText(seq(|rs|, i requires 0 <= i < |rs| => rs[i].result), " => "), 2048)
    && a.result == (if rs == [] then "" else rs[|rs| - 1].result)
  }

  lemma ChainResponseLists(req: Request, rs: seq<StepResult>)
    ensures AnswerLists(ChainResponse(req, rs), req, rs)
  {
    assert Devices(rs) == seq(|rs|, i requires 0 <= i < |rs| => rs[i].selectedDevice);
    assert Backends(rs) == seq(|rs|, i requires 0 <= i < |rs| => rs[i].backendName);
    assert Calls(rs) == seq(|rs|, i requires 0 <= i < |rs| => rs[i].backendCall);
    assert Results(rs) == seq(|rs|, i requires 0 <= i < |rs| => rs[i].result);
    ListIsJoined(Devices(rs), ">");
    ListIsJoined(Backends(rs), ">");
    ListIsJoined(Calls(rs), ">");
    ListIsJoined(Results(rs), " => ");
  }

  lemma CompletedRan(ms: seq<Moment>, req: Request, steps: seq<Step>, rs: seq<StepResult>)
    requires Chain(ms, req, steps, Clip(req.payload, 2048)) == Completed(rs)
    ensures |rs| == |steps| && RanInTurn(ms, req, steps, rs)
  {
    var start := Clip(req.payload, 2048);
    FoldLength(RunnerOn(ms, req), steps, 0, start);
    if steps != [] { ChainFeedsForward(ms, req, steps, start, 0); }
    forall i: nat | i < |rs| ensures RanAt(ms, req, steps, rs, i) { ChainFeedsForward(ms, req, steps, start, i); }
  }

  /** An answered sequence has run all its steps in turn, and its answer lists what they reported. */
  lemma AnsweredSequence(ms: seq<Moment>, req: Request, steps: seq<Step>) returns (rs: seq<StepResult>)
    requires ParseSteps(req.sequence) == Steps(steps) && SequenceReply(ms, req).Answer?
    ensures |rs| == |steps| && RanInTurn(ms, req, steps, rs) && AnswerLists(SequenceReply(ms, req).response, req, rs)
  {
    rs := Chain(ms, req, steps, Clip(req.payload, 2048)).results;
    ChainResponseLists(req, rs);
    CompletedRan(ms, req, steps, rs);
  }

  /** A sequence that cannot be parsed runs no step; the parser's error is the reason. */
  lemma UnparsableSequence(ms: seq<Moment>, req: Request, e: StepError)
    requires ParseSteps(req.sequence) == BadSequence(e)
    ensures SequenceReply(ms, req) == Refusal(Clip(req.requestId, 64), BadRequest, BadSteps(e))
  {
  }

  /** The steps before ran in turn, and step `|rs|` failed. */
  ghost predicate StoppedBehind(ms: seq<Moment>, req: Request, steps: seq<Step>, rs: seq<StepResult>, reason: Reason) {
    && |rs| < |steps| && |rs| < |ms| && RanInTurn(ms, req, steps, rs)
    && StepOn(ms[|rs|], req, steps[|rs|], Consumed(req, rs, |rs|)) == Failed(reason)
  }

  lemma BrokenStopped(ms: seq<Moment>, req: Request, steps: seq<Step>) returns (rs: seq<StepResult>, reason: Reason)
    requires Chain(ms, req, steps, Clip(req.payload, 2048)).Broken? && |steps| <= |ms|
    ensures StoppedBehind(ms, req, steps, rs, reason)
    ensures Chain(ms, req, steps, Clip(req.payload, 2048)) == Broken(reason)
  {
    var start, run := Clip(req.payload, 2048), RunnerOn(ms, req);
    rs, reason := FoldStops(run, steps, start, []);
    forall i: nat | i < |rs| ensures RanAt(ms, req, steps, rs, i) { assert FedAt(run, steps, start, rs, i); }
  }

  /** Any other sequence without an answer stopped at its first step that failed, for the reason of
      that step. */
  lemma BrokenSequence(ms: seq<Moment>, req: Request, steps: seq<Step>) returns (rs: seq<StepResult>, reason: Reason)
    requires ParseSteps(req.sequence) == Steps(steps) && !SequenceReply(ms, req).Answer? && |steps| <= |ms|
    ensures StoppedBehind(ms, req, steps, rs, reason)
    ensures SequenceReply(ms, req) == Refusal(Clip(req.requestId, 64), BackendFail, reason)
  {
    rs, reason := BrokenStopped(ms, req, steps);
  }

  lemma {:induction false} FoldStops(run: Runner, steps: seq<Step>, start: string, done: seq<StepResult>)
    returns (rs: seq<StepResult>, reason: Reason)
    requires Fed(run, steps, start, done) && Fold(run, steps, 0, start).Broken?
    ensures Fed(run, steps, start, rs) && |rs| < |steps|
    ensures run(|rs|, steps[|rs|], InputOf(start, rs, |rs|)) == Failed(reason) && Fold(run, steps, 0, start) == Broken(reason)
    decreases |steps| - |done|
  {
    if |done| == |steps| { FedCompletes(run, steps, start, done); }
    match run(|done|, steps[|done|], InputOf(start, done, |done|))
    case Failed(why) =>
      rs, reason := done, why;
      FedBreaks(run, steps, start, done, why);
    case Succeeded(r) =>
      FedExtends(run, steps, start, done, r);
      rs, reason := FoldStops(run, steps, start, done + [r]);
  }
}
