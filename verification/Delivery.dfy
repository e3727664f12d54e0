/** Which answers reach the client: a response that does not fit 2560 bytes is not sent
    (src/server/gateway/server.c:63-71), and sequences repeat their results. */
module Delivery {
  import opened Common
  import opened CStrings
  import opened Registry
  import opened SequenceText
  import opened Translator
  import opened Scheduler
  import opened Framing
  import Json

  // ------------------------------------------------------------- single requests

  lemma {:induction false} JoinedClean(values: seq<string>, sep: string)
    requires Json.Clean(sep) && forall i :: 0 <= i < |values| ==> Json.Clean(values[i])
    ensures Json.Clean(Joined(values, sep))
  {
    if values != [] {
      var init := values[..|values| - 1];
      assert forall i :: 0 <= i < |init| ==> init[i] == values[i];
      JoinedClean(init, sep);
    }
  }

  /** The trace of a single answer, before it is cut. */
  function Trace(r: StepResult): string { Joined([r.selectedDevice, r.backendCall, r.result], ":") }

  predicate ResultClean(r: StepResult) {
    Json.Clean(r.selectedDevice) && Json.Clean(r.backendName) && Json.Clean(r.backendCall) && Json.Clean(r.result)
  }

  lemma JoinedGrows(values: seq<string>, value: string, sep: string)
    ensures |Joined(values + [value], sep)| <= |Joined(values, sep)| + |sep| + |value|
  {
    assert (values + [value])[..|values|] == values;
  }

  lemma TraceLength(r: StepResult)
    ensures |Trace(r)| <= |r.selectedDevice| + |r.backendCall| + |r.result| + 2
  {
    var a, b, c := r.selectedDevice, r.backendCall, r.result;
    JoinedOne(a, ":");
    JoinedGrows([a], b, ":");
    JoinedGrows([a] + [b], c, ":");
    assert [a] + [b] + [c] == [a, b, c];
  }

  lemma TraceClean(r: StepResult)
    requires ResultClean(r)
    ensures Json.Clean(Trace(r)) && Json.Clean(Clip(Trace(r), MAX_RESPONSE_LEN))
  {
    JoinedClean([r.selectedDevice, r.backendCall, r.result], ":");
  }

  /** What a single answer takes when nothing needs an escape: its result counts twice. */
  function SingleLength(id: string, r: StepResult): nat {
    108 + |id| + |r.selectedDevice| + |r.backendName| + |r.backendCall| + |Trace(r)| + |r.result|
  }

  /** A single answer is sent exactly when that is less than 2560. */
  lemma SingleSentIff(ms: seq<Moment>, req: Request, r: StepResult)
    requires SingleReply(ms, req).Answer? && RunnerOn(ms, req)(0, SingleStep(req), req.payload) == Succeeded(r)
    requires |req.requestId| < MAX_ID_LEN && Json.Clean(req.requestId) && ResultClean(r)
    ensures Sent(SingleReply(ms, req).response) != "" <==> SingleLength(req.requestId, r) < RESPONSE_SIZE
  {
    TraceLength(r);
    TraceClean(r);
    SentWhenClean(SingleReply(ms, req).response);
  }

  lemma SentWhenClean(r: Response)
    requires Json.Clean(r.requestId) && Json.Clean(r.selectedDevice) && Json.Clean(r.backendName)
    requires Json.Clean(r.backendCall) && Json.Clean(r.trace) && Json.Clean(r.result)
    ensures Sent(r) != "" <==>
      107 + |StatusText(r.status)| + |r.requestId| + |r.selectedDevice| + |r.backendName| + |r.backendCall| + |r.trace| + |r.result|
        < RESPONSE_SIZE
  {
    SentIff(r);
    Json.EscapeIsIdentity(r.requestId);
    Json.EscapeIsIdentity(r.selectedDevice);
    Json.EscapeIsIdentity(r.backendName);
    Json.EscapeIsIdentity(r.backendCall);
    Json.EscapeIsIdentity(r.trace);
    Json.EscapeIsIdentity(r.result);
  }

  // ------------------------------------------------------------- sequences

  /** Steps whose result repeats the payload. */
  predicate Echoes(step: Step) {
    || (step.domain == DomainAsym && step.action in {ActionSign, ActionVerify, ActionEncrypt, ActionDecrypt})
    || (step.domain == DomainSym && step.action in {ActionEncrypt, ActionDecrypt, ActionMac})
    || (step.domain == DomainPqc && step.action in {ActionSign, ActionVerify, ActionKemEncap, ActionKemDecap})
    || (step.domain == DomainHash && step.action == ActionHash)
  }

  lemma ClassicEcho(d: Device, c: Call, step: Step)
    requires Echoes(step) && c.domain == step.domain && c.action == step.action && ClassicAdapter(d, c).Some?
    ensures |ClassicAdapter(d, c).value| >= |c.payload| + 13
  {
  }

  lemma PqcEcho(d: Device, c: Call, step: Step)
    requires Echoes(step) && c.domain == step.domain && c.action == step.action && PqcAdapter(d, c).Some?
    ensures |PqcAdapter(d, c).value| >= |c.payload| + 11
  {
  }

  predicate NoSkf(devs: seq<Device>) { forall k :: 0 <= k < |devs| ==> devs[k].profile != GM3000 }

  function AtMost(n: nat, most: nat): nat { if n < most then n else most }

  lemma EchoRuns(d: Device, req: Request, step: Step, payload: string, answer: Option<string>)
    requires Echoes(step) && d.profile != GM3000 && RunOn(d, req, step, payload, answer).Succeeded?
    ensures |RunOn(d, req, step, payload, answer).r.result| >= AtMost(|payload|, MAX_PAYLOAD_LEN - 1) + 11
  {
    var c := Translate(step.domain, step.action, step.algorithm, payload, req.auxPayload, req.keyRef, d).value.call;
    if d.devType == DevClassic { ClassicEcho(d, c, step); } else { PqcEcho(d, c, step); }
  }

  lemma EchoStep(m: Moment, req: Request, step: Step, payload: string)
    requires Echoes(step) && NoSkf(m.table) && StepOn(m, req, step, payload).Succeeded?
    ensures |StepOn(m, req, step, payload).r.result| >= AtMost(|payload|, MAX_PAYLOAD_LEN - 1) + 11
  {
    var k := Choose(m.table, req, step).value;
    EchoRuns(Lease(m.table, k)[k], req, step, payload, m.answer);
  }

  lemma JoinedLastTwo(values: seq<string>, sep: string)
    requires |values| >= 2 && values[|values| - 1] != "" && values[|values| - 2] != ""
    ensures |Joined(values, sep)| >= |values[|values| - 2]| + |sep| + |values[|values| - 1]|
  {
    assert values[..|values| - 1][|values| - 2] == values[|values| - 2];
  }

  /** Every step of the sequence repeats its payload, and no table it meets has a device of the SKF profile. */
  ghost predicate AllEcho(ms: seq<Moment>, steps: seq<Step>) {
    (forall j :: 0 <= j < |steps| ==> Echoes(steps[j])) && (forall j :: 0 <= j < |ms| ==> NoSkf(ms[j].table))
  }

  /** Result `i` is longer than its input, up to what a translated call holds. */
  predicate Grows(start: string, rs: seq<StepResult>, i: nat)
    requires i < |rs|
  {
    |rs[i].result| >= AtMost(|InputOf(start, rs, i)|, MAX_PAYLOAD_LEN - 1) + 11
  }

  ghost predicate AllGrow(start: string, rs: seq<StepResult>) { forall i: nat :: i < |rs| ==> Grows(start, rs, i) }

  lemma EchoesGrow(ms: seq<Moment>, req: Request, steps: seq<Step>, start: string, rs: seq<StepResult>)
    requires Chain(ms, req, steps, start) == Completed(rs) && AllEcho(ms, steps)
    ensures |rs| == |steps| && AllGrow(start, rs)
  {
    FoldLength(RunnerOn(ms, req), steps, 0, start);
    forall i: nat | i < |rs| ensures Grows(start, rs, i) {
      ChainFeedsForward(ms, req, steps, start, i);
      EchoStep(ms[i], req, steps[i], InputOf(start, rs, i));
    }
  }

  lemma {:induction false} GrownIsLong(start: string, rs: seq<StepResult>, i: nat)
    requires AllGrow(start, rs) && i < |rs| && |start| >= 800
    ensures |rs[i].result| >= if i == 0 then 811 else 822
    decreases i
  {
    assert Grows(start, rs, i);
    if i > 0 { GrownIsLong(start, rs, i - 1); }
  }

  lemma LongTraceIsNotSent(r: Response)
    requires |r.trace| >= 1637 && |r.result| >= 822
    ensures Sent(r) == ""
  {
    SentIff(r);
    Json.EscapeLength(r.trace);
    Json.EscapeLength(r.result);
    assert |StatusText(r.status)| >= 1;
  }

  lemma GrownAreNotSent(req: Request, start: string, rs: seq<StepResult>)
    requires AllGrow(start, rs) && |rs| >= 2 && |start| >= 800
    ensures Sent(ChainResponse(req, rs)) == ""
  {
    var n := |rs|;
    GrownIsLong(start, rs, n - 1);
    GrownIsLong(start, rs, n - 2);
    JoinedLastTwo(Results(rs), " => ");
    LongTraceIsNotSent(ChainResponse(req, rs));
  }

  /** The answer to a long sequence is lost: when two or more steps repeat a payload of 800 bytes, the
      steps succeed and the client gets nothing, whatever the tables are. */
  lemma LongSequenceIsDropped(ms: seq<Moment>, req: Request, steps: seq<Step>)
    requires ParseSteps(req.sequence) == Steps(steps) && |steps| >= 2 && |req.payload| >= 800
    requires SequenceReply(ms, req).Answer? && AllEcho(ms, steps)
    ensures Sent(SequenceReply(ms, req).response) == ""
  {
    var start := Clip(req.payload, MAX_RESPONSE_LEN);
    var rs := Chain(ms, req, steps, start).results;
    EchoesGrow(ms, req, steps, start, rs);
    GrownAreNotSent(req, start, rs);
  }
}
