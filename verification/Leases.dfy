/** Any number of workers on one registry.  Acquiring and releasing are atomic steps under the
    registry's lock; between them a worker translates and dispatches while others move.
    (src/server/service/resource.c:81-147, src/server/service/scheduler.c:162-363) */
module Leases {
  import opened Common
  import opened CStrings
  import opened Registry
  import opened KeyRefText
  import opened SequenceText
  import opened Scheduler

  /** `seen` lists what the finished steps met and `done` their results.  A worker that holds device `k`
      leased it on the table `table` and will release it by `id`. */
  datatype Worker =
    | Idle
    | Running(req: Request, seen: seq<Moment>, done: seq<StepResult>)
    | Holding(req: Request, seen: seq<Moment>, done: seq<StepResult>, table: seq<Device>, k: nat, id: string)
    | Answered(req: Request, seen: seq<Moment>, reply: Reply)

  datatype State = State(devs: seq<Device>, workers: seq<Worker>)

  /** `Release(w, answer)`: translation and dispatch are over; `answer` is the SKF library's. */
  datatype Event =
    | Begin(w: nat, req: Request) | Acquire(w: nat) | Release(w: nat, answer: Option<string>) | Finish(w: nat) | Leave(w: nat)

  /** The steps that `scheduler_execute` runs for a request, and the input of the first. */
  function Plan(req: Request): seq<Step> {
    if req.sequence == "" then [SingleStep(req)]
    else if ParseSteps(req.sequence).Steps? then ParseSteps(req.sequence).steps else []
  }

  function Start(req: Request): string {
    if req.sequence == "" then req.payload else Clip(req.payload, MAX_RESPONSE_LEN)
  }

  /** The request is answered before any step: by the pin check or because its sequence does not parse. */
  predicate Early(pin: string, req: Request) {
    !CheckPin(pin, req).Proceed? || (req.sequence != "" && ParseSteps(req.sequence).BadSequence?)
  }

  function FailReply(req: Request, reason: Reason): Reply {
    Refuse(req, if req.sequence == "" then NoResource else BackendFail, reason)
  }

  function DoneReply(req: Request, done: seq<StepResult>): Reply
    requires |done| >= |Plan(req)|
  {
    if req.sequence == "" then SingleAnswer(req, Succeeded(done[0])) else SequenceAnswer(req, Completed(done))
  }

  predicate Enabled(s: State, e: Event) {
    && e.w < |s.workers|
    && var p := s.workers[e.w];
       match e
       case Begin(_, req) => p.Idle?
       case Acquire(_) => p.Running? && |p.done| < |Plan(p.req)|
       case Release(_, _) => p.Holding? && |p.done| < |Plan(p.req)|
       case Finish(_) => p.Running? && |p.done| >= |Plan(p.req)|
       case Leave(_) => p.Answered?
  }

  function Begun(pin: string, req: Request): Worker {
    if Early(pin, req) then Answered(req, [], ReplyTo([], pin, req)) else Running(req, [], [])
  }

  function AfterAcquire(p: Worker, devs: seq<Device>): Worker
    requires p.Running? && |p.done| < |Plan(p.req)|
  {
    var r := Choose(devs, p.req, Plan(p.req)[|p.done|]);
    if r.None? then Answered(p.req, p.seen + [Moment(devs, None)], FailReply(p.req, FailureToChoose(p.req)))
    else Holding(p.req, p.seen, p.done, devs, r.value, devs[r.value].id)
  }

  function AfterRelease(p: Worker, answer: Option<string>): Worker
    requires p.Holding? && |p.done| < |Plan(p.req)|
  {
    var m := Moment(p.table, answer);
    match StepOn(m, p.req, Plan(p.req)[|p.done|], InputOf(Start(p.req), p.done, |p.done|))
    case Failed(reason) => Answered(p.req, p.seen + [m], FailReply(p.req, reason))
    case Succeeded(r) => Running(p.req, p.seen + [m], p.done + [r])
  }

  /** What the event makes of the worker that takes it. */
  function Moved(pin: string, s: State, e: Event): Worker
    requires Enabled(s, e)
  {
    var p := s.workers[e.w];
    match e
    case Begin(_, req) => Begun(pin, req)
    case Acquire(_) => AfterAcquire(p, s.devs)
    case Release(_, answer) => AfterRelease(p, answer)
    case Finish(_) => Answered(p.req, p.seen, DoneReply(p.req, p.done))
    case Leave(_) => Idle
  }

  function TableAfter(s: State, e: Event): seq<Device>
    requires Enabled(s, e)
  {
    var p := s.workers[e.w];
    match e
    case Acquire(_) => AfterPick(s.devs, Choose(s.devs, p.req, Plan(p.req)[|p.done|]))
    case Release(_, _) => Registry.Release(s.devs, p.id)
    case _ => s.devs
  }

  function Next(pin: string, s: State, e: Event): State
    requires Enabled(s, e)
  {
    State(TableAfter(s, e), s.workers[e.w := Moved(pin, s, e)])
  }

  ghost predicate Step1(pin: string, s: State, s': State) { exists e :: Enabled(s, e) && s' == Next(pin, s, e) }

  predicate AllIdle(devs: seq<Device>) { forall k :: 0 <= k < |devs| ==> devs[k].inflight == 0 }

  /** A run of `n` workers behind a gateway pin that starts with no lease out. */
  ghost predicate Run(devs: seq<Device>, pin: string, n: nat, trace: seq<State>) {
    && trace != [] && trace[0] == State(devs, seq(n, _ => Idle))
    && forall i :: 0 <= i < |trace| - 1 ==> Step1(pin, trace[i], trace[i + 1])
  }

  // ------------------------------------------------------------- what every run keeps

  /** A device that some request can lease. */
  predicate Leasable(d: Device) { d.enabled && d.maxInflight > 0 && d.caps != [] }

  /** Every step so far of the request has met a table of this registry and succeeded. */
  ghost predicate Underway(devs: seq<Device>, pin: string, req: Request, seen: seq<Moment>, done: seq<StepResult>) {
    && !Early(pin, req) && Midway(seen, req, Plan(req), Start(req), done)
    && forall i :: 0 <= i < |seen| ==> SameTable(seen[i].table, devs)
  }

  /** What a worker knows is true. */
  ghost predicate Told(devs: seq<Device>, pin: string, p: Worker) {
    match p
    case Idle => true
    case Running(req, seen, done) => Underway(devs, pin, req, seen, done)
    case Holding(req, seen, done, table, k, id) =>
      && Underway(devs, pin, req, seen, done) && |done| < |Plan(req)| && SameTable(table, devs)
      && Choose(table, req, Plan(req)[|done|]) == Some(k)
      && k < |devs| && devs[k].id == id && devs[k].enabled && devs[k].caps != []
    case Answered(req, seen, reply) =>
      reply == ReplyTo(seen, pin, req) && forall i :: 0 <= i < |seen| ==> SameTable(seen[i].table, devs)
  }

  ghost predicate Facts(devs: seq<Device>, pin: string, n: nat, s: State) {
    SameTable(s.devs, devs) && |s.workers| == n && forall w :: 0 <= w < n ==> Told(devs, pin, s.workers[w])
  }

  lemma AnswersWhenBroken(ms: seq<Moment>, pin: string, req: Request, reason: Reason)
    requires !Early(pin, req) && Chain(ms, req, Plan(req), Start(req)) == Broken(reason)
    ensures ReplyTo(ms, pin, req) == FailReply(req, reason)
  {
    if req.sequence == "" { FoldOne(RunnerOn(ms, req), SingleStep(req), req.payload); }
  }

  lemma AnswersWhenDone(ms: seq<Moment>, pin: string, req: Request, done: seq<StepResult>)
    requires !Early(pin, req) && Chain(ms, req, Plan(req), Start(req)) == Completed(done) && |done| >= |Plan(req)|
    ensures ReplyTo(ms, pin, req) == DoneReply(req, done)
  {
    if req.sequence == "" { FoldOne(RunnerOn(ms, req), SingleStep(req), req.payload); }
  }

  lemma SeenGrows(devs: seq<Device>, seen: seq<Moment>, m: Moment)
    requires SameTable(m.table, devs) && forall i :: 0 <= i < |seen| ==> SameTable(seen[i].table, devs)
    ensures forall i :: 0 <= i < |seen + [m]| ==> SameTable((seen + [m])[i].table, devs)
  {
  }

  lemma AcquireTells(devs: seq<Device>, pin: string, p: Worker, now: seq<Device>)
    requires p.Running? && |p.done| < |Plan(p.req)| && Told(devs, pin, p) && SameTable(now, devs)
    ensures Told(devs, pin, AfterAcquire(p, now))
  {
    var step := Plan(p.req)[|p.done|];
    var r := Choose(now, p.req, step);
    if r.None? {
      var m := Moment(now, None);
      SeenGrows(devs, p.seen, m);
      MidwayFails(p.seen, m, p.req, Plan(p.req), Start(p.req), p.done, FailureToChoose(p.req));
      AnswersWhenBroken(p.seen + [m], pin, p.req, FailureToChoose(p.req));
    } else {
      ChosenIsLeasable(now, p.req, step, r.value);
      SameDevice(now, devs, r.value);
    }
  }

  lemma ChosenIsLeasable(devs: seq<Device>, req: Request, step: Step, k: nat)
    requires Choose(devs, req, step) == Some(k)
    ensures k < |devs| && devs[k].enabled && devs[k].inflight < devs[k].maxInflight && devs[k].caps != []
  {
  }

  lemma SameDevice(a: seq<Device>, b: seq<Device>, k: nat)
    requires SameTable(a, b) && k < |a|
    ensures a[k].id == b[k].id && a[k].enabled == b[k].enabled && a[k].maxInflight == b[k].maxInflight && a[k].caps == b[k].caps
  {
    assert a[k].(inflight := 0) == b[k].(inflight := 0);
  }

  lemma ReleaseTells(devs: seq<Device>, pin: string, p: Worker, answer: Option<string>)
    requires p.Holding? && |p.done| < |Plan(p.req)| && Told(devs, pin, p)
    ensures Told(devs, pin, AfterRelease(p, answer))
  {
    var m := Moment(p.table, answer);
    SeenGrows(devs, p.seen, m);
    match StepOn(m, p.req, Plan(p.req)[|p.done|], InputOf(Start(p.req), p.done, |p.done|))
    case Failed(reason) =>
      MidwayFails(p.seen, m, p.req, Plan(p.req), Start(p.req), p.done, reason);
      AnswersWhenBroken(p.seen + [m], pin, p.req, reason);
    case Succeeded(r) =>
      MidwayGrows(p.seen, m, p.req, Plan(p.req), Start(p.req), p.done, r);
  }

  lemma FinishTells(devs: seq<Device>, pin: string, p: Worker)
    requires p.Running? && |p.done| >= |Plan(p.req)| && Told(devs, pin, p)
    ensures Told(devs, pin, Answered(p.req, p.seen, DoneReply(p.req, p.done)))
  {
    FedCompletes(RunnerOn(p.seen, p.req), Plan(p.req), Start(p.req), p.done);
    AnswersWhenDone(p.seen, pin, p.req, p.done);
  }

  lemma BeginTells(devs: seq<Device>, pin: string, req: Request)
    ensures Told(devs, pin, Begun(pin, req))
  {
  }

  lemma CountersOnly(devs: seq<Device>, now: seq<Device>, k: nat, n: int)
    requires SameTable(now, devs) && k < |now|
    ensures SameTable(SetInflight(now, k, n), devs)
  {
    assert now[k].(inflight := n).(inflight := 0) == now[k].(inflight := 0);
  }

  lemma TableKept(devs: seq<Device>, s: State, e: Event)
    requires SameTable(s.devs, devs) && Enabled(s, e)
    ensures SameTable(TableAfter(s, e), devs)
  {
    var p := s.workers[e.w];
    match e
    case Acquire(_) =>
      var r := Choose(s.devs, p.req, Plan(p.req)[|p.done|]);
      if r.Some? { CountersOnly(devs, s.devs, r.value, s.devs[r.value].inflight + 1); }
    case Release(_, _) =>
      var f := FirstWithId(s.devs, p.id, 0);
      if f.Some? { CountersOnly(devs, s.devs, f.value, s.devs[f.value].inflight - 1); }
    case _ =>
  }

  lemma MovedIsTold(devs: seq<Device>, pin: string, n: nat, s: State, e: Event)
    requires Facts(devs, pin, n, s) && Enabled(s, e)
    ensures Told(devs, pin, Moved(pin, s, e))
  {
    var p := s.workers[e.w];
    assert Told(devs, pin, p);
    match e
    case Begin(_, req) => BeginTells(devs, pin, req);
    case Acquire(_) => AcquireTells(devs, pin, p, s.devs);
    case Release(_, answer) => ReleaseTells(devs, pin, p, answer);
    case Finish(_) => FinishTells(devs, pin, p);
    case Leave(_) =>
  }

  lemma StepKeepsFacts(devs: seq<Device>, pin: string, n: nat, s: State, e: Event)
    requires Facts(devs, pin, n, s) && Enabled(s, e)
    ensures Facts(devs, pin, n, Next(pin, s, e))
  {
    TableKept(devs, s, e);
    MovedIsTold(devs, pin, n, s, e);
  }

  lemma {:induction false} RunKeepsFacts(devs: seq<Device>, pin: string, n: nat, trace: seq<State>, i: nat)
    requires Run(devs, pin, n, trace) && i < |trace|
    ensures Facts(devs, pin, n, trace[i])
  {
    if i > 0 {
      RunKeepsFacts(devs, pin, n, trace, i - 1);
      var e := EventAt(devs, pin, n, trace, i - 1);
      StepKeepsFacts(devs, pin, n, trace[i - 1], e);
    }
  }

  lemma EventAt(devs: seq<Device>, pin: string, n: nat, trace: seq<State>, i: nat) returns (e: Event)
    requires Run(devs, pin, n, trace) && i + 1 < |trace|
    ensures Enabled(trace[i], e) && trace[i + 1] == Next(pin, trace[i], e)
  {
    assert Step1(pin, trace[i], trace[i + 1]);
    e :| Enabled(trace[i], e) && trace[i + 1] == Next(pin, trace[i], e);
  }

  // ------------------------------------------------------------- replies under interleaving

  /** The registry was in this state at some point of the run up to `i`. */
  ghost predicate Was(trace: seq<State>, i: nat, table: seq<Device>) {
    exists j: nat :: j <= i && j < |trace| && trace[j].devs == table
  }

  /** All the tables a worker remembers. */
  ghost predicate Remembers(trace: seq<State>, i: nat, p: Worker) {
    && (!p.Idle? ==> forall j :: 0 <= j < |p.seen| ==> Was(trace, i, p.seen[j].table))
    && (p.Holding? ==> Was(trace, i, p.table))
  }

  lemma StillRemembers(trace: seq<State>, i: nat, p: Worker)
    requires Remembers(trace, i, p)
    ensures Remembers(trace, i + 1, p)
  {
    if !p.Idle? {
      forall j | 0 <= j < |p.seen| ensures Was(trace, i + 1, p.seen[j].table) {
        assert Was(trace, i, p.seen[j].table);
      }
    }
  }

  lemma MovedRemembers(pin: string, trace: seq<State>, i: nat, e: Event)
    requires i < |trace| && Enabled(trace[i], e) && Remembers(trace, i, trace[i].workers[e.w])
    ensures Remembers(trace, i, Moved(pin, trace[i], e))
  {
    var p := trace[i].workers[e.w];
    assert Was(trace, i, trace[i].devs);
    match e
    case Acquire(_) =>
    case Release(_, answer) =>
      var q := AfterRelease(p, answer);
      assert q.seen == p.seen + [Moment(p.table, answer)];
    case _ =>
  }

  lemma {:induction false} RunRemembers(devs: seq<Device>, pin: string, n: nat, trace: seq<State>, i: nat, w: nat)
    requires Run(devs, pin, n, trace) && i < |trace| && w < |trace[i].workers|
    ensures Remembers(trace, i, trace[i].workers[w])
  {
    if i > 0 {
      var e := EventAt(devs, pin, n, trace, i - 1);
      RunRemembers(devs, pin, n, trace, i - 1, w);
      NextRemembers(pin, trace, i - 1, e, w);
      StillRemembers(trace, i - 1, trace[i].workers[w]);
    }
  }

  lemma NextRemembers(pin: string, trace: seq<State>, i: nat, e: Event, w: nat)
    requires i < |trace| && w < |trace[i].workers| && Remembers(trace, i, trace[i].workers[w]) && Enabled(trace[i], e)
    ensures Remembers(trace, i, Next(pin, trace[i], e).workers[w])
  {
    if w == e.w { MovedRemembers(pin, trace, i, e); }
  }

  /** In every run, however the workers interleave, what a worker answers is the specified reply for
      the tables that its steps met, and those are states of the registry earlier in the run. */
  lemma RepliesAreSpecified(devs: seq<Device>, pin: string, n: nat, trace: seq<State>, i: nat, w: nat)
    requires Run(devs, pin, n, trace) && i < |trace| && w < |trace[i].workers| && trace[i].workers[w].Answered?
    ensures var p := trace[i].workers[w];
      && p.reply == ReplyTo(p.seen, pin, p.req)
      && forall j :: 0 <= j < |p.seen| ==> SameTable(p.seen[j].table, devs) && Was(trace, i, p.seen[j].table)
  {
    RunKeepsFacts(devs, pin, n, trace, i);
    RunRemembers(devs, pin, n, trace, i, w);
    assert Told(devs, pin, trace[i].workers[w]);
  }

  /** In every run, a lease held for a request that is bound to a device is a lease of that device,
      and a request that resolves to no device never holds a lease. */
  lemma BoundRequestsHoldTheirDevice(devs: seq<Device>, pin: string, n: nat, trace: seq<State>, i: nat, w: nat, id: string)
    requires Run(devs, pin, n, trace) && i < |trace| && w < |trace[i].workers| && trace[i].workers[w].Holding?
    ensures var p := trace[i].workers[w];
      && ResolveHint(p.req.deviceHint, p.req.keyRef).Hint?
      && p.k < |devs| && (BoundTo(p.req, id) ==> devs[p.k].id == id)
  {
    RunKeepsFacts(devs, pin, n, trace, i);
    var p := trace[i].workers[w];
    assert Told(devs, pin, p);
    SameDevice(p.table, devs, p.k);
    if BoundTo(p.req, id) { BoundStepUsesItsDevice(p.table, p.req, Plan(p.req)[|p.done|], id); }
  }

  // ------------------------------------------------------------- counters

  function Holds(w: Worker, k: nat): nat { if w.Holding? && w.k == k then 1 else 0 }

  /** How many workers hold device `k`. */
  function Holders(ws: seq<Worker>, k: nat): nat {
    if ws == [] then 0 else Holds(ws[0], k) + Holders(ws[1..], k)
  }

  lemma {:induction false} HoldersUpdate(ws: seq<Worker>, i: nat, w: Worker, k: nat)
    requires i < |ws|
    ensures Holders(ws[i := w], k) == Holders(ws, k) - Holds(ws[i], k) + Holds(w, k)
  {
    var ws' := ws[i := w];
    if i == 0 {
      assert ws'[1..] == ws[1..];
    } else {
      assert ws'[1..] == ws[1..][i - 1 := w];
      HoldersUpdate(ws[1..], i - 1, w, k);
    }
  }

  lemma {:induction false} SomeHolder(ws: seq<Worker>, i: nat, k: nat)
    requires i < |ws| && Holds(ws[i], k) == 1
    ensures Holders(ws, k) >= 1
  {
    if i > 0 { SomeHolder(ws[1..], i - 1, k); }
  }

  lemma {:induction false} HolderOf(ws: seq<Worker>, k: nat) returns (i: nat)
    requires Holders(ws, k) >= 1
    ensures i < |ws| && Holds(ws[i], k) == 1
  {
    if Holds(ws[0], k) == 1 { return 0; }
    i := HolderOf(ws[1..], k);
    i := i + 1;
  }

  lemma {:induction false} NoHolder(ws: seq<Worker>, k: nat)
    requires forall i :: 0 <= i < |ws| ==> Holds(ws[i], k) == 0
    ensures Holders(ws, k) == 0
  {
    if ws != [] { NoHolder(ws[1..], k); }
  }

  /** Every counter is the number of workers that hold the device. */
  ghost predicate Conserved(s: State) {
    forall k: nat :: k < |s.devs| ==> s.devs[k].inflight == Holders(s.workers, k)
  }

  /** No device is over its limit. */
  predicate WithinLimits(s: State) {
    forall k :: 0 <= k < |s.devs| ==> s.devs[k].inflight == 0 || s.devs[k].inflight <= s.devs[k].maxInflight
  }

  /** No earlier device has the same id. */
  predicate First(devs: seq<Device>, k: nat)
    requires k < |devs|
  {
    forall j :: 0 <= j < k ==> devs[j].id != devs[k].id
  }

  /** Only devices that are the first with their id are leased, so every release finds its device. */
  ghost predicate FirstsHeld(s: State) {
    forall w :: 0 <= w < |s.workers| && s.workers[w].Holding? ==>
      s.workers[w].k < |s.devs| && s.devs[s.workers[w].k].id == s.workers[w].id && First(s.devs, s.workers[w].k)
  }

  ghost predicate Counted(s: State) { Conserved(s) && WithinLimits(s) && FirstsHeld(s) }

  lemma FirstIsFound(devs: seq<Device>, k: nat)
    requires k < |devs| && First(devs, k)
    ensures FirstWithId(devs, devs[k].id, 0) == Some(k)
  {
  }

  lemma SameFirsts(a: seq<Device>, b: seq<Device>, k: nat)
    requires SameTable(a, b) && k < |a|
    ensures First(a, k) <==> First(b, k)
  {
    SameDevice(a, b, k);
    forall j: nat | j < k ensures a[j].id == b[j].id { SameDevice(a, b, j); }
  }

  lemma FirstsStay(s: State, devs: seq<Device>, w: nat, p: Worker)
    requires FirstsHeld(s) && SameTable(devs, s.devs) && w < |s.workers|
    requires p.Holding? ==> p.k < |devs| && devs[p.k].id == p.id && First(devs, p.k)
    ensures FirstsHeld(State(devs, s.workers[w := p]))
  {
    var s' := State(devs, s.workers[w := p]);
    forall v | 0 <= v < |s'.workers| && s'.workers[v].Holding?
      ensures s'.workers[v].k < |devs| && devs[s'.workers[v].k].id == s'.workers[v].id && First(devs, s'.workers[v].k)
    {
      if v != w {
        assert s'.workers[v] == s.workers[v];
        SameDevice(devs, s.devs, s.workers[v].k);
        SameFirsts(devs, s.devs, s.workers[v].k);
      }
    }
  }

  /** A worker takes a lease of its device. */
  lemma LeaseKeepsCounted(s: State, w: nat, p: Worker)
    requires Counted(s) && w < |s.workers| && !s.workers[w].Holding? && p.Holding?
    requires p.k < |s.devs| && s.devs[p.k].id == p.id && First(s.devs, p.k) && s.devs[p.k].inflight < s.devs[p.k].maxInflight
    ensures Counted(State(Lease(s.devs, p.k), s.workers[w := p]))
  {
    var s' := State(Lease(s.devs, p.k), s.workers[w := p]);
    forall k: nat | k < |s.devs| ensures s'.devs[k].inflight == Holders(s'.workers, k) {
      HoldersUpdate(s.workers, w, p, k);
    }
    LeaseIsSame(s.devs, p.k);
    SameFirsts(s'.devs, s.devs, p.k);
    FirstsStay(s, s'.devs, w, p);
  }

  lemma LeaseIsSame(devs: seq<Device>, k: nat)
    requires k < |devs|
    ensures SameTable(Lease(devs, k), devs)
  {
    CountersOnly(devs, devs, k, devs[k].inflight + 1);
  }

  /** A worker gives its lease back. */
  lemma ReturnKeepsCounted(s: State, w: nat, p: Worker)
    requires Counted(s) && w < |s.workers| && s.workers[w].Holding? && !p.Holding?
    ensures s.workers[w].k < |s.devs| && s.devs[s.workers[w].k].inflight > 0
    ensures Counted(State(Registry.Release(s.devs, s.workers[w].id), s.workers[w := p]))
  {
    var was := s.workers[w].k;
    SomeHolder(s.workers, w, was);
    FirstIsFound(s.devs, was);
    var s' := State(SetInflight(s.devs, was, s.devs[was].inflight - 1), s.workers[w := p]);
    forall k: nat | k < |s.devs| ensures s'.devs[k].inflight == Holders(s'.workers, k) {
      HoldersUpdate(s.workers, w, p, k);
    }
    CountersOnly(s.devs, s.devs, was, s.devs[was].inflight - 1);
    FirstsStay(s, s'.devs, w, p);
  }

  /** A worker moves on without a lease. */
  lemma PassiveKeepsCounted(s: State, w: nat, p: Worker)
    requires Counted(s) && w < |s.workers| && !s.workers[w].Holding? && !p.Holding?
    ensures Counted(State(s.devs, s.workers[w := p]))
  {
    var s' := State(s.devs, s.workers[w := p]);
    forall k: nat | k < |s.devs| ensures s'.devs[k].inflight == Holders(s'.workers, k) {
      HoldersUpdate(s.workers, w, p, k);
    }
    FirstsStay(s, s.devs, w, p);
  }

  /** The device that an acquire takes, if any, is the first with its id. */
  predicate TakesFirst(s: State, e: Event)
    requires Enabled(s, e)
  {
    e.Acquire? ==>
      var p := s.workers[e.w];
      var r := Choose(s.devs, p.req, Plan(p.req)[|p.done|]);
      r.Some? ==> First(s.devs, r.value)
  }

  lemma AcquireKeepsCounted(pin: string, s: State, w: nat)
    requires Counted(s) && Enabled(s, Acquire(w)) && TakesFirst(s, Acquire(w))
    ensures Counted(Next(pin, s, Acquire(w)))
  {
    var p := s.workers[w];
    var step := Plan(p.req)[|p.done|];
    var r := Choose(s.devs, p.req, step);
    if r.None? {
      PassiveKeepsCounted(s, w, AfterAcquire(p, s.devs));
    } else {
      ChosenIsLeasable(s.devs, p.req, step, r.value);
      LeaseKeepsCounted(s, w, AfterAcquire(p, s.devs));
    }
  }

  lemma StepKeepsCounted(pin: string, s: State, e: Event)
    requires Counted(s) && Enabled(s, e) && TakesFirst(s, e)
    ensures Counted(Next(pin, s, e))
  {
    match e
    case Acquire(w) => AcquireKeepsCounted(pin, s, w);
    case Release(w, _) => ReturnKeepsCounted(s, w, Moved(pin, s, e));
    case _ => PassiveKeepsCounted(s, e.w, Moved(pin, s, e));
  }

  // ------------------------------------------------------------- which registries lease shadowed devices

  function Sum(load: seq<nat>): nat {
    if load == [] then 0 else Sum(load[..|load| - 1]) + load[|load| - 1]
  }

  /** The registry with these leases out. */
  function Loaded(devs: seq<Device>, load: seq<nat>): seq<Device>
    requires |load| == |devs|
  {
    seq(|devs|, k requires 0 <= k < |devs| => devs[k].(inflight := load[k]))
  }

  /** Leases on devices that are the first with their id, within their limits. */
  predicate Possible(devs: seq<Device>, load: seq<nat>) {
    |load| == |devs| &&
    forall k :: 0 <= k < |devs| && load[k] > 0 ==> First(devs, k) && Leasable(devs[k]) && load[k] <= devs[k].maxInflight
  }

  predicate ChoosesShadowed(devs: seq<Device>, req: Request) {
    Plan(req) != [] && var r := Choose(devs, req, Plan(req)[0]); r.Some? && !First(devs, r.value)
  }

  /** With fewer than `n` leases out, some request would be given a device that is not the first with its id. */
  ghost predicate Exposed(devs: seq<Device>, n: nat) {
    exists load: seq<nat>, req :: Possible(devs, load) && Sum(load) < n && ChoosesShadowed(Loaded(devs, load), req)
  }

  lemma {:induction false} SumUpdate(load: seq<nat>, k: nat, v: nat)
    requires k < |load|
    ensures Sum(load[k := v]) == Sum(load) - load[k] + v
  {
    var last := |load| - 1;
    if k == last {
      assert load[k := v][..last] == load[..last];
    } else {
      assert load[k := v][..last] == load[..last][k := v];
      SumUpdate(load[..last], k, v);
    }
  }

  /** The leases that are out. */
  function Out(ws: seq<Worker>, m: nat): seq<nat> { seq(m, k requires 0 <= k < m => Holders(ws, k)) }

  function CountHolding(ws: seq<Worker>, m: nat): nat {
    if ws == [] then 0 else (if ws[0].Holding? && ws[0].k < m then 1 else 0) + CountHolding(ws[1..], m)
  }

  lemma {:induction false} SumOfZeros(m: nat)
    ensures Sum(seq(m, _ => 0)) == 0
  {
    if m > 0 {
      assert seq(m, _ => 0)[..m - 1] == seq(m - 1, _ => 0);
      SumOfZeros(m - 1);
    }
  }

  lemma {:induction false} SumOfOut(ws: seq<Worker>, m: nat)
    ensures Sum(Out(ws, m)) == CountHolding(ws, m)
  {
    if ws == [] {
      assert Out(ws, m) == seq(m, _ => 0);
      SumOfZeros(m);
    } else {
      SumOfOut(ws[1..], m);
      var rest := Out(ws[1..], m);
      if ws[0].Holding? && ws[0].k < m {
        assert Out(ws, m) == rest[ws[0].k := rest[ws[0].k] + 1];
        SumUpdate(rest, ws[0].k, rest[ws[0].k] + 1);
      } else {
        assert Out(ws, m) == rest;
      }
    }
  }

  lemma {:induction false} SomeoneFree(ws: seq<Worker>, m: nat, w: nat)
    requires w < |ws| && !ws[w].Holding?
    ensures CountHolding(ws, m) < |ws|
  {
    if w > 0 { SomeoneFree(ws[1..], m, w - 1); } else { AtMostAll(ws[1..], m); }
  }

  lemma {:induction false} AtMostAll(ws: seq<Worker>, m: nat)
    ensures CountHolding(ws, m) <= |ws|
  {
    if ws != [] { AtMostAll(ws[1..], m); }
  }

  lemma LoadedIsTable(devs: seq<Device>, s: State)
    requires SameTable(s.devs, devs) && Conserved(s)
    ensures Loaded(devs, Out(s.workers, |devs|)) == s.devs
  {
    var load := Out(s.workers, |devs|);
    forall k: nat | k < |devs| ensures Loaded(devs, load)[k] == s.devs[k] {
      assert s.devs[k].(inflight := 0).(inflight := load[k]) == devs[k].(inflight := 0).(inflight := load[k]);
    }
  }

  lemma OutIsPossible(devs: seq<Device>, pin: string, n: nat, s: State)
    requires Facts(devs, pin, n, s) && Counted(s)
    ensures Possible(devs, Out(s.workers, |devs|))
  {
    var load := Out(s.workers, |devs|);
    forall k: nat | k < |devs| && load[k] > 0
      ensures First(devs, k) && Leasable(devs[k]) && load[k] <= devs[k].maxInflight
    {
      var w := HolderOf(s.workers, k);
      assert Told(devs, pin, s.workers[w]);
      SameFirsts(s.devs, devs, k);
      SameDevice(s.devs, devs, k);
    }
  }

  /** The step that a worker is at could as well be the first step of a request. */
  lemma StepAsRequest(req: Request, j: nat) returns (alone: Request)
    requires j < |Plan(req)|
    ensures Plan(alone) == [Plan(req)[j]]
    ensures alone.deviceHint == req.deviceHint && alone.keyRef == req.keyRef && alone.preference == req.preference
  {
    if req.sequence == "" { return req; }
    var token := StepAlone(req.sequence, j);
    alone := req.(sequence := token);
  }

  /** An acquire that takes a shadowed device shows that the registry is exposed. */
  lemma ShadowedTakeExposes(devs: seq<Device>, pin: string, n: nat, s: State, e: Event)
    requires Facts(devs, pin, n, s) && Counted(s) && Enabled(s, e) && !TakesFirst(s, e)
    ensures Exposed(devs, n)
  {
    var p := s.workers[e.w];
    var load := Out(s.workers, |devs|);
    LoadedIsTable(devs, s);
    OutIsPossible(devs, pin, n, s);
    SumOfOut(s.workers, |devs|);
    SomeoneFree(s.workers, |devs|, e.w);
    var alone := StepAsRequest(p.req, |p.done|);
    assert Choose(s.devs, alone, Plan(alone)[0]) == Choose(s.devs, p.req, Plan(p.req)[|p.done|]);
    assert ChoosesShadowed(Loaded(devs, load), alone);
  }

  lemma {:induction false} RunKeepsCounted(devs: seq<Device>, pin: string, n: nat, trace: seq<State>, i: nat)
    requires AllIdle(devs) && !Exposed(devs, n) && Run(devs, pin, n, trace) && i < |trace|
    ensures Counted(trace[i])
  {
    if i == 0 {
      StartIsCounted(devs, n);
    } else {
      RunKeepsCounted(devs, pin, n, trace, i - 1);
      RunKeepsFacts(devs, pin, n, trace, i - 1);
      var e := EventAt(devs, pin, n, trace, i - 1);
      NextIsCounted(devs, pin, n, trace[i - 1], e);
    }
  }

  lemma StartIsCounted(devs: seq<Device>, n: nat)
    requires AllIdle(devs)
    ensures Counted(State(devs, seq(n, _ => Idle)))
  {
    var ws := seq(n, _ => Idle);
    forall k: nat | k < |devs| ensures Holders(ws, k) == 0 { NoHolder(ws, k); }
  }

  lemma NextIsCounted(devs: seq<Device>, pin: string, n: nat, s: State, e: Event)
    requires Facts(devs, pin, n, s) && Counted(s) && Enabled(s, e) && !Exposed(devs, n)
    ensures Counted(Next(pin, s, e))
  {
    if !TakesFirst(s, e) { ShadowedTakeExposes(devs, pin, n, s, e); }
    StepKeepsCounted(pin, s, e);
  }

  /** Unless `n` workers can lease a shadowed device, in every run of `n` workers every counter is the
      number of holders and within its limit, all counters are zero whenever nobody holds a lease, and
      every release finds its own device with a counter to decrement. */
  lemma LeasesConserved(devs: seq<Device>, pin: string, n: nat, trace: seq<State>, i: nat, k: nat)
    requires AllIdle(devs) && !Exposed(devs, n) && Run(devs, pin, n, trace) && i < |trace| && k < |devs|
    ensures var s := trace[i];
      && |s.devs| == |devs|
      && s.devs[k].inflight == Holders(s.workers, k)
      && (s.devs[k].inflight == 0 || s.devs[k].inflight <= devs[k].maxInflight)
      && ((forall w :: 0 <= w < |s.workers| ==> !s.workers[w].Holding?) ==> s.devs[k].inflight == 0)
  {
    RunKeepsCounted(devs, pin, n, trace, i);
    RunKeepsFacts(devs, pin, n, trace, i);
    var s := trace[i];
    SameDevice(s.devs, devs, k);
    if forall w :: 0 <= w < |s.workers| ==> !s.workers[w].Holding? { NoHolder(s.workers, k); }
  }

  lemma ReleaseFindsItsDevice(devs: seq<Device>, pin: string, n: nat, trace: seq<State>, i: nat, w: nat)
    requires AllIdle(devs) && !Exposed(devs, n) && Run(devs, pin, n, trace) && i < |trace|
    requires w < |trace[i].workers| && trace[i].workers[w].Holding?
    ensures var s, k := trace[i], trace[i].workers[w].k;
      && k < |s.devs| && s.devs[k].inflight > 0
      && Registry.Release(s.devs, s.workers[w].id) == SetInflight(s.devs, k, s.devs[k].inflight - 1)
  {
    RunKeepsCounted(devs, pin, n, trace, i);
    var s := trace[i];
    SomeHolder(s.workers, w, s.workers[w].k);
    FirstIsFound(s.devs, s.workers[w].k);
  }

  // ------------------------------------------------------------- the condition is exact

  ghost predicate AlwaysConserved(devs: seq<Device>, n: nat) {
    forall pin: string, trace: seq<State>, i: nat :: Run(devs, pin, n, trace) && i < |trace| ==> Conserved(trace[i])
  }

  /** What the configuration loader guarantees of ids: not empty, and within their C buffer. */
  predicate IdsLoaded(devs: seq<Device>) {
    forall k :: 0 <= k < |devs| ==> 0 < |devs[k].id| < MAX_FIELD_LEN
  }

  lemma RunExtends(devs: seq<Device>, n: nat, trace: seq<State>, e: Event)
    requires Run(devs, "", n, trace) && Enabled(trace[|trace| - 1], e)
    ensures Run(devs, "", n, trace + [Next("", trace[|trace| - 1], e)])
  {
    var t := trace + [Next("", trace[|trace| - 1], e)];
    forall i | 0 <= i < |t| - 1 ensures Step1("", t[i], t[i + 1]) {
      if i < |trace| - 1 { assert Step1("", trace[i], trace[i + 1]); }
    }
  }

  /** A request that hints at device `d` and asks for its first capability. */
  function AskFor(d: Device): Request
    requires d.caps != []
  {
    var c := d.caps[0];
    Request("", c.domain, c.action, c.algorithm, "", "", "", d.id, "", PrefBalanced, "")
  }

  lemma NoKeyNoSource()
    ensures SourceValue("") == 0 && !IsInternalIndex("")
  {
    assert Tokens(Clip("", MAX_FIELD_LEN), ';') == [];
  }

  lemma AskForChooses(devs: seq<Device>, k: nat)
    requires k < |devs| && devs[k].enabled && devs[k].inflight < devs[k].maxInflight && devs[k].caps != []
    requires First(devs, k) && 0 < |devs[k].id| < MAX_FIELD_LEN
    ensures Choose(devs, AskFor(devs[k]), SingleStep(AskFor(devs[k]))) == Some(k)
  {
    var req := AskFor(devs[k]);
    NoKeyNoSource();
    var q := StepQuery(req, SingleStep(req));
    assert CapMatches(devs[k].caps[0], q);
    HintedFirst(devs, q, devs[k].id, 0, k);
  }

  lemma {:induction false} HintedFirst(devs: seq<Device>, q: Query, id: string, start: nat, k: nat)
    requires start <= k < |devs| && devs[k].id == id && Eligible(devs[k], q) && First(devs, k)
    ensures PickHinted(devs, q, id, start) == Some(k)
    decreases k - start
  {
    if start < k { HintedFirst(devs, q, id, start + 1, k); }
  }

  /** Idle worker `m` begins a request and takes its first device. */
  lemma TakeOne(devs: seq<Device>, n: nat, trace: seq<State>, m: nat, req: Request, k: nat) returns (longer: seq<State>)
    requires Run(devs, "", n, trace) && Plan(req) != []
    requires var s := trace[|trace| - 1];
      m < |s.workers| && s.workers[m].Idle? && Choose(s.devs, req, Plan(req)[0]) == Some(k)
    ensures Run(devs, "", n, longer)
    ensures var s, s' := trace[|trace| - 1], longer[|longer| - 1];
      && s'.devs == Lease(s.devs, k)
      && s'.workers == s.workers[m := Holding(req, [], [], s.devs, k, s.devs[k].id)]
  {
    var s := trace[|trace| - 1];
    var s1 := Next("", s, Begin(m, req));
    RunExtends(devs, n, trace, Begin(m, req));
    var t1 := trace + [s1];
    assert s1.workers[m] == Running(req, [], []);
    RunExtends(devs, n, t1, Acquire(m));
    longer := t1 + [Next("", s1, Acquire(m))];
  }

  lemma LoadedLease(devs: seq<Device>, cur: seq<nat>, x: nat)
    requires |cur| == |devs| && x < |devs|
    ensures Lease(Loaded(devs, cur), x) == Loaded(devs, cur[x := cur[x] + 1])
  {
  }

  lemma {:induction false} SumBelow(a: seq<nat>, b: seq<nat>, x: nat)
    requires |a| == |b| && (forall k :: 0 <= k < |a| ==> a[k] <= b[k]) && x < |a|
    ensures Sum(a) <= Sum(b) && (a[x] < b[x] ==> Sum(a) < Sum(b))
  {
    var last := |a| - 1;
    if last > 0 {
      SumBelow(a[..last], b[..last], if x < last then x else 0);
    }
  }

  lemma LoadedFirst(devs: seq<Device>, cur: seq<nat>, x: nat)
    requires |cur| == |devs| && x < |devs|
    ensures First(Loaded(devs, cur), x) <==> First(devs, x)
  {
    var t := Loaded(devs, cur);
    forall j: nat | j < |devs| ensures t[j].id == devs[j].id {}
  }

  /** Every possible distribution of leases can be reached, one request a lease. */
  lemma {:induction false} Fill(devs: seq<Device>, n: nat, trace: seq<State>, m: nat, cur: seq<nat>, load: seq<nat>)
    returns (full: seq<State>)
    requires Run(devs, "", n, trace) && IdsLoaded(devs) && Possible(devs, load)
    requires |cur| == |load| && forall k :: 0 <= k < |cur| ==> cur[k] <= load[k]
    requires Sum(cur) <= Sum(load) && m + (Sum(load) - Sum(cur)) < n
    requires var s := trace[|trace| - 1];
      s.devs == Loaded(devs, cur) && |s.workers| == n && forall i :: m <= i < n ==> s.workers[i].Idle?
    ensures Run(devs, "", n, full)
    ensures var s := full[|full| - 1];
      && s.devs == Loaded(devs, load) && |s.workers| == n
      && forall i :: m + (Sum(load) - Sum(cur)) <= i < n ==> s.workers[i].Idle?
    decreases Sum(load) - Sum(cur)
  {
    if cur == load { return trace; }
    var x :| 0 <= x < |cur| && cur[x] != load[x];
    var next := cur[x := cur[x] + 1];
    SumBelow(cur, load, x);
    SumUpdate(cur, x, cur[x] + 1);
    SumBelow(next, load, x);
    var longer := TakeHinted(devs, n, trace, m, cur, x);
    full := Fill(devs, n, longer, m + 1, next, load);
  }

  /** Idle worker `m` takes device `x` by hint. */
  lemma TakeHinted(devs: seq<Device>, n: nat, trace: seq<State>, m: nat, cur: seq<nat>, x: nat) returns (longer: seq<State>)
    requires Run(devs, "", n, trace) && IdsLoaded(devs) && |cur| == |devs| && x < |devs|
    requires First(devs, x) && Leasable(devs[x]) && cur[x] < devs[x].maxInflight
    requires var s := trace[|trace| - 1]; s.devs == Loaded(devs, cur) && m < |s.workers| && s.workers[m].Idle?
    ensures Run(devs, "", n, longer)
    ensures var s, s' := trace[|trace| - 1], longer[|longer| - 1];
      && s'.devs == Loaded(devs, cur[x := cur[x] + 1]) && |s'.workers| == |s.workers|
      && forall i :: 0 <= i < |s.workers| && i != m ==> s'.workers[i] == s.workers[i]
  {
    var t := trace[|trace| - 1].devs;
    LoadedFirst(devs, cur, x);
    AskForChooses(t, x);
    longer := TakeOne(devs, n, trace, m, AskFor(t[x]), x);
    LoadedLease(devs, cur, x);
  }

  lemma ExposureBreaksConservation(devs: seq<Device>, n: nat)
    requires AllIdle(devs) && IdsLoaded(devs) && Exposed(devs, n)
    ensures !AlwaysConserved(devs, n)
  {
    var load: seq<nat>, req :| Possible(devs, load) && Sum(load) < n && ChoosesShadowed(Loaded(devs, load), req);
    var full := Reach(devs, n, load);
    var k := Choose(Loaded(devs, load), req, Plan(req)[0]).value;
    LoadedFirst(devs, load, k);
    ShadowedTakeLoses(devs, n, full, Sum(load), req, k);
  }

  /** A run whose leases are distributed like this, with the other workers idle. */
  lemma Reach(devs: seq<Device>, n: nat, load: seq<nat>) returns (full: seq<State>)
    requires AllIdle(devs) && IdsLoaded(devs) && Possible(devs, load) && Sum(load) < n
    ensures Run(devs, "", n, full)
    ensures var s := full[|full| - 1];
      s.devs == Loaded(devs, load) && |s.workers| == n && forall i :: Sum(load) <= i < n ==> s.workers[i].Idle?
  {
    var none := seq(|devs|, _ => 0);
    SumOfZeros(|devs|);
    var start := [State(devs, seq(n, _ => Idle))];
    assert Loaded(devs, none) == devs;
    full := Fill(devs, n, start, 0, none, load);
  }

  lemma ShadowedTakeLoses(devs: seq<Device>, n: nat, trace: seq<State>, w: nat, req: Request, k: nat)
    requires Run(devs, "", n, trace) && Plan(req) != []
    requires var s := trace[|trace| - 1];
      && w < |s.workers| && s.workers[w].Idle? && Choose(s.devs, req, Plan(req)[0]) == Some(k)
      && k < |s.devs| && !First(s.devs, k)
    ensures !AlwaysConserved(devs, n)
  {
    var s := trace[|trace| - 1];
    var taken := TakeOne(devs, n, trace, w, req, k);
    var s' := taken[|taken| - 1];
    LeaseIsSame(s.devs, k);
    SameFirsts(s'.devs, s.devs, k);
    SameDevice(s'.devs, s.devs, k);
    ShadowedReleaseLoses(devs, n, taken, w, k);
  }

  /** A worker that holds a shadowed device releases another one. */
  lemma ShadowedReleaseLoses(devs: seq<Device>, n: nat, trace: seq<State>, w: nat, k: nat)
    requires Run(devs, "", n, trace)
    requires var s := trace[|trace| - 1];
      && w < |s.workers| && s.workers[w].Holding? && s.workers[w].done == [] && Plan(s.workers[w].req) != []
      && k < |s.devs| && s.workers[w].k == k && s.devs[k].id == s.workers[w].id && !First(s.devs, k)
    ensures !AlwaysConserved(devs, n)
  {
    var s := trace[|trace| - 1];
    var release := Release(w, None);
    RunExtends(devs, n, trace, release);
    var s' := Next("", s, release);
    var after := trace + [s'];
    assert after[|after| - 1] == s' && after[|after| - 2] == s;
    ReleasedElsewhere(s, w, k, Moved("", s, release));
  }

  lemma ReleasedElsewhere(s: State, w: nat, k: nat, p: Worker)
    requires w < |s.workers| && s.workers[w].Holding? && !p.Holding?
    requires k < |s.devs| && s.workers[w].k == k && s.devs[k].id == s.workers[w].id && !First(s.devs, k)
    ensures !(Conserved(s) && Conserved(State(Registry.Release(s.devs, s.workers[w].id), s.workers[w := p])))
  {
    var s' := State(Registry.Release(s.devs, s.workers[w].id), s.workers[w := p]);
    HoldersUpdate(s.workers, w, p, k);
    assert s'.devs[k] == s.devs[k];
    assert Holders(s'.workers, k) == Holders(s.workers, k) - 1;
  }

  /** For every number of workers: lease conservation holds in all runs exactly when no request can be
      given a shadowed device while fewer leases are out than there are workers. */
  lemma ConservedIffUnexposed(devs: seq<Device>, n: nat)
    requires AllIdle(devs) && IdsLoaded(devs)
    ensures AlwaysConserved(devs, n) <==> !Exposed(devs, n)
  {
    if Exposed(devs, n) {
      ExposureBreaksConservation(devs, n);
    } else {
      forall pin: string, trace: seq<State>, i: nat | Run(devs, pin, n, trace) && i < |trace| ensures Conserved(trace[i]) {
        RunKeepsCounted(devs, pin, n, trace, i);
      }
    }
  }

  /** Every device that can be leased is the first one with its id. */
  predicate NoneShadowed(devs: seq<Device>) {
    forall k :: 0 <= k < |devs| && Leasable(devs[k]) ==> First(devs, k)
  }

  lemma DistinctIdsSuffice(devs: seq<Device>, n: nat)
    requires DistinctIds(devs)
    ensures !Exposed(devs, n)
  {
    UnshadowedIsUnexposed(devs, n);
  }

  lemma UnshadowedIsUnexposed(devs: seq<Device>, n: nat)
    requires NoneShadowed(devs)
    ensures !Exposed(devs, n)
  {
    forall load: seq<nat>, req | Possible(devs, load) && Sum(load) < n ensures !ChoosesShadowed(Loaded(devs, load), req) {
      if Plan(req) != [] { ChoiceIsFirst(devs, load, req); }
    }
  }

  lemma ChoiceIsFirst(devs: seq<Device>, load: seq<nat>, req: Request)
    requires NoneShadowed(devs) && |load| == |devs| && Plan(req) != []
    ensures var r := Choose(Loaded(devs, load), req, Plan(req)[0]); r.Some? ==> First(Loaded(devs, load), r.value)
  {
    var t := Loaded(devs, load);
    var r := Choose(t, req, Plan(req)[0]);
    if r.Some? {
      ChosenIsLeasable(t, req, Plan(req)[0], r.value);
      assert Leasable(devs[r.value]);
      LoadedFirst(devs, load, r.value);
    }
  }

  /** With enough workers a shadowed device that can be leased is leased: fill the first device with
      its id, and hint at it. */
  lemma ShadowExposes(devs: seq<Device>, k: nat) returns (n: nat)
    requires IdsLoaded(devs) && k < |devs| && Leasable(devs[k]) && !First(devs, k)
    requires forall j :: 0 <= j < k && Leasable(devs[j]) ==> First(devs, j)
    ensures Exposed(devs, n)
  {
    var f := FirstWithId(devs, devs[k].id, 0).value;
    var none: seq<nat> := seq(|devs|, _ => 0);
    var v := if Leasable(devs[f]) then devs[f].maxInflight else 0;
    var load := none[f := v];
    var t, req := Loaded(devs, load), AskFor(devs[k]);
    NoKeyNoSource();
    var q := StepQuery(req, SingleStep(req));
    assert CapMatches(t[k].caps[0], q) && Eligible(t[k], q);
    forall j: nat | j < k && t[j].id == t[k].id ensures !Eligible(t[j], q) {
      if Leasable(devs[j]) { assert First(devs, j); }
      if j == f && !Leasable(devs[f]) { assert !Supports(t[f], q) || !t[f].enabled || t[f].maxInflight <= 0; }
    }
    HintedAfter(t, q, t[k].id, 0, k);
    LoadedFirst(devs, load, k);
    n := Sum(load) + 1;
    assert ChoosesShadowed(t, req);
  }

  lemma {:induction false} HintedAfter(devs: seq<Device>, q: Query, id: string, start: nat, k: nat)
    requires start <= k < |devs| && devs[k].id == id && Eligible(devs[k], q)
    requires forall j :: start <= j < k && devs[j].id == id ==> !Eligible(devs[j], q)
    ensures PickHinted(devs, q, id, start) == Some(k)
    decreases k - start
  {
    if start < k { HintedAfter(devs, q, id, start + 1, k); }
  }

  lemma {:induction false} LeastShadowed(devs: seq<Device>, m: nat) returns (k: nat)
    requires m < |devs| && Leasable(devs[m]) && !First(devs, m)
    ensures k < |devs| && Leasable(devs[k]) && !First(devs, k)
    ensures forall j :: 0 <= j < k && Leasable(devs[j]) ==> First(devs, j)
    decreases m
  {
    if j :| 0 <= j < m && Leasable(devs[j]) && !First(devs, j) {
      k := LeastShadowed(devs, j);
    } else {
      k := m;
    }
  }

  /** So conservation holds for every number of workers exactly when no device that can be leased
      comes after another device with the same id. */
  lemma ConservedIffNoneShadowed(devs: seq<Device>)
    requires AllIdle(devs) && IdsLoaded(devs)
    ensures (forall n: nat :: AlwaysConserved(devs, n)) <==> NoneShadowed(devs)
  {
    if NoneShadowed(devs) {
      forall n: nat ensures AlwaysConserved(devs, n) {
        UnshadowedIsUnexposed(devs, n);
        ConservedIffUnexposed(devs, n);
      }
    } else {
      var m :| 0 <= m < |devs| && Leasable(devs[m]) && !First(devs, m);
      var k := LeastShadowed(devs, m);
      var n := ShadowExposes(devs, k);
      ConservedIffUnexposed(devs, n);
    }
  }
}
