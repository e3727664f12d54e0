/** The life of a connection (src/server/gateway/server.c): the accept loop and the workers move
    connections through the monitor queue; every accepted connection must be closed exactly once. */
module Server {
  import opened Common
  import opened JobQueue
  import M = Monitor

  /** `Deciding`: reading and parsing the request.  `InPush`: blocked in `queue_push`.  `Turned`:
      `queue_push` returned -1.  `Joining`: after `queue_stop`, waiting for the workers. */
  datatype Acceptor = Accepting | Deciding(c: nat) | InPush(c: nat) | Turned(c: nat) | Joining | Finished

  /** `InPop`: blocked in `queue_pop`.  `Serving`: executing the request of a connection. */
  datatype Worker = Ready | InPop | Serving(c: nat) | Exited

  /** Connections are numbered by `accept`; `closed` lists the `close` calls in order.  The acceptor
      is thread 0 of the monitor and worker `i` is thread `i + 1`. */
  datatype State = State(m: M.State, acceptor: Acceptor, workers: seq<Worker>, accepted: nat, closed: seq<nat>)

  datatype Event =
    | Accept | Reject | Push(woken: set<M.Tid>) | RetryPush(woken: set<M.Tid>) | CloseTurned | StopQueue
    | Pop(i: nat, woken: set<M.Tid>) | RetryPop(i: nat, woken: set<M.Tid>) | Close(i: nat)
    | Wake(t: M.Tid) | Join

  /** The step of the monitor inside a step of the server. */
  function Inner(s: State, e: Event): Option<M.Event> {
    match e
    case Push(woken) => if s.acceptor.Deciding? then Some(M.PushCall(0, s.acceptor.c, woken)) else None
    case RetryPush(woken) => Some(M.PushRetry(0, woken))
    case StopQueue => Some(M.Stop)
    case Pop(i, woken) => Some(M.PopCall(i + 1, woken))
    case RetryPop(i, woken) => Some(M.PopRetry(i + 1, woken))
    case Wake(t) => Some(M.Spurious(t))
    case _ => None
  }

  predicate Enabled(s: State, e: Event) {
    && (Inner(s, e).Some? ==> M.Enabled(s.m, Inner(s, e).value))
    && match e
       case Accept => s.acceptor.Accepting?
       case Reject => s.acceptor.Deciding?
       case Push(_) => s.acceptor.Deciding?
       case RetryPush(_) => s.acceptor.InPush?
       case CloseTurned => s.acceptor.Turned?
       case StopQueue => s.acceptor.Accepting?
       case Pop(i, _) => i < |s.workers| && s.workers[i].Ready?
       case RetryPop(i, _) => i < |s.workers| && s.workers[i].InPop?
       case Close(i) => i < |s.workers| && s.workers[i].Serving?
       case Wake(_) => true
       case Join => s.acceptor.Joining? && forall i :: 0 <= i < |s.workers| ==> s.workers[i].Exited?
  }

  function AfterPushCall(q: Queue<nat>, c: nat): Acceptor {
    match PushResult(q)
    case Pushed => Accepting
    case PushWaits => InPush(c)
    case Refused => Turned(c)
  }

  function AfterPopCall(q: Queue<nat>): Worker {
    match PopResult(q)
    case Popped(c) => Serving(c)
    case PopWaits => InPop
    case Drained => Exited
  }

  /** The threads take up the outcome of a step; `m` is the monitor's next state. */
  function Outer(s: State, e: Event, m: M.State): State
    requires Enabled(s, e)
  {
    var r := s.(m := m);
    match e
    case Accept => r.(acceptor := Deciding(s.accepted), accepted := s.accepted + 1)
    case Reject => r.(acceptor := Accepting, closed := s.closed + [s.acceptor.c])
    case Push(_) => r.(acceptor := AfterPushCall(s.m.q, s.acceptor.c))
    case RetryPush(_) => r.(acceptor := AfterPushCall(s.m.q, s.acceptor.c))
    case CloseTurned => r.(acceptor := Accepting, closed := s.closed + [s.acceptor.c])
    case StopQueue => r.(acceptor := Joining)
    case Pop(i, _) => r.(workers := s.workers[i := AfterPopCall(s.m.q)])
    case RetryPop(i, _) => r.(workers := s.workers[i := AfterPopCall(s.m.q)])
    case Close(i) => r.(workers := s.workers[i := Ready], closed := s.closed + [s.workers[i].c])
    case Wake(_) => r
    case Join => r.(acceptor := Finished)
  }

  function Next(s: State, e: Event): State
    requires Enabled(s, e)
  {
    Outer(s, e, if Inner(s, e).Some? then M.Apply(s.m, Inner(s, e).value) else s.m)
  }

  function Initial(n: nat): State {
    State(M.Initial(), Accepting, seq(n, _ => Ready), 0, [])
  }

  ghost predicate Step(s: State, s': State) {
    exists e :: Enabled(s, e) && s' == Next(s, e)
  }

  /** A finite run with `n` workers. */
  ghost predicate Run(n: nat, trace: seq<State>) {
    && trace != [] && trace[0] == Initial(n)
    && forall i :: 0 <= i < |trace| - 1 ==> Step(trace[i], trace[i + 1])
  }

  // ------------------------------------------------------------- accounting

  function Count(xs: seq<nat>, c: nat): nat {
    if xs == [] then 0 else (if xs[0] == c then 1 else 0) + Count(xs[1..], c)
  }

  function HoldsIt(w: Worker, c: nat): nat { if w.Serving? && w.c == c then 1 else 0 }

  /** How many workers hold connection `c`. */
  function Holders(ws: seq<Worker>, c: nat): nat {
    if ws == [] then 0 else HoldsIt(ws[0], c) + Holders(ws[1..], c)
  }

  function AcceptorHolds(a: Acceptor, c: nat): nat {
    if (a.Deciding? || a.InPush? || a.Turned?) && a.c == c then 1 else 0
  }

  /** In how many places connection `c` is: closed (once per `close`), queued, or held by a thread. */
  function Places(s: State, c: nat): nat {
    Count(s.closed, c) + Count(s.m.q.items, c) + AcceptorHolds(s.acceptor, c) + Holders(s.workers, c)
  }

  lemma {:induction false} CountAppend(xs: seq<nat>, x: nat, c: nat)
    ensures Count(xs + [x], c) == Count(xs, c) + if x == c then 1 else 0
  {
    if xs == [] {
      assert xs + [x] == [x];
    } else {
      assert (xs + [x])[1..] == xs[1..] + [x];
      CountAppend(xs[1..], x, c);
    }
  }

  lemma {:induction false} HoldersUpdate(ws: seq<Worker>, i: nat, w: Worker, c: nat)
    requires i < |ws|
    ensures Holders(ws[i := w], c) == Holders(ws, c) - HoldsIt(ws[i], c) + HoldsIt(w, c)
  {
    var ws' := ws[i := w];
    if i == 0 {
      assert ws'[1..] == ws[1..];
    } else {
      assert ws'[1..] == ws[1..][i - 1 := w];
      HoldersUpdate(ws[1..], i - 1, w, c);
    }
  }

  lemma {:induction false} NothingHeld(ws: seq<Worker>, c: nat)
    requires forall i :: 0 <= i < |ws| ==> !ws[i].Serving?
    ensures Holders(ws, c) == 0
  {
    if ws != [] { NothingHeld(ws[1..], c); }
  }

  /** Every accepted connection is in exactly one place, and no other number is anywhere. */
  ghost predicate Accounted(s: State) {
    forall c: nat :: Places(s, c) == if c < s.accepted then 1 else 0
  }

  /** Which threads of the monitor wait, and with which job. */
  ghost predicate Threads(s: State) {
    && (forall t: nat :: M.WaitsToPush(s.m, t) <==> t == 0 && s.acceptor.InPush?)
    && (s.acceptor.InPush? ==> 0 in s.m.jobs && s.m.jobs[0] == s.acceptor.c)
    && (forall t: nat :: M.WaitsToPop(s.m, t) <==> 1 <= t <= |s.workers| && s.workers[t - 1].InPop?)
  }

  predicate Control(s: State) {
    && (s.m.q.stop <==> s.acceptor.Joining? || s.acceptor.Finished?)
    && !s.acceptor.Turned?
    && (forall i :: 0 <= i < |s.workers| && s.workers[i].Exited? ==> s.m.drained)
    && (s.acceptor.Finished? ==> forall i :: 0 <= i < |s.workers| ==> s.workers[i].Exited?)
  }

  ghost predicate Inv(s: State) { M.Inv(s.m) && Threads(s) && Control(s) && Accounted(s) }

  /** What the monitor's part of a step does, in the server's terms. */
  ghost predicate InnerEffect(s: State, e: Event, m: M.State) {
    if e.Push? || e.RetryPush? then
      var waits := PushResult(s.m.q).PushWaits?;
      && (s.acceptor.Deciding? || s.acceptor.InPush?)
      && m.q == AfterPush(s.m.q, s.acceptor.c) && m.drained == s.m.drained
      && (waits ==> 0 in m.jobs && m.jobs[0] == s.acceptor.c)
      && (forall t: nat :: M.WaitsToPush(m, t) <==> if t == 0 then waits else M.WaitsToPush(s.m, t))
      && (forall t: nat :: M.WaitsToPop(m, t) <==> M.WaitsToPop(s.m, t))
    else if e.Pop? || e.RetryPop? then
      var waits := PopResult(s.m.q).PopWaits?;
      && m.q == AfterPop(s.m.q) && m.drained == (s.m.drained || PopResult(s.m.q).Drained?) && m.jobs == s.m.jobs
      && (forall t: nat :: M.WaitsToPop(m, t) <==> if t == e.i + 1 then waits else M.WaitsToPop(s.m, t))
      && (forall t: nat :: M.WaitsToPush(m, t) <==> M.WaitsToPush(s.m, t))
    else if e.Wake? || e.StopQueue? then
      && m.q == s.m.q.(stop := s.m.q.stop || e.StopQueue?) && m.drained == s.m.drained && m.jobs == s.m.jobs
      && (forall t: nat :: M.WaitsToPop(m, t) <==> M.WaitsToPop(s.m, t))
      && (forall t: nat :: M.WaitsToPush(m, t) <==> M.WaitsToPush(s.m, t))
    else m == s.m
  }

  lemma StepHasInnerEffect(s: State, e: Event)
    requires M.Inv(s.m) && Threads(s) && Enabled(s, e)
    ensures InnerEffect(s, e, Next(s, e).m)
  {
    if Inner(s, e).Some? {
      var ie := Inner(s, e).value;
      if e.Push? || e.RetryPush? { M.PushEffect(s.m, ie); }
      else if e.Pop? || e.RetryPop? { M.PopEffect(s.m, ie); }
      else { M.OtherEffect(s.m, ie); }
    }
  }

  lemma StepKeepsThreads(s: State, e: Event, m: M.State)
    requires Threads(s) && Enabled(s, e) && InnerEffect(s, e, m)
    ensures Threads(Outer(s, e, m))
  {
  }

  lemma StepKeepsControl(s: State, e: Event, m: M.State)
    requires Control(s) && Enabled(s, e) && InnerEffect(s, e, m)
    requires s.m.drained ==> s.m.q.stop && s.m.q.items == []
    ensures Control(Outer(s, e, m))
  {
  }

  lemma PlacesAfter(s: State, e: Event, m: M.State, c: nat)
    requires Enabled(s, e) && InnerEffect(s, e, m)
    ensures Places(Outer(s, e, m), c) == Places(s, c) + if e.Accept? && c == s.accepted then 1 else 0
  {
    match e
    case Accept =>
    case Reject => CountAppend(s.closed, s.acceptor.c, c);
    case Push(_) => CountAppend(s.m.q.items, s.acceptor.c, c);
    case RetryPush(_) => CountAppend(s.m.q.items, s.acceptor.c, c);
    case CloseTurned => CountAppend(s.closed, s.acceptor.c, c);
    case StopQueue =>
    case Pop(i, _) => HoldersUpdate(s.workers, i, AfterPopCall(s.m.q), c);
    case RetryPop(i, _) => HoldersUpdate(s.workers, i, AfterPopCall(s.m.q), c);
    case Close(i) =>
      HoldersUpdate(s.workers, i, Ready, c);
      CountAppend(s.closed, s.workers[i].c, c);
    case Wake(_) =>
    case Join =>
  }

  lemma StepKeepsAccount(s: State, e: Event, m: M.State)
    requires Accounted(s) && Enabled(s, e) && InnerEffect(s, e, m)
    ensures Accounted(Outer(s, e, m))
  {
    forall c: nat ensures Places(Outer(s, e, m), c) == if c < Outer(s, e, m).accepted then 1 else 0 {
      PlacesAfter(s, e, m, c);
    }
  }

  lemma StepKeepsInv(s: State, e: Event)
    requires Inv(s) && Enabled(s, e)
    ensures Inv(Next(s, e)) && |Next(s, e).workers| == |s.workers|
  {
    var m := Next(s, e).m;
    if Inner(s, e).Some? { M.StepKeepsInv(s.m, Inner(s, e).value); }
    StepHasInnerEffect(s, e);
    StepKeepsThreads(s, e, m);
    StepKeepsControl(s, e, m);
    StepKeepsAccount(s, e, m);
  }

  lemma InitialInv(n: nat)
    ensures Inv(Initial(n))
  {
    forall c: nat ensures Places(Initial(n), c) == 0 { NothingHeld(Initial(n).workers, c); }
  }

  lemma {:induction false} RunKeepsInv(n: nat, trace: seq<State>, i: nat)
    requires Run(n, trace) && i < |trace|
    ensures Inv(trace[i]) && |trace[i].workers| == n
  {
    if i == 0 {
      InitialInv(n);
    } else {
      RunKeepsInv(n, trace, i - 1);
      assert Step(trace[i - 1], trace[i - 1 + 1]);
      var e :| Enabled(trace[i - 1], e) && trace[i] == Next(trace[i - 1], e);
      StepKeepsInv(trace[i - 1], e);
    }
  }

  // ------------------------------------------------------------- what every run promises

  /** No connection is closed twice, none is closed before it was accepted, and none is lost. */
  lemma ClosedAtMostOnce(n: nat, trace: seq<State>, i: nat, c: nat)
    requires Run(n, trace) && i < |trace|
    ensures Count(trace[i].closed, c) <= 1 && Places(trace[i], c) == if c < trace[i].accepted then 1 else 0
  {
    RunKeepsInv(n, trace, i);
    assert Places(trace[i], c) == if c < trace[i].accepted then 1 else 0;
  }

  /** With at least one worker, when `server_run` has joined them every accepted connection has
      been closed exactly once. */
  lemma EveryConnectionClosed(n: nat, trace: seq<State>, i: nat, c: nat)
    requires Run(n, trace) && i < |trace| && n >= 1 && trace[i].acceptor.Finished?
    ensures Count(trace[i].closed, c) == if c < trace[i].accepted then 1 else 0
  {
    RunKeepsInv(n, trace, i);
    var s := trace[i];
    assert s.workers[0].Exited?;
    NothingHeld(s.workers, c);
    assert Places(s, c) == if c < s.accepted then 1 else 0;
  }

  /** `queue_push` never turns the acceptor down: only the acceptor itself stops the queue. */
  lemma NeverTurnedDown(n: nat, trace: seq<State>, i: nat)
    requires Run(n, trace) && i < |trace|
    ensures !trace[i].acceptor.Turned?
  {
    RunKeepsInv(n, trace, i);
  }

  ghost predicate AlwaysClosesAll(n: nat) {
    forall trace: seq<State>, i: nat, c: nat :: Run(n, trace) && i < |trace| && trace[i].acceptor.Finished? && c < trace[i].accepted
      ==> Count(trace[i].closed, c) == 1
  }

  /** Without workers the promise fails: the queued connection is never closed. */
  lemma NoWorkersLeak() returns (trace: seq<State>)
    ensures |trace| == 5 && Run(0, trace) && trace[4].acceptor.Finished? && trace[4].accepted == 1 && trace[4].closed == []
  {
    var s0 := Initial(0);
    var s1 := Next(s0, Accept);
    var s2 := Next(s1, Push({}));
    var s3 := Next(s2, StopQueue);
    var s4 := Next(s3, Join);
    trace := [s0, s1, s2, s3, s4];
    assert Step(s0, s1) && Step(s1, s2) && Step(s2, s3) && Step(s3, s4);
  }

  /** A server closes every connection it accepted, in every run, exactly when it has a worker. */
  lemma ClosesAllIffWorkers(n: nat)
    ensures AlwaysClosesAll(n) <==> n >= 1
  {
    if n >= 1 {
      forall trace: seq<State>, i: nat, c: nat | Run(n, trace) && i < |trace| && trace[i].acceptor.Finished? && c < trace[i].accepted
        ensures Count(trace[i].closed, c) == 1
      {
        EveryConnectionClosed(n, trace, i, c);
      }
    } else {
      var trace := NoWorkersLeak();
      assert Count(trace[4].closed, 0) == 0;
    }
  }

  // ------------------------------------------------------------- shutdown ends

  function Weight(w: Worker): nat { if w.Exited? then 0 else if w.Serving? then 2 else 1 }

  function Weights(ws: seq<Worker>): nat { if ws == [] then 0 else Weight(ws[0]) + Weights(ws[1..]) }

  /** Bounds the number of steps left after stop. */
  function Rank(s: State): nat {
    3 * |s.m.q.items| + Weights(s.workers) + if s.acceptor.Joining? then 1 else 0
  }

  lemma {:induction false} WeightsUpdate(ws: seq<Worker>, i: nat, w: Worker)
    requires i < |ws|
    ensures Weights(ws[i := w]) == Weights(ws) - Weight(ws[i]) + Weight(w)
  {
    var ws' := ws[i := w];
    if i == 0 {
      assert ws'[1..] == ws[1..];
    } else {
      assert ws'[1..] == ws[1..][i - 1 := w];
      WeightsUpdate(ws[1..], i - 1, w);
    }
  }

  lemma StoppedStepDescends(s: State, e: Event)
    requires Inv(s) && s.m.q.stop && Enabled(s, e)
    ensures Next(s, e).m.q.stop && Rank(Next(s, e)) < Rank(s)
  {
    StepHasInnerEffect(s, e);
    match e
    case Pop(i, _) => WeightsUpdate(s.workers, i, AfterPopCall(s.m.q));
    case RetryPop(i, _) => WeightsUpdate(s.workers, i, AfterPopCall(s.m.q));
    case Close(i) => WeightsUpdate(s.workers, i, Ready);
    case _ =>
  }

  /** After `queue_stop` every run is over within `Rank` steps, whatever the schedule. */
  lemma {:induction false} ShutdownIsFinite(n: nat, trace: seq<State>, i: nat)
    requires Run(n, trace) && i < |trace| && trace[i].m.q.stop
    ensures |trace| - 1 - i <= Rank(trace[i])
    decreases |trace| - i
  {
    if i + 1 < |trace| {
      RunKeepsInv(n, trace, i);
      assert Step(trace[i], trace[i + 1]);
      var e :| Enabled(trace[i], e) && trace[i + 1] == Next(trace[i], e);
      StoppedStepDescends(trace[i], e);
      ShutdownIsFinite(n, trace, i + 1);
    }
  }

  /** A thread that waits nowhere can call, and one that was woken can try again. */
  lemma CanPop(m: M.State, t: nat, woken: set<nat>)
    requires woken == if PopResult(m.q).Popped? then m.sleepP else {}
    ensures !M.WaitsToPop(m, t) && !M.WaitsToPush(m, t) ==> M.Enabled(m, M.PopCall(t, woken))
    ensures t in m.wokenC ==> M.Enabled(m, M.PopRetry(t, woken))
  {
  }

  lemma ReadyWaitsNowhere(s: State, i: nat)
    requires Threads(s) && i < |s.workers| && s.workers[i].Ready?
    ensures !M.WaitsToPop(s.m, i + 1) && !M.WaitsToPush(s.m, i + 1)
  {
  }

  lemma WorkerCanMove(s: State, i: nat)
    requires Threads(s) && i < |s.workers|
    requires s.workers[i].Ready? || s.workers[i].Serving? || (s.workers[i].InPop? && i + 1 in s.m.wokenC)
    ensures exists e :: Enabled(s, e) && !e.Wake?
  {
    if s.workers[i].Serving? {
      assert Enabled(s, Close(i));
    } else {
      var woken := if PopResult(s.m.q).Popped? then s.m.sleepP else {};
      CanPop(s.m, i + 1, woken);
      if s.workers[i].Ready? {
        ReadyWaitsNowhere(s, i);
        assert Enabled(s, Pop(i, woken));
      } else {
        assert Enabled(s, RetryPop(i, woken));
      }
    }
  }

  /** The server with a worker never deadlocks: until it has finished, some thread can move, and
      not merely by a spurious wakeup. */
  lemma NeverStuck(n: nat, trace: seq<State>, i: nat)
    requires Run(n, trace) && i < |trace| && n >= 1 && !trace[i].acceptor.Finished?
    ensures exists e :: Enabled(trace[i], e) && !e.Wake?
  {
    RunKeepsInv(n, trace, i);
    var s := trace[i];
    if s.acceptor.Accepting? {
      assert Enabled(s, Accept);
    } else if s.acceptor.Deciding? {
      assert Enabled(s, Reject);
    } else if s.acceptor.InPush? && 0 in s.m.wokenP {
      assert Enabled(s, RetryPush(if PushResult(s.m.q).Pushed? then s.m.sleepC else {}));
    } else if k :| 0 <= k < |s.workers| && (s.workers[k].Ready? || s.workers[k].Serving?) {
      WorkerCanMove(s, k);
    } else if k :| 0 <= k < |s.workers| && s.workers[k].InPop? {
      SomeConsumerWoken(s, k);
      var t :| t in s.m.wokenC;
      assert M.WaitsToPop(s.m, t);
      WorkerCanMove(s, t - 1);
    } else {
      assert s.workers[0].Exited?;
      assert Enabled(s, Join);
    }
  }

  /** So a run that can go no further has finished and has closed every connection it accepted once. */
  lemma MaximalRunClosesAll(n: nat, trace: seq<State>, c: nat)
    requires Run(n, trace) && n >= 1
    requires forall e :: Enabled(trace[|trace| - 1], e) ==> e.Wake?
    ensures trace[|trace| - 1].acceptor.Finished?
    ensures Count(trace[|trace| - 1].closed, c) == if c < trace[|trace| - 1].accepted then 1 else 0
  {
    if !trace[|trace| - 1].acceptor.Finished? { NeverStuck(n, trace, |trace| - 1); }
    EveryConnectionClosed(n, trace, |trace| - 1, c);
  }

  /** When the acceptor is blocked or joining, a worker in `queue_pop` has been woken. */
  lemma SomeConsumerWoken(s: State, k: nat)
    requires Inv(s) && k < |s.workers| && s.workers[k].InPop?
    requires s.acceptor.Joining? || (s.acceptor.InPush? && 0 !in s.m.wokenP)
    ensures s.m.wokenC != {}
  {
    assert M.WaitsToPop(s.m, k + 1);
    if s.acceptor.InPush? {
      assert M.WaitsToPush(s.m, 0);
      assert s.m.wokenP == {} by {
        forall t | t in s.m.wokenP ensures false { assert M.WaitsToPush(s.m, t); }
      }
    }
  }
}
