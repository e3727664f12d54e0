/** The queue as a monitor: producers and consumers that sleep on `not_full` and `not_empty`, are
    signalled, wake up spuriously and race with newcomers for the lock (src/server/gateway/queue.c).
    A step is one pass through a critical section, which the mutex makes atomic. */
module Monitor {
  import opened Common
  import opened JobQueue

  type Tid = nat

  /** A job stands for its connection, numbered in the order of `accept`. */
  type Job = nat

  /** `sleepP`/`sleepC` wait in `pthread_cond_wait`; `wokenP`/`wokenC` have been woken and still have
      to re-check the loop condition.  `jobs` holds the job of each waiting producer; `pushed` and
      `popped` record the history; `drained` says that some pop has returned -1. */
  datatype State = State(
    q: Queue<Job>, sleepP: set<Tid>, wokenP: set<Tid>, sleepC: set<Tid>, wokenC: set<Tid>,
    jobs: map<Tid, Job>, pushed: seq<Job>, popped: seq<Job>, drained: bool)

  /** `woken` is the set of threads that the signal of this step wakes. */
  datatype Event =
    | PushCall(t: Tid, job: Job, woken: set<Tid>)
    | PushRetry(t: Tid, woken: set<Tid>)
    | PopCall(t: Tid, woken: set<Tid>)
    | PopRetry(t: Tid, woken: set<Tid>)
    | Spurious(t: Tid)
    | Stop

  function Waiting(s: State): set<Tid> { s.sleepP + s.wokenP + s.sleepC + s.wokenC }

  /** `pthread_cond_signal` wakes at least one sleeper if there is one. */
  predicate Signals(woken: set<Tid>, sleepers: set<Tid>) {
    woken <= sleepers && (sleepers != {} ==> woken != {})
  }

  predicate Enabled(s: State, e: Event) {
    match e
    case PushCall(t, job, woken) =>
      t !in Waiting(s) && (if PushResult(s.q).Pushed? then Signals(woken, s.sleepC) else woken == {})
    case PushRetry(t, woken) =>
      t in s.wokenP && t in s.jobs && (if PushResult(s.q).Pushed? then Signals(woken, s.sleepC) else woken == {})
    case PopCall(t, woken) =>
      t !in Waiting(s) && (if PopResult(s.q).Popped? then Signals(woken, s.sleepP) else woken == {})
    case PopRetry(t, woken) =>
      t in s.wokenC && (if PopResult(s.q).Popped? then Signals(woken, s.sleepP) else woken == {})
    case Spurious(t) => t in s.sleepP || t in s.sleepC
    case Stop => true
  }

  /** One pass of thread `t`, which is in no waiting set, through `queue_push`. */
  function PushPass(s: State, t: Tid, job: Job, woken: set<Tid>): State {
    match PushResult(s.q)
    case Pushed => s.(q := AfterPush(s.q, job), pushed := s.pushed + [job],
                      sleepC := s.sleepC - woken, wokenC := s.wokenC + woken, jobs := s.jobs - {t})
    case PushWaits => s.(sleepP := s.sleepP + {t}, jobs := s.jobs[t := job])
    case Refused => s.(jobs := s.jobs - {t})
  }

  function PopPass(s: State, t: Tid, woken: set<Tid>): State {
    match PopResult(s.q)
    case Popped(job) => s.(q := AfterPop(s.q), popped := s.popped + [job],
                           sleepP := s.sleepP - woken, wokenP := s.wokenP + woken)
    case PopWaits => s.(sleepC := s.sleepC + {t})
    case Drained => s.(drained := true)
  }

  function Apply(s: State, e: Event): State
    requires Enabled(s, e)
  {
    match e
    case PushCall(t, job, woken) => PushPass(s, t, job, woken)
    case PushRetry(t, woken) => PushPass(s.(wokenP := s.wokenP - {t}), t, s.jobs[t], woken)
    case PopCall(t, woken) => PopPass(s, t, woken)
    case PopRetry(t, woken) => PopPass(s.(wokenC := s.wokenC - {t}), t, woken)
    case Spurious(t) =>
      if t in s.sleepP then s.(sleepP := s.sleepP - {t}, wokenP := s.wokenP + {t})
      else s.(sleepC := s.sleepC - {t}, wokenC := s.wokenC + {t})
    case Stop => s.(q := s.q.(stop := true), sleepP := {}, wokenP := s.wokenP + s.sleepP,
                    sleepC := {}, wokenC := s.wokenC + s.sleepC)
  }

  function Initial(): State {
    State(Queue([], false), {}, {}, {}, {}, map[], [], [], false)
  }

  /** A finite run; any number of threads, any schedule. */
  ghost predicate Run(trace: seq<State>) {
    && trace != [] && trace[0] == Initial()
    && forall i :: 0 <= i < |trace| - 1 ==> Step(trace[i], trace[i + 1])
  }

  ghost predicate Step(s: State, s': State) {
    exists e :: Enabled(s, e) && s' == Apply(s, e)
  }

  predicate WaitsToPush(s: State, x: Tid) { x in s.sleepP || x in s.wokenP }
  predicate WaitsToPop(s: State, x: Tid) { x in s.sleepC || x in s.wokenC }

  // ------------------------------------------------------------- the invariant

  predicate Separate(a: set<Tid>, b: set<Tid>, c: set<Tid>, d: set<Tid>) {
    a !! b && a !! c && a !! d && b !! c && b !! d && c !! d
  }

  predicate Apart(s: State) {
    Separate(s.sleepP, s.wokenP, s.sleepC, s.wokenC) && s.jobs.Keys == s.sleepP + s.wokenP
  }

  /** Enough threads have been woken for the jobs, and for the free slots, that are there. */
  predicate EnoughWoken(s: State) {
    && (!s.q.stop && s.sleepC != {} ==> |s.q.items| <= |s.wokenC|)
    && (!s.q.stop && s.sleepP != {} ==> MAX_QUEUE_DEPTH - |s.q.items| <= |s.wokenP|)
    && (s.q.stop ==> s.sleepC == {} && s.sleepP == {})
  }

  predicate History(s: State) {
    && |s.q.items| <= MAX_QUEUE_DEPTH
    && s.pushed == s.popped + s.q.items
    && (s.drained ==> s.q.stop && s.q.items == [])
  }

  predicate Inv(s: State) { Apart(s) && EnoughWoken(s) && History(s) }

  /** Waking `w` out of `a` into `b` keeps the four sets apart. */
  lemma Moved(a: set<Tid>, b: set<Tid>, c: set<Tid>, d: set<Tid>, w: set<Tid>)
    requires Separate(a, b, c, d) && w <= a
    ensures Separate(a - w, b + w, c, d) && (a - w) + (b + w) == a + b
    ensures |b + w| == |b| + |w| && (w != {} ==> |w| >= 1)
  {
  }

  lemma Added(a: set<Tid>, b: set<Tid>, c: set<Tid>, d: set<Tid>, t: Tid)
    requires Separate(a, b, c, d) && t !in a + b + c + d
    ensures Separate(a + {t}, b, c, d)
  {
  }

  lemma JobAdded(jobs: map<Tid, Job>, a: set<Tid>, b: set<Tid>, t: Tid, job: Job)
    requires jobs.Keys - {t} == a + b
    ensures jobs[t := job].Keys == (a + {t}) + b
  {
    assert jobs[t := job].Keys == (jobs.Keys - {t}) + {t};
  }

  /** Thread `t` holds the lock and is in no waiting set; it may have left the woken producers
      (`p == 1`) or the woken consumers (`c == 1`) to get here. */
  predicate Inside(s: State, t: Tid, p: nat, c: nat) {
    && Separate(s.sleepP, s.wokenP, s.sleepC, s.wokenC) && t !in Waiting(s) && s.jobs.Keys - {t} == s.sleepP + s.wokenP
    && (!s.q.stop && s.sleepC != {} ==> |s.q.items| <= |s.wokenC| + c)
    && (!s.q.stop && s.sleepP != {} ==> MAX_QUEUE_DEPTH - |s.q.items| <= |s.wokenP| + p)
    && (s.q.stop ==> s.sleepC == {} && s.sleepP == {})
    && History(s)
  }

  lemma PassKeepsHistory(s: State, t: Tid, job: Job, woken: set<Tid>)
    requires History(s)
    ensures History(PushPass(s, t, job, woken)) && History(PopPass(s, t, woken))
  {
    assert s.popped + s.q.items + [job] == s.popped + (s.q.items + [job]);
    if s.q.items != [] {
      assert s.popped + s.q.items == s.popped + [s.q.items[0]] + s.q.items[1..];
    }
  }

  lemma PushPassApart(s: State, t: Tid, job: Job, woken: set<Tid>)
    requires Inside(s, t, 1, 0)
    requires if PushResult(s.q).Pushed? then Signals(woken, s.sleepC) else woken == {}
    ensures Apart(PushPass(s, t, job, woken)) && EnoughWoken(PushPass(s, t, job, woken))
  {
    match PushResult(s.q)
    case Pushed => PushedApart(s, t, job, woken);
    case PushWaits => WaitingApart(s, t, job);
    case Refused => assert PushPass(s, t, job, woken).jobs.Keys == s.jobs.Keys - {t};
  }

  lemma PushedApart(s: State, t: Tid, job: Job, woken: set<Tid>)
    requires Inside(s, t, 1, 0) && PushResult(s.q).Pushed? && Signals(woken, s.sleepC)
    ensures Apart(PushPass(s, t, job, woken)) && EnoughWoken(PushPass(s, t, job, woken))
  {
    Moved(s.sleepC, s.wokenC, s.sleepP, s.wokenP, woken);
    assert PushPass(s, t, job, woken).jobs.Keys == s.jobs.Keys - {t};
  }

  lemma WaitingApart(s: State, t: Tid, job: Job)
    requires Inside(s, t, 1, 0) && PushResult(s.q).PushWaits?
    ensures Apart(PushPass(s, t, job, {})) && EnoughWoken(PushPass(s, t, job, {}))
  {
    Added(s.sleepP, s.wokenP, s.sleepC, s.wokenC, t);
    JobAdded(s.jobs, s.sleepP, s.wokenP, t, job);
  }

  lemma PopPassApart(s: State, t: Tid, woken: set<Tid>)
    requires Inside(s, t, 0, 1) && t !in s.jobs
    requires if PopResult(s.q).Popped? then Signals(woken, s.sleepP) else woken == {}
    ensures Apart(PopPass(s, t, woken)) && EnoughWoken(PopPass(s, t, woken))
  {
    match PopResult(s.q)
    case Popped(job) => PoppedApart(s, t, woken);
    case PopWaits => SleepingApart(s, t);
    case Drained => DrainedApart(s, t);
  }

  lemma SameKeys(s: State, t: Tid)
    requires s.jobs.Keys - {t} == s.sleepP + s.wokenP && t !in s.jobs
    ensures s.jobs.Keys == s.sleepP + s.wokenP
  {
    assert s.jobs.Keys - {t} == s.jobs.Keys;
  }

  lemma PoppedApart(s: State, t: Tid, woken: set<Tid>)
    requires Inside(s, t, 0, 1) && t !in s.jobs && PopResult(s.q).Popped? && Signals(woken, s.sleepP)
    ensures Apart(PopPass(s, t, woken)) && EnoughWoken(PopPass(s, t, woken))
  {
    SameKeys(s, t);
    Moved(s.sleepP, s.wokenP, s.sleepC, s.wokenC, woken);
  }

  lemma SleepingApart(s: State, t: Tid)
    requires Inside(s, t, 0, 1) && t !in s.jobs && PopResult(s.q).PopWaits?
    ensures Apart(PopPass(s, t, {})) && EnoughWoken(PopPass(s, t, {}))
  {
    SameKeys(s, t);
    Added(s.sleepC, s.wokenC, s.sleepP, s.wokenP, t);
  }

  lemma DrainedApart(s: State, t: Tid)
    requires Inside(s, t, 0, 1) && t !in s.jobs && PopResult(s.q).Drained?
    ensures Apart(PopPass(s, t, {})) && EnoughWoken(PopPass(s, t, {}))
  {
    SameKeys(s, t);
  }

  lemma PushPassKeepsInv(s: State, t: Tid, job: Job, woken: set<Tid>)
    requires Inside(s, t, 1, 0)
    requires if PushResult(s.q).Pushed? then Signals(woken, s.sleepC) else woken == {}
    ensures Inv(PushPass(s, t, job, woken))
  {
    PushPassApart(s, t, job, woken);
    PassKeepsHistory(s, t, job, woken);
  }

  lemma PopPassKeepsInv(s: State, t: Tid, woken: set<Tid>)
    requires Inside(s, t, 0, 1) && t !in s.jobs
    requires if PopResult(s.q).Popped? then Signals(woken, s.sleepP) else woken == {}
    ensures Inv(PopPass(s, t, woken))
  {
    PopPassApart(s, t, woken);
    PassKeepsHistory(s, t, 0, woken);
  }

  /** Thread `t` has left `d`. */
  lemma Left(a: set<Tid>, b: set<Tid>, c: set<Tid>, d: set<Tid>, t: Tid)
    requires Separate(a, b, c, d) && t in d
    ensures Separate(a, b, c, d - {t}) && |d - {t}| == |d| - 1
    ensures t !in a && t !in b && t !in c
  {
  }

  lemma KeysWithout(jobs: map<Tid, Job>, t: Tid, keys: set<Tid>)
    requires jobs.Keys == keys && t !in keys
    ensures jobs.Keys - {t} == keys && t !in jobs
  {
  }

  lemma RetriesPush(s: State, t: Tid)
    requires Inv(s) && t in s.wokenP
    ensures Inside(s.(wokenP := s.wokenP - {t}), t, 1, 0)
  {
    Left(s.sleepP, s.sleepC, s.wokenC, s.wokenP, t);
    assert s.jobs.Keys - {t} == s.sleepP + (s.wokenP - {t});
  }

  lemma RetriesPop(s: State, t: Tid)
    requires Inv(s) && t in s.wokenC
    ensures Inside(s.(wokenC := s.wokenC - {t}), t, 0, 1) && t !in s.jobs
  {
    Left(s.sleepP, s.wokenP, s.sleepC, s.wokenC, t);
    KeysWithout(s.jobs, t, s.sleepP + s.wokenP);
  }

  lemma Newcomer(s: State, t: Tid, p: nat, c: nat)
    requires Inv(s) && t !in Waiting(s)
    ensures Inside(s, t, p, c) && t !in s.jobs
  {
    assert t !in s.jobs.Keys;
    assert s.jobs.Keys - {t} == s.jobs.Keys;
  }

  lemma SpuriousKeepsInv(s: State, t: Tid)
    requires Inv(s) && Enabled(s, Spurious(t))
    ensures Inv(Apply(s, Spurious(t)))
  {
    if t in s.sleepP {
      Moved(s.sleepP, s.wokenP, s.sleepC, s.wokenC, {t});
    } else {
      Moved(s.sleepC, s.wokenC, s.sleepP, s.wokenP, {t});
    }
  }

  lemma StopKeepsInv(s: State)
    requires Inv(s)
    ensures Inv(Apply(s, Stop))
  {
    Moved(s.sleepP, s.wokenP, s.sleepC, s.wokenC, s.sleepP);
    assert s.sleepP - s.sleepP == {};
  }

  lemma RetriedPushKeepsInv(s: State, t: Tid, woken: set<Tid>)
    requires Inv(s) && Enabled(s, PushRetry(t, woken))
    ensures Inv(Apply(s, PushRetry(t, woken)))
  {
    RetriesPush(s, t);
    PushPassKeepsInv(s.(wokenP := s.wokenP - {t}), t, s.jobs[t], woken);
  }

  lemma RetriedPopKeepsInv(s: State, t: Tid, woken: set<Tid>)
    requires Inv(s) && Enabled(s, PopRetry(t, woken))
    ensures Inv(Apply(s, PopRetry(t, woken)))
  {
    RetriesPop(s, t);
    PopPassKeepsInv(s.(wokenC := s.wokenC - {t}), t, woken);
  }

  lemma StepKeepsInv(s: State, e: Event)
    requires Inv(s) && Enabled(s, e)
    ensures Inv(Apply(s, e))
  {
    match e
    case PushCall(t, job, woken) =>
      Newcomer(s, t, 1, 0);
      PushPassKeepsInv(s, t, job, woken);
    case PushRetry(t, woken) => RetriedPushKeepsInv(s, t, woken);
    case PopCall(t, woken) =>
      Newcomer(s, t, 0, 1);
      PopPassKeepsInv(s, t, woken);
    case PopRetry(t, woken) => RetriedPopKeepsInv(s, t, woken);
    case Spurious(t) => SpuriousKeepsInv(s, t);
    case Stop => StopKeepsInv(s);
  }

  lemma {:induction false} RunKeepsInv(trace: seq<State>, i: nat)
    requires Run(trace) && i < |trace|
    ensures Inv(trace[i])
  {
    if i > 0 {
      RunKeepsInv(trace, i - 1);
      assert Step(trace[i - 1], trace[i - 1 + 1]);
      var e :| Enabled(trace[i - 1], e) && trace[i] == Apply(trace[i - 1], e);
      StepKeepsInv(trace[i - 1], e);
    }
  }

  // ------------------------------------------------------------- what a step does to its caller

  /** A pass through `queue_push` moves only its own thread in or out of the waiting producers. */
  lemma PushEffect(s: State, e: Event)
    requires s.sleepP !! s.wokenP && Enabled(s, e) && (e.PushCall? || e.PushRetry?)
    ensures var r, job := Apply(s, e), if e.PushCall? then e.job else s.jobs[e.t];
      && r.q == AfterPush(s.q, job) && r.drained == s.drained
      && (PushResult(s.q).PushWaits? ==> e.t in r.jobs && r.jobs[e.t] == job)
    ensures var r := Apply(s, e);
      forall x :: WaitsToPush(r, x) <==> (if x == e.t then PushResult(s.q).PushWaits? else WaitsToPush(s, x))
    ensures forall x :: WaitsToPop(Apply(s, e), x) <==> WaitsToPop(s, x)
  {
  }

  lemma PopEffect(s: State, e: Event)
    requires s.sleepC !! s.wokenC && Enabled(s, e) && (e.PopCall? || e.PopRetry?)
    ensures var r := Apply(s, e);
      r.q == AfterPop(s.q) && r.drained == (s.drained || PopResult(s.q).Drained?) && r.jobs == s.jobs
    ensures var r := Apply(s, e);
      forall x :: WaitsToPop(r, x) <==> (if x == e.t then PopResult(s.q).PopWaits? else WaitsToPop(s, x))
    ensures forall x :: WaitsToPush(Apply(s, e), x) <==> WaitsToPush(s, x)
  {
  }

  lemma OtherEffect(s: State, e: Event)
    requires Enabled(s, e) && (e.Spurious? || e.Stop?)
    ensures var r := Apply(s, e);
      r.q == s.q.(stop := s.q.stop || e.Stop?) && r.drained == s.drained && r.jobs == s.jobs
    ensures forall x :: WaitsToPop(Apply(s, e), x) <==> WaitsToPop(s, x)
    ensures forall x :: WaitsToPush(Apply(s, e), x) <==> WaitsToPush(s, x)
  {
  }

  // ------------------------------------------------------------- what every run promises

  /** No lost wakeup: a consumer that sleeps unsignalled is not needed, because at least as many
      woken consumers as there are jobs have yet to look; likewise producers and free slots.
      After stop nobody sleeps. */
  lemma NoLostWakeup(trace: seq<State>, i: nat)
    requires Run(trace) && i < |trace|
    ensures var s := trace[i];
      && (!s.q.stop && s.sleepC != {} ==> |s.q.items| <= |s.wokenC|)
      && (!s.q.stop && s.sleepP != {} ==> MAX_QUEUE_DEPTH - |s.q.items| <= |s.wokenP|)
      && (s.q.stop ==> s.sleepC == {} && s.sleepP == {})
  {
    RunKeepsInv(trace, i);
  }

  /** The threads in the monitor are never all asleep on both sides, and a waiting consumer
      (producer) with a job (a slot) to take comes with one that can take it in one step. */
  lemma SomeoneCanProceed(trace: seq<State>, i: nat)
    requires Run(trace) && i < |trace|
    ensures var s := trace[i];
      && (s.sleepC != {} && s.q.items != [] ==> s.wokenC != {})
      && (s.sleepP != {} && |s.q.items| < MAX_QUEUE_DEPTH ==> s.wokenP != {})
      && (s.sleepC != {} && s.sleepP != {} ==> s.wokenC != {} || s.wokenP != {})
  {
    RunKeepsInv(trace, i);
  }

  /** First in, first out: what was popped is a prefix of what was pushed, in push order, and the
      rest is exactly the queue. */
  lemma FirstInFirstOut(trace: seq<State>, i: nat)
    requires Run(trace) && i < |trace|
    ensures trace[i].popped <= trace[i].pushed && trace[i].pushed[|trace[i].popped|..] == trace[i].q.items
    ensures |trace[i].pushed| - |trace[i].popped| <= MAX_QUEUE_DEPTH
  {
    RunKeepsInv(trace, i);
  }

  lemma {:induction false} StopIsForever(trace: seq<State>, i: nat, j: nat)
    requires Run(trace) && i <= j < |trace| && trace[i].q.stop
    ensures trace[j].q.stop && trace[j].pushed == trace[i].pushed && (trace[i].drained ==> trace[j].drained)
    decreases j
  {
    if i < j {
      StopIsForever(trace, i, j - 1);
      assert Step(trace[j - 1], trace[j - 1 + 1]);
      var e :| Enabled(trace[j - 1], e) && trace[j] == Apply(trace[j - 1], e);
    }
  }

  /** Drain on stop: once a pop has failed, everything ever pushed has been popped, for good. */
  lemma DrainOnStop(trace: seq<State>, i: nat, j: nat)
    requires Run(trace) && i <= j < |trace| && trace[i].drained
    ensures trace[j].q.stop && trace[j].q.items == [] && trace[j].popped == trace[j].pushed == trace[i].pushed
  {
    RunKeepsInv(trace, i);
    StopIsForever(trace, i, j);
    RunKeepsInv(trace, j);
  }
}
