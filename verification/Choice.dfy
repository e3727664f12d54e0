/** When a step gets a device, and which (src/server/service/scheduler.c:62-86, 132-200,
    src/server/service/resource.c:81-133): stated with the fields of devices and requests alone. */
module Choice {
  import opened Common
  import opened CStrings
  import opened Registry
  import opened KeyRefText
  import opened SequenceText
  import opened Scheduler

  /** The device is enabled, has room, and declares the step for the key's source. */
  predicate Serves(d: Device, req: Request, step: Step) {
    && d.enabled && d.inflight < d.maxInflight
    && exists i :: 0 <= i < |d.caps|
         && d.caps[i].domain == step.domain && d.caps[i].action == step.action && d.caps[i].algorithm in {step.algorithm, "auto"}
         && (SourceValue(req.keyRef) == 0 || SourceValue(req.keyRef) in d.caps[i].sources)
  }

  lemma ServesIffEligible(d: Device, req: Request, step: Step)
    ensures Serves(d, req, step) <==> Eligible(d, StepQuery(req, step))
  {
    if Serves(d, req, step) {
      var i :| 0 <= i < |d.caps| && d.caps[i].domain == step.domain && d.caps[i].action == step.action
        && d.caps[i].algorithm in {step.algorithm, "auto"}
        && (SourceValue(req.keyRef) == 0 || SourceValue(req.keyRef) in d.caps[i].sources);
      assert CapMatches(d.caps[i], StepQuery(req, step));
    }
    if Eligible(d, StepQuery(req, step)) {
      var i :| 0 <= i < |d.caps| && CapMatches(d.caps[i], StepQuery(req, step));
    }
  }

  /** The types that a step without hint and key may run on. */
  predicate TypeAllowed(d: Device, step: Step) {
    if step.devType == DevUnknown then d.devType in {DevClassic, DevPqc} else d.devType == step.devType
  }

  lemma AllowedIffInOrder(d: Device, pref: Preference, step: Step)
    ensures Position(BuildOrder(pref, step.devType), d) < |BuildOrder(pref, step.devType)| <==> TypeAllowed(d, step)
  {
    var order := BuildOrder(pref, step.devType);
    if step.devType == DevUnknown {
      PositionOfTwo(order[0], order[1], d);
      assert order == [order[0], order[1]];
    } else {
      PositionOfOne(order[0], d);
      assert order == [order[0]];
    }
  }

  lemma PositionOfOne(a: DeviceType, d: Device)
    ensures Position([a], d) < 1 <==> TypeMatches(a, d)
  {
    assert [a][1..] == [];
  }

  lemma PositionOfTwo(a: DeviceType, b: DeviceType, d: Device)
    ensures Position([a, b], d) < 2 <==> TypeMatches(a, d) || TypeMatches(b, d)
  {
    assert [a, b][1..] == [b];
    PositionOfOne(b, d);
  }

  /** Without a hint and an internal key a step gets a device exactly when one serves it whose type is
      the step's, or any of the two if the step names none. */
  lemma UnhintedChoosesIff(devs: seq<Device>, req: Request, step: Step)
    requires req.deviceHint == "" && !IsInternalIndex(req.keyRef)
    ensures Choose(devs, req, step).Some?
      <==> exists i :: 0 <= i < |devs| && Serves(devs[i], req, step) && TypeAllowed(devs[i], step)
  {
    var q, order := StepQuery(req, step), BuildOrder(req.preference, step.devType);
    forall i | 0 <= i < |devs|
      ensures Candidate(devs[i], q, order) <==> Serves(devs[i], req, step) && TypeAllowed(devs[i], step)
    {
      ServesIffEligible(devs[i], req, step);
      AllowedIffInOrder(devs[i], req.preference, step);
    }
    if devs != [] { PickIsGlobalOptimum(devs, q, req.preference, order, 0); } else { NothingInNothing(q, req.preference, order, 0); }
  }

  lemma {:induction false} NothingInNothing(q: Query, pref: Preference, order: seq<DeviceType>, p: nat)
    requires p <= |order|
    ensures PickFrom([], q, pref, order, p) == None
    decreases |order| - p
  {
    if p < |order| { NothingInNothing(q, pref, order, p + 1); }
  }

  /** Bound to a device, by hint or key, a step gets a device exactly when one with that id serves it,
      and then it is the first such device of the table. */
  lemma BoundChoosesIff(devs: seq<Device>, req: Request, step: Step, id: string)
    requires BoundTo(req, id)
    ensures Choose(devs, req, step).Some? <==> exists i :: 0 <= i < |devs| && devs[i].id == id && Serves(devs[i], req, step)
    ensures Choose(devs, req, step).Some? ==>
      forall i :: 0 <= i < Choose(devs, req, step).value ==> !(devs[i].id == id && Serves(devs[i], req, step))
  {
    forall i | 0 <= i < |devs| ensures Serves(devs[i], req, step) <==> Eligible(devs[i], StepQuery(req, step)) {
      ServesIffEligible(devs[i], req, step);
    }
    HintedIsFirst(devs, StepQuery(req, step), id, 0);
  }

  lemma {:induction false} HintedIsFirst(devs: seq<Device>, q: Query, id: string, start: nat)
    requires start <= |devs|
    ensures PickHinted(devs, q, id, start).Some? ==>
      forall i :: start <= i < PickHinted(devs, q, id, start).value ==> !(devs[i].id == id && Eligible(devs[i], q))
    decreases |devs| - start
  {
    if start < |devs| && !(devs[start].id == id && Eligible(devs[start], q)) { HintedIsFirst(devs, q, id, start + 1); }
  }

  /** A device that the step could have. */
  predicate Fits(d: Device, req: Request, step: Step) {
    && Serves(d, req, step)
    && match ResolveHint(req.deviceHint, req.keyRef)
       case Hint(id) => if id != "" then d.id == id else TypeAllowed(d, step)
       case _ => false
  }

  lemma EmptyHintIff(req: Request)
    ensures ResolveHint(req.deviceHint, req.keyRef) == Hint("") <==> req.deviceHint == "" && !IsInternalIndex(req.keyRef)
  {
  }

  /** A step of any request gets a device exactly when some device of the table fits. */
  lemma ChoosesIff(devs: seq<Device>, req: Request, step: Step)
    ensures Choose(devs, req, step).Some? <==> exists i :: 0 <= i < |devs| && Fits(devs[i], req, step)
  {
    EmptyHintIff(req);
    match ResolveHint(req.deviceHint, req.keyRef)
    case Hint(id) =>
      if id != "" { BoundChoosesIff(devs, req, step, id); } else { UnhintedChoosesIff(devs, req, step); }
    case _ =>
  }

  /** What an unhinted choice is best in: no device of its type that serves the step has a better score
      under the preference, and among those of its score none a smaller priority number, then none less
      load, then none a smaller id. */
  lemma ChosenIsBest(devs: seq<Device>, req: Request, step: Step, k: nat, j: nat)
    requires req.deviceHint == "" && !IsInternalIndex(req.keyRef) && Choose(devs, req, step) == Some(k)
    requires j < |devs| && Serves(devs[j], req, step) && devs[j].devType == devs[k].devType
    ensures var a, b := devs[k], devs[j];
      && (req.preference == PrefSecure ==> b.security <= a.security)
      && (req.preference == PrefEfficient ==> b.efficiency <= a.efficiency)
      && ((req.preference == PrefSecure ==> a.security == b.security)
          && (req.preference == PrefEfficient ==> a.efficiency == b.efficiency) ==>
            && a.priority <= b.priority
            && (a.priority == b.priority ==> a.inflight <= b.inflight)
            && (a.priority == b.priority && a.inflight == b.inflight ==> !Less(b.id, a.id)))
  {
    var q, order := StepQuery(req, step), BuildOrder(req.preference, step.devType);
    PickIsGlobalOptimum(devs, q, req.preference, order, k);
    if j != k {
      ServesIffEligible(devs[j], req, step);
      SamePosition(order, devs[k], devs[j]);
      BestInPlain(devs, req.preference, order, k, j);
    } else {
      LessIrreflexive(devs[k].id);
    }
  }

  lemma BestInPlain(devs: seq<Device>, pref: Preference, order: seq<DeviceType>, k: nat, j: nat)
    requires k < |devs| && j < |devs| && Beats(devs, pref, order, k, j) && Position(order, devs[k]) == Position(order, devs[j])
    ensures var a, b := devs[k], devs[j];
      && (pref == PrefSecure ==> b.security <= a.security)
      && (pref == PrefEfficient ==> b.efficiency <= a.efficiency)
      && ((pref == PrefSecure ==> a.security == b.security) && (pref == PrefEfficient ==> a.efficiency == b.efficiency) ==>
            && a.priority <= b.priority
            && (a.priority == b.priority ==> a.inflight <= b.inflight)
            && (a.priority == b.priority && a.inflight == b.inflight ==> !Less(b.id, a.id)))
  {
    LessIrreflexive(devs[k].id);
    if Less(devs[k].id, devs[j].id) && Less(devs[j].id, devs[k].id) { LessTransitive(devs[k].id, devs[j].id, devs[k].id); }
  }
}
