/** The device registry (src/server/service/resource.c): which device a request leases, and the
    lease counters.  One lock guards the table, so `Acquire` and `Release` are atomic steps. */
module Registry {
  import opened Common
  import opened CStrings

  /** `sources` is the set of bit numbers of the C field `key_source_mask`. */
  datatype Capability = Capability(domain: Domain, action: Action, algorithm: string, sources: set<nat>)

  datatype Device = Device(
    id: string, devType: DeviceType, profile: string, priority: int, enabled: bool,
    maxInflight: int, inflight: int, security: int, efficiency: int, caps: seq<Capability>)

  /** What a step asks a device for; `keySource` 0 means that any key source will do. */
  datatype Query = Query(domain: Domain, action: Action, algorithm: string, keySource: nat)

  predicate CapMatches(c: Capability, q: Query) {
    && c.domain == q.domain
    && c.action == q.action
    && (c.algorithm == q.algorithm || c.algorithm == "auto")
    && (q.keySource == 0 || q.keySource in c.sources)
  }

  predicate Supports(d: Device, q: Query) {
    exists i :: 0 <= i < |d.caps| && CapMatches(d.caps[i], q)
  }

  predicate Eligible(d: Device, q: Query) {
    d.enabled && d.inflight < d.maxInflight && Supports(d, q)
  }

  predicate DistinctIds(devs: seq<Device>) {
    forall i, j :: 0 <= i < j < |devs| ==> devs[i].id != devs[j].id
  }

  /** `better_candidate` with a current best. */
  predicate Better(best: Device, cand: Device, pref: Preference) {
    if pref == PrefSecure && cand.security != best.security then cand.security > best.security
    else if pref == PrefEfficient && cand.efficiency != best.efficiency then cand.efficiency > best.efficiency
    else if cand.priority != best.priority then cand.priority < best.priority
    else if cand.inflight != best.inflight then cand.inflight < best.inflight
    else Less(cand.id, best.id)
  }

  predicate TypeMatches(wanted: DeviceType, d: Device) {
    wanted == DevUnknown || d.devType == wanted
  }

  /** The inner scan of the unhinted search after `n` devices. */
  function BestUpTo(devs: seq<Device>, q: Query, pref: Preference, wanted: DeviceType, n: nat): (r: Option<nat>)
    requires n <= |devs|
    ensures r.Some? ==> r.value < n && Eligible(devs[r.value], q) && TypeMatches(wanted, devs[r.value])
    ensures r.None? ==> forall i :: 0 <= i < n ==> !(Eligible(devs[i], q) && TypeMatches(wanted, devs[i]))
  {
    if n == 0 then None
    else
      var best := BestUpTo(devs, q, pref, wanted, n - 1);
      var d := devs[n - 1];
      if Eligible(d, q) && TypeMatches(wanted, d) && (best.None? || Better(devs[best.value], d, pref))
      then Some(n - 1) else best
  }

  lemma BestStep(devs: seq<Device>, q: Query, pref: Preference, wanted: DeviceType, n: nat, d: Device)
    requires n < |devs| && d == devs[n]
    ensures var best := BestUpTo(devs, q, pref, wanted, n);
      BestUpTo(devs, q, pref, wanted, n + 1) ==
        if Eligible(d, q) && TypeMatches(wanted, d) && (best.None? || Better(devs[best.value], d, pref)) then Some(n) else best
  {
  }

  /** The outer scan, over the fallback order from position `p`. */
  function PickFrom(devs: seq<Device>, q: Query, pref: Preference, order: seq<DeviceType>, p: nat): (r: Option<nat>)
    requires p <= |order|
    ensures r.Some? ==> r.value < |devs| && Eligible(devs[r.value], q)
    decreases |order| - p
  {
    if p == |order| then None
    else
      var best := BestUpTo(devs, q, pref, order[p], |devs|);
      if best.Some? then best else PickFrom(devs, q, pref, order, p + 1)
  }

  /** The hinted search: the first eligible device with the hinted id. */
  function PickHinted(devs: seq<Device>, q: Query, hint: string, start: nat): (r: Option<nat>)
    requires start <= |devs|
    ensures r.Some? ==> start <= r.value < |devs| && devs[r.value].id == hint && Eligible(devs[r.value], q)
    ensures r.None? ==> forall i :: start <= i < |devs| && devs[i].id == hint ==> !Eligible(devs[i], q)
    decreases |devs| - start
  {
    if start == |devs| then None
    else if devs[start].id == hint && Eligible(devs[start], q) then Some(start)
    else PickHinted(devs, q, hint, start + 1)
  }

  function Pick(devs: seq<Device>, q: Query, hint: string, pref: Preference, order: seq<DeviceType>): (r: Option<nat>)
    ensures r.Some? ==> r.value < |devs| && Eligible(devs[r.value], q)
    ensures r.Some? && hint != "" ==> devs[r.value].id == hint
  {
    if hint != "" then PickHinted(devs, q, hint, 0) else PickFrom(devs, q, pref, order, 0)
  }

  function SetInflight(devs: seq<Device>, k: nat, n: int): seq<Device>
    requires k < |devs|
  {
    devs[k := devs[k].(inflight := n)]
  }

  function Lease(devs: seq<Device>, k: nat): seq<Device>
    requires k < |devs|
  {
    SetInflight(devs, k, devs[k].inflight + 1)
  }

  function AfterPick(devs: seq<Device>, r: Option<nat>): seq<Device>
    requires r.Some? ==> r.value < |devs|
  {
    if r.Some? then Lease(devs, r.value) else devs
  }

  function FirstWithId(devs: seq<Device>, id: string, start: nat): (r: Option<nat>)
    requires start <= |devs|
    ensures r.Some? ==> start <= r.value < |devs| && devs[r.value].id == id
    ensures r.Some? ==> forall i :: start <= i < r.value ==> devs[i].id != id
    ensures r.None? ==> forall i :: start <= i < |devs| ==> devs[i].id != id
    decreases |devs| - start
  {
    if start == |devs| then None
    else if devs[start].id == id then Some(start)
    else FirstWithId(devs, id, start + 1)
  }

  /** `registry_release`: the first device with the id loses one lease if it has any. */
  function Release(devs: seq<Device>, id: string): seq<Device> {
    var r := FirstWithId(devs, id, 0);
    if r.Some? && devs[r.value].inflight > 0 then SetInflight(devs, r.value, devs[r.value].inflight - 1) else devs
  }

  // ------------------------------------------------------------- the table itself

  class DeviceTable {
    const devices: array<Device>
    var count: nat

    ghost predicate Valid()
      reads this
    {
      devices.Length == MAX_DEVICES && count <= MAX_DEVICES
    }

    ghost function View(): seq<Device>
      reads this, devices
      requires Valid()
    {
      devices[..count]
    }

    constructor ()
      ensures Valid() && fresh(devices) && View() == []
    {
      devices := new Device[MAX_DEVICES];
      count := 0;
    }

    method Add(d: Device) returns (ok: bool)
      requires Valid()
      modifies this`count, devices
      ensures Valid()
      ensures ok == (|old(View())| < MAX_DEVICES)
      ensures View() == if ok then old(View()) + [d] else old(View())
    {
      if count >= MAX_DEVICES { return false; }
      devices[count] := d;
      count := count + 1;
      return true;
    }

    static method DeviceSupports(d: Device, q: Query) returns (b: bool)
      ensures b == Supports(d, q)
    {
      for i := 0 to |d.caps|
        invariant forall j :: 0 <= j < i ==> !CapMatches(d.caps[j], q)
      {
        if d.caps[i].domain != q.domain { continue; }
        if d.caps[i].action != q.action { continue; }
        if !(d.caps[i].algorithm == q.algorithm || d.caps[i].algorithm == "auto") { continue; }
        if q.keySource != 0 && q.keySource !in d.caps[i].sources { continue; }
        assert CapMatches(d.caps[i], q);
        return true;
      }
      return false;
    }

    method AcquireCandidate(q: Query, hint: string, pref: Preference, order: seq<DeviceType>)
      returns (out: Option<nat>)
      requires Valid()
      modifies devices
      ensures Valid()
      ensures out == Pick(old(View()), q, hint, pref, order)
      ensures View() == AfterPick(old(View()), out)
    {
      if hint != "" {
        out := FirstHinted(q, hint);
      } else {
        out := BestInOrder(q, pref, order);
      }
      if out.Some? { devices[out.value] := devices[out.value].(inflight := devices[out.value].inflight + 1); }
    }

    /** The scan for a hinted device. */
    method FirstHinted(q: Query, hint: string) returns (out: Option<nat>)
      requires Valid()
      ensures out == PickHinted(View(), q, hint, 0)
    {
      ghost var devs := View();
      for i := 0 to count
        invariant PickHinted(devs, q, hint, 0) == PickHinted(devs, q, hint, i)
      {
        var d := devices[i];
        assert d == devs[i];
        if d.id == hint && d.enabled && d.inflight < d.maxInflight {
          var s := DeviceSupports(d, q);
          if s { return Some(i); }
        }
      }
      return None;
    }

    /** The outer loop of the unhinted search. */
    method BestInOrder(q: Query, pref: Preference, order: seq<DeviceType>) returns (out: Option<nat>)
      requires Valid()
      ensures out == PickFrom(View(), q, pref, order, 0)
    {
      ghost var devs := View();
      for p := 0 to |order|
        invariant PickFrom(devs, q, pref, order, 0) == PickFrom(devs, q, pref, order, p)
      {
        var best := BestOfType(q, pref, order[p]);
        if best.Some? { return best; }
      }
      return None;
    }

    /** The inner loop of the unhinted search. */
    method BestOfType(q: Query, pref: Preference, wanted: DeviceType) returns (best: Option<nat>)
      requires Valid()
      ensures best == BestUpTo(View(), q, pref, wanted, |View()|)
    {
      best := None;
      ghost var devs := View();
      for i := 0 to count
        invariant best == BestUpTo(devs, q, pref, wanted, i)
      {
        var d := devices[i];
        assert d == devs[i];
        BestStep(devs, q, pref, wanted, i, d);
        if d.enabled && (wanted == DevUnknown || d.devType == wanted) && d.inflight < d.maxInflight {
          var s := DeviceSupports(d, q);
          if s {
            if best.None? {
              best := Some(i);
            } else {
              var b := devices[best.value];
              assert b == devs[best.value];
              if Better(b, d, pref) { best := Some(i); }
            }
          }
        }
      }
    }

    method ReleaseDevice(id: string)
      requires Valid()
      modifies devices
      ensures Valid() && View() == Release(old(View()), id)
    {
      for i := 0 to count
        invariant FirstWithId(View(), id, 0) == FirstWithId(View(), id, i)
      {
        if devices[i].id == id {
          if devices[i].inflight > 0 {
            devices[i] := devices[i].(inflight := devices[i].inflight - 1);
          }
          return;
        }
      }
    }
  }

  // ------------------------------------------------------------- the choice is a global optimum

  /** What the choice minimizes, compared field by field. */
  datatype Rank = Rank(pos: nat, score: int, priority: int, inflight: int, id: string)

  function Position(order: seq<DeviceType>, d: Device): (p: nat)
    ensures p <= |order|
    ensures p < |order| ==> TypeMatches(order[p], d)
    ensures forall i :: 0 <= i < p ==> !TypeMatches(order[i], d)
  {
    if order == [] || TypeMatches(order[0], d) then 0 else 1 + Position(order[1..], d)
  }

  function RankOf(d: Device, pref: Preference, order: seq<DeviceType>): Rank {
    var score := if pref == PrefSecure then -d.security else if pref == PrefEfficient then -d.efficiency else 0;
    Rank(Position(order, d), score, d.priority, d.inflight, d.id)
  }

  predicate RankLess(a: Rank, b: Rank) {
    || a.pos < b.pos
    || (a.pos == b.pos && a.score < b.score)
    || (a.pos == b.pos && a.score == b.score && a.priority < b.priority)
    || (a.pos == b.pos && a.score == b.score && a.priority == b.priority && a.inflight < b.inflight)
    || (a.pos == b.pos && a.score == b.score && a.priority == b.priority && a.inflight == b.inflight && Less(a.id, b.id))
  }

  lemma RankIsStrictTotalOrder(a: Rank, b: Rank, c: Rank)
    ensures !RankLess(a, a)
    ensures RankLess(a, b) && RankLess(b, c) ==> RankLess(a, c)
    ensures a != b ==> RankLess(a, b) || RankLess(b, a)
  {
    LessIrreflexive(a.id);
    if Less(a.id, b.id) && Less(b.id, c.id) { LessTransitive(a.id, b.id, c.id); }
    if a.id != b.id { LessTotal(a.id, b.id); }
  }

  /** `better_candidate` is the rank order among devices of one fallback position. */
  lemma BetterIsRankLess(best: Device, cand: Device, pref: Preference, order: seq<DeviceType>)
    requires Position(order, best) == Position(order, cand)
    ensures Better(best, cand, pref) <==> RankLess(RankOf(cand, pref, order), RankOf(best, pref, order))
  {
  }

  predicate Candidate(d: Device, q: Query, order: seq<DeviceType>) {
    Eligible(d, q) && Position(order, d) < |order|
  }

  /** `k` beats `j`: smaller rank, or the same rank and earlier in the table. */
  predicate Beats(devs: seq<Device>, pref: Preference, order: seq<DeviceType>, k: nat, j: nat)
    requires k < |devs| && j < |devs|
  {
    var a, b := RankOf(devs[k], pref, order), RankOf(devs[j], pref, order);
    RankLess(a, b) || (a == b && k < j)
  }

  lemma BeatsIsStrictTotalOrder(devs: seq<Device>, pref: Preference, order: seq<DeviceType>, i: nat, j: nat, k: nat)
    requires i < |devs| && j < |devs| && k < |devs|
    ensures Beats(devs, pref, order, i, j) && Beats(devs, pref, order, j, k) ==> Beats(devs, pref, order, i, k)
    ensures i != j ==> (Beats(devs, pref, order, i, j) <==> !Beats(devs, pref, order, j, i))
  {
    var a, b, c := RankOf(devs[i], pref, order), RankOf(devs[j], pref, order), RankOf(devs[k], pref, order);
    RankIsStrictTotalOrder(a, b, c);
    RankIsStrictTotalOrder(b, a, b);
    RankIsStrictTotalOrder(a, b, a);
  }

  lemma {:induction false} BestUpToIsMinimum(
    devs: seq<Device>, q: Query, pref: Preference, order: seq<DeviceType>, p: nat, n: nat)
    requires p < |order| && n <= |devs|
    requires forall i :: 0 <= i < |devs| && Candidate(devs[i], q, order) ==> Position(order, devs[i]) >= p
    ensures var r := BestUpTo(devs, q, pref, order[p], n);
      r.Some? ==> (
        && Position(order, devs[r.value]) == p
        && forall j :: 0 <= j < n && j != r.value && Candidate(devs[j], q, order) ==> Beats(devs, pref, order, r.value, j))
  {
    if n > 0 {
      BestUpToIsMinimum(devs, q, pref, order, p, n - 1);
      var best, r, d := BestUpTo(devs, q, pref, order[p], n - 1), BestUpTo(devs, q, pref, order[p], n), devs[n - 1];
      if r.Some? {
        if Candidate(d, q, order) && best.Some? && Position(order, d) == p {
          BetterIsRankLess(devs[best.value], d, pref, order);
          BeatsIsStrictTotalOrder(devs, pref, order, best.value, n - 1, n - 1);
        }
        forall j | 0 <= j < n && j != r.value && Candidate(devs[j], q, order)
          ensures Beats(devs, pref, order, r.value, j)
        {
          if best.Some? {
            BeatsIsStrictTotalOrder(devs, pref, order, r.value, best.value, j);
          }
        }
      }
    }
  }

  lemma {:induction false} PickFromIsMinimum(
    devs: seq<Device>, q: Query, pref: Preference, order: seq<DeviceType>, p: nat)
    requires p <= |order|
    requires forall i :: 0 <= i < |devs| && Candidate(devs[i], q, order) ==> Position(order, devs[i]) >= p
    ensures var r := PickFrom(devs, q, pref, order, p);
      && (r.None? ==> forall j :: 0 <= j < |devs| ==> !Candidate(devs[j], q, order))
      && (r.Some? ==> (
        && Candidate(devs[r.value], q, order)
        && forall j :: 0 <= j < |devs| && j != r.value && Candidate(devs[j], q, order) ==> Beats(devs, pref, order, r.value, j)))
    decreases |order| - p
  {
    if p < |order| {
      BestUpToIsMinimum(devs, q, pref, order, p, |devs|);
      if BestUpTo(devs, q, pref, order[p], |devs|).None? {
        PickFromIsMinimum(devs, q, pref, order, p + 1);
      }
    }
  }

  /** An unhinted acquire takes the candidate of least (fallback position, score, priority,
      inflight, id), the earliest one on a tie, and fails only when there is no candidate. */
  lemma PickIsGlobalOptimum(devs: seq<Device>, q: Query, pref: Preference, order: seq<DeviceType>, k: nat)
    requires k < |devs|
    ensures Pick(devs, q, "", pref, order) == Some(k) <==>
      Candidate(devs[k], q, order)
      && forall j :: 0 <= j < |devs| && j != k && Candidate(devs[j], q, order) ==> Beats(devs, pref, order, k, j)
    ensures Pick(devs, q, "", pref, order) == None <==> forall j :: 0 <= j < |devs| ==> !Candidate(devs[j], q, order)
  {
    PickFromIsMinimum(devs, q, pref, order, 0);
    var r := Pick(devs, q, "", pref, order);
    if r.Some? && r.value != k {
      BeatsIsStrictTotalOrder(devs, pref, order, k, r.value, r.value);
    }
  }

  lemma MemberOfPermutation(a: seq<Device>, b: seq<Device>, i: nat) returns (j: nat)
    requires multiset(a) == multiset(b) && i < |a|
    ensures j < |b| && b[j] == a[i]
  {
    assert a[i] in multiset(b);
    j :| 0 <= j < |b| && b[j] == a[i];
  }

  /** With distinct ids the chosen device does not depend on the order of the table. */
  lemma PickIgnoresTableOrder(a: seq<Device>, b: seq<Device>, q: Query, pref: Preference, order: seq<DeviceType>)
    requires multiset(a) == multiset(b) && DistinctIds(a)
    ensures var ra, rb := Pick(a, q, "", pref, order), Pick(b, q, "", pref, order);
      (ra.Some? <==> rb.Some?) && (ra.Some? ==> a[ra.value] == b[rb.value])
  {
    var ra, rb := Pick(a, q, "", pref, order), Pick(b, q, "", pref, order);
    PickFromIsMinimum(a, q, pref, order, 0);
    PickFromIsMinimum(b, q, pref, order, 0);
    if ra.Some? { var j := MemberOfPermutation(a, b, ra.value); }
    if rb.Some? { var j := MemberOfPermutation(b, a, rb.value); }
    if ra.Some? && rb.Some? && a[ra.value] != b[rb.value] {
      var ka, kb := ra.value, rb.value;
      var ja := MemberOfPermutation(a, b, ka);
      var jb := MemberOfPermutation(b, a, kb);
      assert Beats(a, pref, order, ka, jb) && Beats(b, pref, order, kb, ja);
      RankIsStrictTotalOrder(RankOf(a[ka], pref, order), RankOf(b[kb], pref, order), RankOf(a[ka], pref, order));
    }
  }

  // ------------------------------------------------------------- leases

  /** Releasing by id undoes a lease exactly when no earlier device shares the id. */
  lemma ReleaseUndoesLease(devs: seq<Device>, k: nat)
    requires k < |devs| && devs[k].inflight >= 0
    ensures Release(Lease(devs, k), devs[k].id) == devs <==> FirstWithId(devs, devs[k].id, 0) == Some(k)
  {
    var after := Lease(devs, k);
    SameFirst(devs, after, devs[k].id, 0);
    ReleaseAt(after, devs[k].id);
    LeaseAndBack(devs, k);
  }

  lemma LeaseAndBack(devs: seq<Device>, k: nat)
    requires k < |devs|
    ensures SetInflight(Lease(devs, k), k, devs[k].inflight) == devs
    ensures Lease(devs, k)[k].inflight != devs[k].inflight
  {
    assert devs[k].(inflight := devs[k].inflight) == devs[k];
  }

  lemma ReleaseAt(devs: seq<Device>, id: string)
    requires FirstWithId(devs, id, 0).Some?
    ensures var f := FirstWithId(devs, id, 0).value; var n := devs[f].inflight;
      Release(devs, id) == SetInflight(devs, f, if n > 0 then n - 1 else n)
  {
    var f := FirstWithId(devs, id, 0).value;
    if devs[f].inflight <= 0 {
      assert devs[f].(inflight := devs[f].inflight) == devs[f];
      assert devs[f := devs[f]] == devs;
    }
  }

  /** Nothing but the counters differs. */
  predicate SameTable(a: seq<Device>, b: seq<Device>) {
    |a| == |b| && forall k :: 0 <= k < |a| ==> a[k].(inflight := 0) == b[k].(inflight := 0)
  }

  lemma {:induction false} SameFirst(a: seq<Device>, b: seq<Device>, id: string, start: nat)
    requires |a| == |b| && start <= |a|
    requires forall i :: 0 <= i < |a| ==> a[i].id == b[i].id
    ensures FirstWithId(a, id, start) == FirstWithId(b, id, start)
    decreases |a| - start
  {
    if start < |a| { SameFirst(a, b, id, start + 1); }
  }

  lemma FirstWithDistinctIds(devs: seq<Device>, k: nat)
    requires DistinctIds(devs) && k < |devs|
    ensures FirstWithId(devs, devs[k].id, 0) == Some(k)
  {
  }

  // ------------------------------------------------------------- load balance

  /** Devices that agree on everything but their id and their load. */
  predicate Twins(a: Device, b: Device) {
    a.(id := b.id, inflight := b.inflight) == b
  }

  datatype Ask = Ask(q: Query, pref: Preference, order: seq<DeviceType>)

  /** A run of unhinted acquires without a release. */
  function RunAcquires(devs: seq<Device>, asks: seq<Ask>): (r: seq<Device>)
    ensures |r| == |devs|
    ensures forall i :: 0 <= i < |devs| ==> r[i].(inflight := devs[i].inflight) == devs[i]
    decreases |asks|
  {
    if asks == [] then devs
    else
      var a := asks[0];
      RunAcquires(AfterPick(devs, Pick(devs, a.q, "", a.pref, a.order)), asks[1..])
  }

  predicate Balanced(a: Device, b: Device) { -1 <= a.inflight - b.inflight <= 1 }

  lemma AcquireKeepsBalance(devs: seq<Device>, ask: Ask, i: nat, j: nat)
    requires i < |devs| && j < |devs| && Twins(devs[i], devs[j]) && Balanced(devs[i], devs[j])
    ensures var after := AfterPick(devs, Pick(devs, ask.q, "", ask.pref, ask.order));
      Balanced(after[i], after[j]) && Twins(after[i], after[j])
  {
    var r := Pick(devs, ask.q, "", ask.pref, ask.order);
    if r.Some? && i != j && (r.value == i || r.value == j) {
      var k, o := r.value, if r.value == i then j else i;
      PickIsGlobalOptimum(devs, ask.q, ask.pref, ask.order, k);
      if devs[k].inflight > devs[o].inflight {
        assert Supports(devs[o], ask.q) by {
          var c :| 0 <= c < |devs[k].caps| && CapMatches(devs[k].caps[c], ask.q);
          assert CapMatches(devs[o].caps[c], ask.q);
        }
        SamePosition(ask.order, devs[k], devs[o]);
      }
    }
  }

  lemma {:induction false} SamePosition(order: seq<DeviceType>, a: Device, b: Device)
    requires a.devType == b.devType
    ensures Position(order, a) == Position(order, b)
  {
    if order != [] { SamePosition(order[1..], a, b); }
  }

  /** From an idle registry, twin devices always carry loads within one of each other. */
  lemma {:induction false} TwinsStayBalanced(devs: seq<Device>, asks: seq<Ask>, i: nat, j: nat)
    requires i < |devs| && j < |devs| && Twins(devs[i], devs[j]) && Balanced(devs[i], devs[j])
    ensures var after := RunAcquires(devs, asks); Balanced(after[i], after[j])
    decreases |asks|
  {
    if asks != [] {
      var a := asks[0];
      AcquireKeepsBalance(devs, a, i, j);
      TwinsStayBalanced(AfterPick(devs, Pick(devs, a.q, "", a.pref, a.order)), asks[1..], i, j);
    }
  }
}
