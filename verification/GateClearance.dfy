/** How often a lease can clear: once for each hold, not once for all; and for how many identities a Robot lease
    can. */
module GateClearance {
  import opened GateTypes
  import opened ArtifactStore
  import opened GateController
  import opened GateLadder
  import opened GateLaws
  import opened GateRuns

  /** An enforced call on a path that the snapshot shows absent, with a contract to judge it by. */
  predicate OpenCall(p: PreInput) {
    && p.enabled && !p.controlPlane && !p.shadowed
    && p.target.Some? && p.effect != Unknown && p.contract && p.proof.Some?
    && p.snapshot.Some? && p.snapshot.value.coverage == AbsentFresh
  }

  /** A Robot call of a turn that must stop is denied before its lease is looked at. */
  predicate Stopped(v: GateView, p: PreInput) {
    p.mode == Robot && p.effect != ReadOnly && p.turn in Facing(v, p).terminal
  }

  function Lease(v: GateView, p: PreInput): Option<GateRecord> {
    GateForAction(v.gates, LeaseKey(p))
  }

  /** In every mode: an open call on a lease that is not settled clears it exactly when no earlier pass is still
      unanswered by a hold; otherwise it is held. A Robot call has run its controller probe by then. */
  lemma OpenCallClearsExactly(v: GateView, p: PreInput)
    requires Good(v.gates) && OpenCall(p) && !Stopped(v, p) && Unsettled(Lease(Facing(v, p), p))
    ensures Good(PreToolled(v, p).after.gates)
    ensures PreToolled(v, p).event ==
            if ConsumedClearance(Lease(Facing(v, p), p)) then Held(LeaseKey(p)) else Cleared(LeaseKey(p))
    ensures ConsumedClearance(Lease(PreToolled(v, p).after, p)) <==> !ConsumedClearance(Lease(Facing(v, p), p))
    ensures p.mode != Robot ==> Unsettled(Lease(PreToolled(v, p).after, p))
  {
    AdvanceLaw(v, p.session, p.probe);
    assert PreToolled(v, p) == Judged(Facing(v, p), p);
    JudgedClearsExactly(Facing(v, p), p);
  }

  lemma JudgedClearsExactly(v: GateView, p: PreInput)
    requires Good(v.gates) && OpenCall(p) && Unsettled(Lease(v, p))
    ensures Good(Judged(v, p).after.gates)
    ensures Judged(v, p).event == if ConsumedClearance(Lease(v, p)) then Held(LeaseKey(p)) else Cleared(LeaseKey(p))
    ensures ConsumedClearance(Lease(Judged(v, p).after, p)) <==> !ConsumedClearance(Lease(v, p))
    ensures p.mode != Robot ==> Unsettled(Lease(Judged(v, p).after, p))
  {
    if ConsumedClearance(Lease(v, p)) {
      HeldOpenCall(v, p);
    } else {
      ClearanceLaw(v.gates, p, Some(p.snapshot.value.locator));
    }
  }

  lemma HeldOpenCall(v: GateView, p: PreInput)
    requires Good(v.gates) && OpenCall(p) && ConsumedClearance(Lease(v, p))
    ensures var r := Judged(v, p);
            && r.event == Held(LeaseKey(p)) && Good(r.after.gates)
            && Lease(r.after, p).Some? && Lease(r.after, p).value.state !in {ClearedAbsent, RejectedPresent}
            && (p.mode != Robot ==> Lease(r.after, p).value.state != Quarantined)
  {
    var locator := Some(p.snapshot.value.locator);
    assert Judged(v, p) == Evaluated(v, p, StaleCoverage, locator, p.proof.value);
    EvaluatedParts(v, p, StaleCoverage, locator, p.proof.value);
    StoreAndHookAgree(v.gates, p, StaleCoverage, locator, p.proof.value);
  }

  /** Whether the next open call will clear. */
  ghost predicate Ready(v: GateView, p: PreInput, clears: bool) {
    Good(v.gates) && Unsettled(Lease(v, p)) && (ConsumedClearance(Lease(v, p)) <==> !clears)
  }

  function Expected(p: PreInput, clears: bool): Event {
    if clears then Cleared(LeaseKey(p)) else Held(LeaseKey(p))
  }

  function Extended(r: Run, s: Step): Run
    requires IsRun(r)
  {
    var v := r.states[|r.steps|];
    Run(r.states + [Next(v, s)], r.steps + [s], r.events + [EventOf(v, s)], r.replies + [ReplyTo(v, s)])
  }

  lemma ExtendedIsRun(r: Run, s: Step)
    requires IsRun(r)
    ensures IsRun(Extended(r, s))
  {
    var next := Extended(r, s);
    forall i | 0 <= i < |next.steps| ensures Moves(next, i) {
      if i < |r.steps| {
        assert Moves(r, i);
      }
    }
  }

  lemma OneCallMore(r: Run, p: PreInput, clears: bool) returns (next: Run)
    requires OpenCall(p) && p.mode != Robot && IsRun(r) && Ready(r.states[|r.steps|], p, clears)
    ensures IsRun(next) && |next.steps| == |r.steps| + 1 && Ready(next.states[|next.steps|], p, !clears)
    ensures next.events == r.events + [Expected(p, clears)]
  {
    var v := r.states[|r.steps|];
    OpenCallClearsExactly(v, p);
    ExtendedIsRun(r, Pre(p));
    next := Extended(r, Pre(p));
  }

  /** So one lease clears any number of times: in the run that repeats an open Auto or Manual call, every other
      call passes and the ones between are held. */
  lemma {:induction false} ClearanceRecurs(p: PreInput, n: nat) returns (r: Run)
    requires OpenCall(p) && p.mode != Robot
    ensures IsRun(r) && |r.steps| == n && Ready(r.states[n], p, n % 2 == 0)
    ensures forall k :: 0 <= k < n ==> r.events[k] == Expected(p, k % 2 == 0)
  {
    if n == 0 {
      r := Run([GateView([], map[], {})], [], [], []);
    } else {
      var before := ClearanceRecurs(p, n - 1);
      r := OneCallMore(before, p, (n - 1) % 2 == 0);
    }
  }

  // ---------- The same Robot call, over and over ----------

  /** The probe lease that a held call registers, once the hook has marked it delivered. */
  function DeliveredLease(p: PreInput): ProbeLease {
    ProbeLease(p.target, LeaseKey(p).action, p.turn, true, false)
  }

  /** A delivered probe belongs to this lease, which waits for it. */
  ghost predicate ProbeFits(v: GateView, p: PreInput, delivers: bool) {
    p.session in v.leases ==>
      if delivers then v.leases[p.session] == DeliveredLease(p) && Lease(v, p).Some? && Waiting(Lease(v, p).value.state)
      else !v.leases[p.session].delivered
  }

  function ControllerProbes(): seq<string> {
    [METADATA_PROBE, NAMESPACE_PROBE]
  }

  /** The lease has seen this one identity, and no probes but those of the controller. */
  ghost predicate SeenOnce(g: Option<GateRecord>, native: string) {
    g.Some? ==> g.value.natives == [native] && (g.value.probes == [] || g.value.probes == ControllerProbes())
  }

  /** What holds between the calls; `delivers` when the payload has a session, so that each hold is followed by the
      mark that its probe was delivered. */
  ghost predicate RobotReady(v: GateView, p: PreInput, clears: bool, delivers: bool) {
    && Good(v.gates) && p.turn !in v.terminal && ProbeFits(v, p, delivers)
    && Unsettled(Lease(v, p)) && (ConsumedClearance(Lease(v, p)) <==> !clears)
    && SeenOnce(Lease(v, p), p.native)
  }

  /** A Robot call on a path that snapshot and controller probe find absent. */
  predicate RobotCalls(p: PreInput, delivers: bool) {
    OpenCall(p) && p.mode == Robot && (delivers ==> p.probe.outcome == Absent)
  }

  /** The controller's probes count once each, and leave an unspent pass. */
  lemma ProbedAbsent(g: GateRecord, p: PreInput)
    requires p.target.Some? && p.probe.outcome == Absent && SeenOnce(Some(g), p.native)
    ensures var h := SettledGate(g, DeliveredLease(p), p.probe);
            && h.key == g.key && h.state == ClearedAbsent && !h.clearanceConsumed && SeenOnce(Some(h), p.native)
  {
    assert METADATA_PROBE != NAMESPACE_PROBE by {
      assert METADATA_PROBE[11] == 'm' && NAMESPACE_PROBE[11] == 'n';
    }
    assert [METADATA_PROBE] + [NAMESPACE_PROBE] == ControllerProbes();
    assert ControllerProbes()[0] == METADATA_PROBE && ControllerProbes()[1] == NAMESPACE_PROBE;
  }

  lemma DeliveredProbeClears(v: GateView, p: PreInput, clears: bool)
    requires RobotCalls(p, true) && RobotReady(v, p, clears, true) && p.session in v.leases
    ensures clears && RobotReady(Advanced(v, p.session, p.probe), p, true, true)
  {
    var key, lease := LeaseKey(p), DeliveredLease(p);
    var i := LastPosition(v.gates, key);
    assert key == GateKey(p.session, lease.action);
    AdvanceLaw(v, p.session, p.probe);
    SettledInPlace(v.gates, i, key, lease, p.probe);
    ProbedAbsent(v.gates[i], p);
    LookupUpdated(v.gates, i, SettledGate(v.gates[i], lease, p.probe), key);
  }

  lemma ProbeKeepsReady(v: GateView, p: PreInput, clears: bool, delivers: bool)
    requires RobotCalls(p, delivers) && RobotReady(v, p, clears, delivers)
    ensures RobotReady(Facing(v, p), p, clears, delivers)
  {
    if delivers && p.session in v.leases {
      DeliveredProbeClears(v, p, clears);
    }
  }

  lemma RobotClears(v: GateView, p: PreInput, delivers: bool)
    requires RobotCalls(p, delivers) && RobotReady(v, p, true, delivers) && (delivers ==> p.session !in v.leases)
    ensures Judged(v, p).event == Cleared(LeaseKey(p)) && RobotReady(Judged(v, p).after, p, false, delivers)
  {
    ClearanceLaw(v.gates, p, Some(p.snapshot.value.locator));
  }

  lemma RobotRegistered(leases: map<string, ProbeLease>, session: string, lease: ProbeLease, victim: string)
    requires !lease.delivered && (session in leases ==> !leases[session].delivered)
    ensures session in LeaseRegistered(leases, session, lease, victim)
    ensures LeaseRegistered(leases, session, lease, victim)[session] == lease
  {
  }

  lemma FirstRung(before: seq<GateRecord>, after: seq<GateRecord>, p: PreInput, result: PolicyResult)
    requires p.mode == Robot && Agreed(before, after, p, StaleCoverage, result)
    requires var g := GateForAction(before, LeaseKey(p)); g.Some? && SeenOnce(g, p.native)
    ensures result.state == TargetProbe
    ensures var h := GateForAction(after, LeaseKey(p));
            h.Some? && SeenOnce(h, p.native) && h.value.state == TargetProbe
  {
    FoundIsGood(after, LeaseKey(p));
  }

  /** A held call registers its probe lease, undelivered. */
  lemma RobotHolds(v: GateView, p: PreInput)
    requires OpenCall(p) && p.mode == Robot && RobotReady(v, p, false, false)
    ensures var after := Judged(v, p).after;
            && Judged(v, p).event == Held(LeaseKey(p)) && RobotReady(after, p, true, false)
            && Lease(after, p).Some? && Lease(after, p).value.state == TargetProbe
            && p.session in after.leases && after.leases[p.session] == DeliveredLease(p).(delivered := false)
  {
    var locator := Some(p.snapshot.value.locator);
    assert Judged(v, p) == Evaluated(v, p, StaleCoverage, locator, p.proof.value);
    StoreAndHookAgree(v.gates, p, StaleCoverage, locator, p.proof.value);
    var (gates, result) := Reconciled(v.gates, p, StaleCoverage, locator, p.proof.value);
    FirstRung(v.gates, gates, p, result);
    RobotRegistered(v.leases, p.session, DeliveredLease(p).(delivered := false), p.leaseVictim);
  }

  lemma ClearedCallMore(r: Run, p: PreInput, delivers: bool) returns (next: Run)
    requires RobotCalls(p, delivers) && IsRun(r) && RobotReady(r.states[|r.steps|], p, true, delivers)
    ensures IsRun(next) && RobotReady(next.states[|next.steps|], p, false, delivers)
    ensures next.steps == r.steps + [Pre(p)] && next.events == r.events + [Cleared(LeaseKey(p))]
  {
    var v := r.states[|r.steps|];
    ProbeKeepsReady(v, p, true, delivers);
    NoLeaseAfterProbe(v, p, true, delivers);
    assert PreToolled(v, p) == Judged(Facing(v, p), p);
    RobotClears(Facing(v, p), p, delivers);
    ExtendedIsRun(r, Pre(p));
    next := Extended(r, Pre(p));
  }

  lemma NoLeaseAfterProbe(v: GateView, p: PreInput, clears: bool, delivers: bool)
    requires RobotCalls(p, delivers) && RobotReady(v, p, clears, delivers)
    ensures delivers ==> p.session !in Facing(v, p).leases
  {
  }

  lemma HeldCallMore(r: Run, p: PreInput, delivers: bool) returns (next: Run)
    requires RobotCalls(p, delivers) && IsRun(r) && RobotReady(r.states[|r.steps|], p, false, delivers)
    ensures IsRun(next) && RobotReady(next.states[|next.steps|], p, true, delivers)
    ensures next.steps == r.steps + HoldSteps(p, delivers)
    ensures next.events == r.events + HoldEvents(p, delivers)
  {
    var v := r.states[|r.steps|];
    ProbeKeepsReady(v, p, false, delivers);
    NoLeaseAfterProbe(v, p, false, delivers);
    assert PreToolled(v, p) == Judged(Facing(v, p), p);
    RobotHolds(Facing(v, p), p);
    ExtendedIsRun(r, Pre(p));
    next := Extended(r, Pre(p));
    if delivers {
      ExtendedIsRun(next, Deliver(p.session));
      next := Extended(next, Deliver(p.session));
    }
  }

  function HoldSteps(p: PreInput, delivers: bool): seq<Step> {
    if delivers then [Pre(p), Deliver(p.session)] else [Pre(p)]
  }

  function HoldEvents(p: PreInput, delivers: bool): seq<Event> {
    if delivers then [Held(LeaseKey(p)), Bypassed] else [Held(LeaseKey(p))]
  }

  /** `n` times: the call passes, the call is held, and its probe is marked delivered. */
  function RobotSteps(p: PreInput, delivers: bool, n: nat): seq<Step> {
    if n == 0 then [] else RobotSteps(p, delivers, n - 1) + [Pre(p)] + HoldSteps(p, delivers)
  }

  function RobotEvents(p: PreInput, delivers: bool, n: nat): seq<Event> {
    if n == 0 then [] else RobotEvents(p, delivers, n - 1) + [Cleared(LeaseKey(p))] + HoldEvents(p, delivers)
  }

  /** A Robot call that is replayed under one native identity alternates in the same way, its probe delivered or
      not, so no number of identities bounds the number of passes. A delivered probe that finds the path absent
      clears the lease that a clearance had used up. */
  lemma {:induction false} RobotClearanceRecurs(p: PreInput, delivers: bool, n: nat) returns (r: Run)
    requires RobotCalls(p, delivers)
    ensures IsRun(r) && RobotReady(r.states[|r.steps|], p, true, delivers)
    ensures r.steps == RobotSteps(p, delivers, n) && r.events == RobotEvents(p, delivers, n)
  {
    if n == 0 {
      r := Run([GateView([], map[], {})], [], [], []);
    } else {
      var before := RobotClearanceRecurs(p, delivers, n - 1);
      var cleared := ClearedCallMore(before, p, delivers);
      r := HeldCallMore(cleared, p, delivers);
    }
  }

  // ---------- How many identities a Robot lease clears for ----------

  /** The lease is quarantined, or has seen at most three identities, or a fourth that has just been let pass. */
  ghost predicate WithinBudget(g: GateRecord) {
    g.state == Quarantined || |g.natives| <= 3 || (|g.natives| == 4 && ConsumedClearance(Some(g)))
  }

  ghost predicate NeverRejected(r: Run, key: GateKey, i: nat, j: nat)
    requires Shaped(r) && i <= j <= |r.steps|
  {
    forall k :: i <= k < j && r.events[k] == Held(key) && r.replies[k].Some? ==>
      r.replies[k].value.state != RejectedPresent
  }

  lemma ClearedStep(r: Run, key: GateKey, k: nat)
    requires IsRun(r) && k < |r.steps| && r.events[k] == Cleared(key)
    ensures r.steps[k].Pre?
    ensures ClearedLease(LeaseAt(r.states[k], key), LeaseAt(r.states[k + 1], key), r.steps[k].p, r.replies[k])
  {
    assert Moves(r, k);
    CallLaw(r, k);
  }

  lemma ClearedIsWithin(r: Run, key: GateKey, k: nat)
    requires IsRun(r) && k < |r.steps| && r.events[k] == Cleared(key)
    requires LeaseAt(r.states[k], key).Some? ==> WithinBudget(LeaseAt(r.states[k], key).value)
    ensures LeaseAt(r.states[k + 1], key).Some? && WithinBudget(LeaseAt(r.states[k + 1], key).value)
    ensures |LeaseAt(r.states[k + 1], key).value.natives| <= 4
  {
    ClearedStep(r, key, k);
  }

  lemma HeldIsWithin(r: Run, key: GateKey, k: nat)
    requires IsRun(r) && k < |r.steps| && r.events[k] == Held(key) && key.action.mode == Robot
    requires r.replies[k].Some? ==> r.replies[k].value.state != RejectedPresent
    ensures LeaseAt(r.states[k + 1], key).Some? && WithinBudget(LeaseAt(r.states[k + 1], key).value)
  {
    HeldCallsClimbTheLadder(r, key, k);
    HeldStep(r, key, k);
    HeldCall(r, key, k);
  }

  lemma OtherwiseWithin(r: Run, key: GateKey, k: nat)
    requires IsRun(r) && k < |r.steps| && r.events[k] != Held(key) && r.events[k] != Cleared(key)
    requires LeaseAt(r.states[k], key).Some? && LeaseAt(r.states[k + 1], key).Some?
    requires WithinBudget(LeaseAt(r.states[k], key).value)
    ensures WithinBudget(LeaseAt(r.states[k + 1], key).value)
  {
    RunEvolves(r, k, key);
    LookupKey(r.states[k].gates, key);
  }

  /** A lease comes to be only by a call that holds or clears it. */
  lemma NewLeaseIsCalled(r: Run, key: GateKey, k: nat)
    requires IsRun(r) && k < |r.steps| && LeaseAt(r.states[k], key).None? && LeaseAt(r.states[k + 1], key).Some?
    ensures r.events[k] == Held(key) || r.events[k] == Cleared(key)
  {
    ReachableStoresAreGood(r, k);
    assert Moves(r, k);
    OnlyCallsAdd(r.states[k], r.steps[k], key);
  }

  lemma OnlyCallsAdd(v: GateView, s: Step, key: GateKey)
    requires Good(v.gates) && LeaseAt(v, key).None? && LeaseAt(Next(v, s), key).Some?
    ensures EventOf(v, s) == Held(key) || EventOf(v, s) == Cleared(key)
  {
    match s
    case Pre(p) => PreToolLaw(v, p);
    case Post(q) => PostToolStepLaw(v, q);
    case Probe(session, input) => AdvanceLaw(v, session, input);
    case Deliver(_) =>
    case Supervise(session, now) => ControlLaw(v.gates, session, now);
    case Replan(session, now) => ReplanLaw(v.gates, session, now, key);
    case Restart =>
  }

  lemma {:induction false} StaysWithin(r: Run, key: GateKey, i: nat, k: nat)
    requires IsRun(r) && i < k <= |r.steps| && StaysThrough(r, key, i + 1, k) && NeverRejected(r, key, i, k)
    requires LeaseAt(r.states[i], key).None? && key.action.mode == Robot
    ensures WithinBudget(LeaseAt(r.states[k], key).value)
  {
    if i < k - 1 {
      StaysWithin(r, key, i, k - 1);
    } else {
      NewLeaseIsCalled(r, key, i);
    }
    if r.events[k - 1] == Held(key) {
      HeldIsWithin(r, key, k - 1);
    } else if r.events[k - 1] == Cleared(key) {
      ClearedIsWithin(r, key, k - 1);
    } else {
      OtherwiseWithin(r, key, k - 1);
    }
  }

  function FirstFour(natives: seq<string>): seq<string> {
    if |natives| <= 4 then natives else natives[..4]
  }

  lemma ClearedWithinFour(r: Run, key: GateKey, i: nat, k: nat)
    requires IsRun(r) && i <= k < |r.steps| && StaysThrough(r, key, i + 1, k + 1) && NeverRejected(r, key, i, k)
    requires LeaseAt(r.states[i], key).None? && key.action.mode == Robot && r.events[k] == Cleared(key)
    ensures r.steps[k].Pre? && r.steps[k].p.native in LeaseAt(r.states[k + 1], key).value.natives
    ensures |LeaseAt(r.states[k + 1], key).value.natives| <= 4
  {
    if i < k {
      StaysWithin(r, key, i, k);
    }
    ClearedIsWithin(r, key, k);
    ClearedStep(r, key, k);
  }

  lemma ClearedIdentityIsEarly(r: Run, key: GateKey, i: nat, k: nat, j: nat)
    requires IsRun(r) && i <= k < j <= |r.steps| && StaysThrough(r, key, i + 1, j) && NeverRejected(r, key, i, j)
    requires LeaseAt(r.states[i], key).None? && key.action.mode == Robot && r.events[k] == Cleared(key)
    ensures r.steps[k].Pre? && r.steps[k].p.native in FirstFour(LeaseAt(r.states[j], key).value.natives)
  {
    ClearedWithinFour(r, key, i, k);
    LeaseOnlyGrows(r, key, k + 1, j);
    AmongFirstFour(LeaseAt(r.states[k + 1], key).value.natives, LeaseAt(r.states[j], key).value.natives,
                   r.steps[k].p.native);
  }

  lemma AmongFirstFour(seen: seq<string>, all: seq<string>, native: string)
    requires seen <= all && |seen| <= 4 && native in seen
    ensures native in FirstFour(all)
  {
    var m :| 0 <= m < |seen| && seen[m] == native;
    assert FirstFour(all)[m] == native;
  }

  ghost function ClearedIdentities(r: Run, key: GateKey, i: nat, j: nat): set<string>
    requires Shaped(r) && i <= j <= |r.steps|
  {
    set k | i <= k < j && r.steps[k].Pre? && r.events[k] == Cleared(key) :: r.steps[k].p.native
  }

  /** From its first call on, while its record stays and it is not rejected, a Robot lease is cleared for at most
      four distinct native identities. */
  lemma RobotClearanceBudget(r: Run, key: GateKey, i: nat, j: nat)
    requires IsRun(r) && i < j <= |r.steps| && StaysThrough(r, key, i + 1, j) && NeverRejected(r, key, i, j)
    requires LeaseAt(r.states[i], key).None? && key.action.mode == Robot
    ensures |ClearedIdentities(r, key, i, j)| <= 4
  {
    var first := FirstFour(LeaseAt(r.states[j], key).value.natives);
    forall x | x in ClearedIdentities(r, key, i, j) ensures x in first {
      var k :| i <= k < j && r.steps[k].Pre? && r.events[k] == Cleared(key) && r.steps[k].p.native == x;
      ClearedIdentityIsEarly(r, key, i, k, j);
    }
    FewMembers(ClearedIdentities(r, key, i, j), first);
  }
}
