/** The proof ladder: what a held call is answered, by how many identities and probes its lease has seen. */
module GateLadder {
  import opened GateTypes
  import opened ArtifactStore
  import opened GateController
  import opened GateLaws
  import opened GateRuns

  /** The store a call is judged on: a Robot call has run its controller probe first. */
  function Facing(v: GateView, p: PreInput): GateView {
    if p.mode == Robot then Advanced(v, p.session, p.probe) else v
  }

  /** The coverage an evaluation goes by: a fresh absence whose pass is spent counts as stale. */
  function CoverageFor(v: GateView, p: PreInput): CoverageStatus {
    if p.effect == Unknown || p.snapshot.None? then Missing
    else if p.snapshot.value.coverage == AbsentFresh then StaleCoverage
    else p.snapshot.value.coverage
  }

  function LocatorFor(p: PreInput): Option<string> {
    if p.effect == Unknown || p.snapshot.None? then None else Some(p.snapshot.value.locator)
  }

  function ObligationsFor(p: PreInput): seq<string> {
    if p.effect == Unknown || p.proof.None? then [] else p.proof.value
  }

  lemma HeldIsEvaluated(v: GateView, p: PreInput)
    requires Judged(v, p).event.Held?
    ensures Judged(v, p) == Evaluated(v, p, CoverageFor(v, p), LocatorFor(p), ObligationsFor(p))
  {
  }

  /** First the target is probed, then the controller probes; the third probe or the fourth identity ends
      in quarantine. */
  function Rung(identities: nat, probes: nat): GateState {
    if probes >= 3 || identities > 3 then Quarantined
    else if identities > 1 then ControllerProbe
    else TargetProbe
  }

  predicate SeenPresent(p: PreInput) {
    p.effect != Unknown && p.snapshot.Some? && p.snapshot.value.coverage == PresentFresh
  }

  /** What a held call is answered, in terms of the distinct identities and probes on its lease. */
  ghost predicate OnLadder(h: GateRecord, p: PreInput, reply: Option<Reply>) {
    match p.mode
    case Manual => reply == None && h.state == Advisory
    case Auto =>
      if SeenPresent(p) then reply == Some(Reply(HookDeny, RejectedPresent))
      else reply == Some(Reply(if |h.probes| >= 3 || p.later - h.openedAt >= 110 then HookAskUser else HookDeny,
                               AwaitingProof))
    case Robot =>
      if SeenPresent(p) then reply == Some(Reply(HookDeny, RejectedPresent))
      else reply == Some(Reply(HookDeny, Rung(|h.natives|, |h.probes|)))
  }

  lemma EvaluatedParts(v: GateView, p: PreInput, coverage: CoverageStatus, locator: Option<string>,
                       obligations: seq<string>)
    ensures Evaluated(v, p, coverage, locator, obligations).after.gates
         == Reconciled(v.gates, p, coverage, locator, obligations).0
    ensures Evaluated(v, p, coverage, locator, obligations).reply
         == ReplyOf(Reconciled(v.gates, p, coverage, locator, obligations).1)
  {
  }

  lemma AgreedOnLadder(before: seq<GateRecord>, after: seq<GateRecord>, p: PreInput, result: PolicyResult,
                       coverage: CoverageStatus)
    requires Agreed(before, after, p, coverage, result)
    requires coverage != AbsentFresh && (p.effect != Unknown ==> (coverage == PresentFresh <==> SeenPresent(p)))
    ensures var stored := GateForAction(after, LeaseKey(p));
            stored.Some? && OnLadder(stored.value, p, ReplyOf(result))
  {
    FoundIsGood(after, LeaseKey(p));
  }

  lemma JudgedOnLadder(v: GateView, p: PreInput)
    requires Good(v.gates) && Judged(v, p).event.Held?
    ensures var stored := GateForAction(Judged(v, p).after.gates, LeaseKey(p));
            stored.Some? && OnLadder(stored.value, p, Judged(v, p).reply)
  {
    var coverage, locator, obligations := CoverageFor(v, p), LocatorFor(p), ObligationsFor(p);
    HeldIsEvaluated(v, p);
    EvaluatedParts(v, p, coverage, locator, obligations);
    StoreAndHookAgree(v.gates, p, coverage, locator, obligations);
    var (after, result) := Reconciled(v.gates, p, coverage, locator, obligations);
    AgreedOnLadder(v.gates, after, p, result, coverage);
  }

  lemma HeldIsOnLadder(v: GateView, p: PreInput)
    requires Good(v.gates) && PreToolled(v, p).event.Held?
    ensures var stored := GateForAction(PreToolled(v, p).after.gates, LeaseKey(p));
            stored.Some? && OnLadder(stored.value, p, PreToolled(v, p).reply)
  {
    AdvanceLaw(v, p.session, p.probe);
    JudgedOnLadder(Facing(v, p), p);
  }

  /** In every run: a held call is answered from the ladder, by the numbers of distinct native identities and
      distinct probes its lease has seen. */
  lemma HeldCallsClimbTheLadder(r: Run, key: GateKey, k: nat)
    requires IsRun(r) && k < |r.steps| && r.events[k] == Held(key)
    ensures r.steps[k].Pre? && LeaseAt(r.states[k + 1], key).Some?
    ensures OnLadder(LeaseAt(r.states[k + 1], key).value, r.steps[k].p, r.replies[k])
  {
    HeldStep(r, key, k);
    ReachableStoresAreGood(r, k);
    HeldIsOnLadder(r.states[k], r.steps[k].p);
  }

  lemma HeldStep(r: Run, key: GateKey, k: nat)
    requires IsRun(r) && k < |r.steps| && r.events[k] == Held(key)
    ensures r.steps[k].Pre? && key == LeaseKey(r.steps[k].p)
    ensures r.states[k + 1] == PreToolled(r.states[k], r.steps[k].p).after
    ensures r.events[k] == PreToolled(r.states[k], r.steps[k].p).event
    ensures r.replies[k] == PreToolled(r.states[k], r.steps[k].p).reply
  {
    assert Moves(r, k);
  }

  // ---------- The controller probe ----------

  /** Where a controller probe leaves a waiting lease. */
  function Verdict(lease: ProbeLease, outcome: ProbeOutcome): GateState {
    if lease.unknownEffect || lease.target.None? || outcome == Unavailable then Quarantined
    else if outcome == Present then RejectedPresent
    else ClearedAbsent
  }

  /** A delivered probe settles its waiting lease for good: rejected if the target is there, one unspent pass
      if it is not, quarantine with the turn stopped if that cannot be known. The probe lease is gone. */
  lemma ProbeSettlesLease(v: GateView, session: string, input: ProbeInput)
    requires Good(v.gates) && session in v.leases && v.leases[session].delivered
    requires var stored := GateForAction(v.gates, GateKey(session, v.leases[session].action));
             stored.Some? && Waiting(stored.value.state)
    ensures var lease := v.leases[session];
            var after := Advanced(v, session, input);
            var stored := GateForAction(after.gates, GateKey(session, lease.action));
            && session !in after.leases
            && stored.Some? && stored.value.state == Verdict(lease, input.outcome)
            && (stored.value.state == ClearedAbsent ==> !stored.value.clearanceConsumed)
            && (stored.value.state == Quarantined ==> lease.terminalKey in after.terminal)
  {
    var lease := v.leases[session];
    var key := GateKey(session, lease.action);
    var i := LastPosition(v.gates, key);
    SettledInPlace(v.gates, i, key, lease, input);
    LookupUpdated(v.gates, i, SettledGate(v.gates[i], lease, input), key);
  }

  // ---------- The supervisor and the clock ----------

  /** The state the supervisor finds: a lease that waits after its third probe or fourth identity is quarantined. */
  function FoundState(g: GateRecord): GateState {
    if Waiting(g.state) && (|g.probes| >= 3 || |g.natives| > 3) then Quarantined else g.state
  }

  /** The supervisor acts on a session's last lease while that is quarantined, rejected or waiting; it tells the
      session so once in each state, keeps that it has, and stops the session at quarantine. */
  lemma ControlIsExact(gates: seq<GateRecord>, session: string, now: int)
    requires Good(gates)
    ensures var i := LastOfSession(gates, session);
            var after := Controlled(gates, session, now);
            && |after| == |gates| && (forall j :: 0 <= j < |gates| && j != i ==> after[j] == gates[j])
            && (i < 0 ==> ControlOf(gates, session) == Control(false, false, false, 0, None))
            && (i >= 0 ==> ControlledAs(gates[i], after[i], ControlOf(gates, session)))
  {
    var i := LastOfSession(gates, session);
    if i >= 0 {
      assert GoodGate(gates[i]);
    }
  }

  ghost predicate ControlledAs(g: GateRecord, h: GateRecord, control: Control) {
    var state := FoundState(g);
    var active := state in {Quarantined, RejectedPresent, AwaitingProof, TargetProbe, ControllerProbe};
    && control.state == Some(state) && control.active == active && control.terminal == (state == Quarantined)
    && control.directive == (active && (!g.notified || state != g.state))
    && control.probeSteps == Min(3, |g.probes|)
    && (if control.directive then h.state == state && h.notified && h.key == g.key && h.natives == g.natives && h.probes == g.probes
        else h == g)
  }

  /** A delivered replan frees the session's last lease if that is rejected, and does nothing else. */
  lemma ReplanIsExact(gates: seq<GateRecord>, session: string, now: int)
    ensures var i := LastOfSession(gates, session);
            var after := ReplanDelivered(gates, session, now);
            && |after| == |gates| && (forall j :: 0 <= j < |gates| && j != i ==> after[j] == gates[j])
            && (i >= 0 ==> after[i].key == gates[i].key && after[i].natives == gates[i].natives && after[i].probes == gates[i].probes
                           && after[i].state == if gates[i].state == RejectedPresent then Replanning else gates[i].state)
  {
  }

  /** A directive is issued once: the next poll reports the same state and issues none. */
  lemma DirectiveIsIssuedOnce(gates: seq<GateRecord>, session: string, now: int)
    requires UniqueKeys(gates) && ControlOf(gates, session).directive
    ensures ControlOf(Controlled(gates, session, now), session) == ControlOf(gates, session).(directive := false)
  {
    var i := LastOfSession(gates, session);
    var after := Controlled(gates, session, now);
    var q := LastOfSession(after, session);
    assert after[i].key.session == session;
    assert forall j :: 0 <= j < |gates| ==> after[j].key == gates[j].key;
    assert q == i;
  }

  /** A gate that waits for proof is never older than half an hour once a record step has run, and expiry
      changes nothing else. */
  lemma NothingWaitsForever(gates: seq<GateRecord>, key: GateKey, native: string, locator: Option<string>,
                            state: GateState, decision: GateDecision, obligations: seq<string>, now: int, k: nat)
    requires k < |Recorded(gates, key, native, locator, state, decision, obligations, now)|
    ensures var g := Recorded(gates, key, native, locator, state, decision, obligations, now)[k];
            Waiting(g.state) ==> now - g.updatedAt < 1800
  {
    var i := Position(gates, key);
    var g := RecordedGate(gates, key, native, locator, state, decision, obligations, now);
    var listed := Trimmed(if i >= 0 then gates[i := g] else gates + [g]);
    assert Recorded(gates, key, native, locator, state, decision, obligations, now)[k] == ExpiredGate(listed[k], now);
  }

  /** What a record step leaves of another lease: a waiting one that has not been in use for half an hour goes stale,
      the oldest one goes when a new lease finds 128 listed, and nothing else happens. */
  lemma RecordKeepsOthers(gates: seq<GateRecord>, key: GateKey, native: string, locator: Option<string>,
                          state: GateState, decision: GateDecision, obligations: seq<string>, now: int,
                          other: GateKey)
    requires Good(gates) && other != key && GateForAction(gates, other).Some?
    requires key.action.mode == Manual ==> state == Advisory || state == ClearedAbsent
    ensures var g := GateForAction(gates, other).value;
            var after := GateForAction(Recorded(gates, key, native, locator, state, decision, obligations, now), other);
            if |gates| == 128 && GateForAction(gates, key).None? && gates[0].key == other then after.None?
            else after == Some(if Waiting(g.state) && now - g.updatedAt >= 1800
                               then g.(state := Stale, updatedAt := now) else g)
  {
    var record := RecordedGate(gates, key, native, locator, state, decision, obligations, now);
    RecordedGateLaw(gates, key, native, locator, state, decision, obligations, now);
    assert Recorded(gates, key, native, locator, state, decision, obligations, now) == Settling(gates, record, now);
    ListedKeeps(gates, record, other);
    GoodTrimmed(gates, record);
    ExpiredLookup(Trimmed(Listed(gates, record)), now, other);
  }

  lemma ListedKeeps(gates: seq<GateRecord>, record: GateRecord, other: GateKey)
    requires Good(gates) && other != record.key && GateForAction(gates, other).Some?
    ensures GateForAction(Trimmed(Listed(gates, record)), other)
         == if |gates| == 128 && GateForAction(gates, record.key).None? && gates[0].key == other then None
            else GateForAction(gates, other)
  {
    var i, listed := LastPosition(gates, other), Listed(gates, record);
    SearchesAgree(gates, record.key);
    ListedLookup(gates, record, other);
    Found(listed, i);
    TrimmedKeeps(listed, other);
  }

  /** Trimming drops the oldest leases, and only as many as are too many. */
  lemma TrimmedKeeps(gates: seq<GateRecord>, key: GateKey)
    requires UniqueKeys(gates) && GateForAction(gates, key).Some?
    ensures GateForAction(Trimmed(gates), key)
         == if LastPosition(gates, key) + 128 < |gates| then None else GateForAction(gates, key)
  {
    TrimmedLookup(gates, key);
    var i := LastPosition(gates, key);
    var after := Trimmed(gates);
    if i + 128 >= |gates| {
      Found(after, i - (|gates| - |after|));
    } else {
      assert forall j :: 0 <= j < |after| ==> after[j] == gates[j + |gates| - |after|];
    }
  }
}
