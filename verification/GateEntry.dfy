/** Which calls the gate looks at, and what it does with each: for any store and any call. */
module GateEntry {
  import opened GateTypes
  import opened ArtifactStore
  import opened GateController
  import opened GateLaws
  import opened GateRuns
  import opened GateClearance
  import opened GateLadder
  import opened GateProbes

  /** The gate is on, and the call neither its own control plane nor in shadow mode. */
  predicate Watched(p: PreInput) {
    p.enabled && !p.controlPlane && !p.shadowed
  }

  /** The call names a target, and unless its effect is unknown, one with a snapshot under a contract. */
  predicate Bound(p: PreInput) {
    p.target.Some? && (p.effect == Unknown || (p.snapshot.Some? && p.contract))
  }

  /** There is something to judge the call by: its effect is unknown, the ledger has a proof, or an unspent pass lets
      it through without one. */
  ghost predicate Judgeable(facing: GateView, p: PreInput)
    requires Bound(p)
  {
    || p.effect == Unknown || p.proof.Some?
    || (p.snapshot.value.coverage == AbsentFresh && !ConsumedClearance(Lease(facing, p)))
  }

  /** A bound call is judged on a settled lease, or by what there is to judge it by. */
  ghost predicate Judges(w: GateView, p: PreInput) {
    Bound(p) && (!Unsettled(Lease(w, p)) || Judgeable(w, p))
  }

  /** The gate decides a watched call whose turn must stop, whose lease is settled, or which it can judge. */
  ghost predicate Acts(v: GateView, p: PreInput) {
    Watched(p) && (Stopped(v, p) || Judges(Facing(v, p), p))
  }

  lemma ManualIsUnsettled(v: GateView, p: PreInput)
    requires Good(v.gates) && p.mode == Manual
    ensures Unsettled(Lease(v, p))
  {
    LookupKey(v.gates, LeaseKey(p));
  }

  lemma JudgedActsExactly(w: GateView, p: PreInput)
    requires Good(w.gates)
    ensures Judged(w, p).event == Bypassed <==> !Judges(w, p)
    ensures !Judges(w, p) ==> Judged(w, p).reply == None && Judged(w, p).after == w
  {
    if p.mode == Manual {
      ManualIsUnsettled(w, p);
    }
  }

  /** Any other call gets no reply, and changes nothing; if the gate is on and the call is not its own, an earlier
      Robot lease of the session may have its controller probe run. */
  lemma GateStaysOutExactly(v: GateView, p: PreInput)
    requires Good(v.gates)
    ensures PreToolled(v, p).event == Bypassed <==> !Acts(v, p)
    ensures !Acts(v, p) ==> PreToolled(v, p).reply == None
    ensures !Acts(v, p) ==> PreToolled(v, p).after == if p.enabled && !p.controlPlane then Facing(v, p) else v
  {
    AdvanceLaw(v, p.session, p.probe);
    JudgedActsExactly(Facing(v, p), p);
  }

  /** A call of a turn that must stop is denied, and nothing is recorded. */
  lemma StoppedTurnIsDenied(v: GateView, p: PreInput)
    requires Watched(p) && Stopped(v, p)
    ensures PreToolled(v, p).reply == Some(Reply(HookDeny, Quarantined)) && PreToolled(v, p).after == Facing(v, p)
  {
  }

  /** A bound call on a settled lease is denied with the lease's state, and records nothing; a quarantined Robot call
      has its turn marked. */
  lemma SettledLeaseDenies(v: GateView, p: PreInput)
    requires Good(v.gates) && Watched(p) && !Stopped(v, p) && Bound(p) && !Unsettled(Lease(Facing(v, p), p))
    ensures var r := PreToolled(v, p);
            var w := Facing(v, p);
            var lease := Lease(w, p).value;
            && r.reply == Some(Reply(HookDeny, lease.state)) && r.after.gates == w.gates && r.after.leases == w.leases
            && (if p.mode == Robot && lease.state == Quarantined then Marked(w.terminal, r.after.terminal, p.turn, p.turnVictim)
                else r.after.terminal == w.terminal)
  {
    AdvanceLaw(v, p.session, p.probe);
    if p.mode == Manual {
      ManualIsUnsettled(v, p);
    }
    MarkIsExact(Facing(v, p).terminal, p.turn, p.turnVictim);
  }

  /** A bound call that can be judged on an unsettled lease is cleared or held: cleared exactly if its target is shown
      absent and no pass is consumed. A pass is consumed by clearing, and gets no reply. */
  lemma JudgeableCallIsJudged(v: GateView, p: PreInput)
    requires Good(v.gates) && Watched(p) && !Stopped(v, p) && Bound(p)
    requires Unsettled(Lease(Facing(v, p), p)) && Judgeable(Facing(v, p), p)
    ensures var r := PreToolled(v, p);
            var w := Facing(v, p);
            && Good(r.after.gates) && Grown(Lease(w, p), Lease(r.after, p), p.native, p.now)
            && Lease(r.after, p).value.probes == ProbesOn(Lease(w, p))
            && Carries(Lease(w, p), Lease(r.after, p).value, LocatorFor(p), if Passes(w, p) then [] else ObligationsFor(p))
            && (if Passes(w, p) then ClearsOnce(w, r, p) else HoldsCall(w, r, p))
  {
    AdvanceLaw(v, p.session, p.probe);
    var w := Facing(v, p);
    assert PreToolled(v, p) == Judged(w, p);
    if Passes(w, p) {
      ClearanceLaw(w.gates, p, LocatorFor(p));
      RecordedCarries(w.gates, p, LocatorFor(p), ClearedAbsent, DeferToBase, []);
    } else {
      HeldCallIsEvaluated(w, p);
    }
  }

  /** A lease keeps the locator of its first call, and lists the obligations of its last. */
  ghost predicate Carries(before: Option<GateRecord>, after: GateRecord, locator: Option<string>, obligations: seq<string>) {
    after.locator == (if before.Some? then before.value.locator else locator) && after.obligations == obligations
  }

  lemma RecordedCarries(gates: seq<GateRecord>, p: PreInput, locator: Option<string>, state: GateState,
                        decision: GateDecision, obligations: seq<string>)
    requires Good(gates) && (p.mode == Manual ==> state == Advisory || state == ClearedAbsent)
    ensures var record := RecordedGate(gates, LeaseKey(p), p.native, locator, state, decision, obligations, p.now);
            && GateForAction(Recorded(gates, LeaseKey(p), p.native, locator, state, decision, obligations, p.now), LeaseKey(p))
            == Some(record)
            && Carries(GateForAction(gates, LeaseKey(p)), record, locator, obligations)
  {
    SearchesAgree(gates, LeaseKey(p));
    RecordLaw(gates, LeaseKey(p), p.native, locator, state, decision, obligations, p.now);
  }

  lemma ReconciledCarries(gates: seq<GateRecord>, p: PreInput, coverage: CoverageStatus, locator: Option<string>,
                          obligations: seq<string>)
    requires Good(gates)
    ensures var stored := GateForAction(Reconciled(gates, p, coverage, locator, obligations).0, LeaseKey(p));
            stored.Some? && Carries(GateForAction(gates, LeaseKey(p)), stored.value, locator, obligations)
  {
    var key, guess := LeaseKey(p), Provisional(gates, p, coverage);
    var record := RecordedGate(gates, key, p.native, locator, guess.state, guess.decision, obligations, p.now);
    var written := Recorded(gates, key, p.native, locator, guess.state, guess.decision, obligations, p.now);
    var result := Final(p, coverage, record);
    RecordedGateLaw(gates, key, p.native, locator, guess.state, guess.decision, obligations, p.now);
    RecordLaw(gates, key, p.native, locator, guess.state, guess.decision, obligations, p.now);
    RecordedCarries(gates, p, locator, guess.state, guess.decision, obligations);
    CorrectionLaw(written, record, result.state, result.decision, p.now);
  }

  /** The target is shown absent, and no pass of the lease is consumed. */
  ghost predicate Passes(facing: GateView, p: PreInput) {
    p.effect != Unknown && p.snapshot.Some? && p.snapshot.value.coverage == AbsentFresh
    && !ConsumedClearance(Lease(facing, p))
  }

  ghost predicate ClearsOnce(facing: GateView, r: PreResult, p: PreInput) {
    && r.reply == None && ConsumedClearance(Lease(r.after, p)) && Lease(r.after, p).value.decision == DeferToBase
    && r.after.leases == facing.leases && r.after.terminal == facing.terminal
  }

  /** The decision recorded with a state by a call that is held. */
  function DecisionIn(state: GateState): GateDecision {
    match state
    case Advisory => Annotate
    case AwaitingProof => AskProof
    case RejectedPresent => GateDecision.Deny
    case Quarantined => QuarantineBranch
    case _ => AutonomousResolve
  }

  /** A held call is answered from the ladder. A Robot call that waits is registered for its probe, one that is
      quarantined has its turn marked, and no other call touches probes or turns. */
  ghost predicate HoldsCall(facing: GateView, r: PreResult, p: PreInput) {
    && Lease(r.after, p).Some? && OnLadder(Lease(r.after, p).value, p, r.reply)
    && Lease(r.after, p).value.decision == DecisionIn(Lease(r.after, p).value.state)
    && var state := Lease(r.after, p).value.state;
    && (if p.mode == Robot && Waiting(state) then Registered(facing.leases, r.after.leases, p)
        else r.after.leases == facing.leases)
    && (if p.mode == Robot && state == Quarantined then Marked(facing.terminal, r.after.terminal, p.turn, p.turnVictim)
        else r.after.terminal == facing.terminal)
  }

  /** The session's probe lease is the call's, delivered only if it was for the same action; of the others at most the
      victim goes, and only if 256 are registered. */
  ghost predicate Registered(before: map<string, ProbeLease>, after: map<string, ProbeLease>, p: PreInput) {
    && p.session in after
    && after[p.session] == ProbeLease(p.target, LeaseKey(p).action, p.turn,
                                      p.session in before && before[p.session].action == LeaseKey(p).action
                                      && before[p.session].delivered,
                                      p.effect == Unknown)
    && (forall s :: s in after && s != p.session ==> s in before && after[s] == before[s])
    && (forall s :: s in before && s !in after ==> s == p.leaseVictim && |before| >= 256 && p.session !in before)
  }

  /** The turn is marked; of the others at most the victim goes, and only if 512 are marked. */
  ghost predicate Marked(before: set<string>, after: set<string>, turn: string, victim: string) {
    && turn in after
    && (forall t :: t in after && t != turn ==> t in before)
    && (forall t :: t in before && t !in after ==> t == victim && |before| >= 512 && turn !in before)
  }

  lemma MarkIsExact(terminal: set<string>, turn: string, victim: string)
    ensures Marked(terminal, TurnMarked(terminal, turn, victim), turn, victim)
  {
  }

  lemma RegistrationIsExact(leases: map<string, ProbeLease>, p: PreInput)
    ensures Registered(leases,
                       LeaseRegistered(leases, p.session,
                                       ProbeLease(p.target, LeaseKey(p).action, p.turn, false, p.effect == Unknown),
                                       p.leaseVictim),
                       p)
  {
  }

  lemma HeldCallIsEvaluated(w: GateView, p: PreInput)
    requires Good(w.gates) && Bound(p) && Unsettled(Lease(w, p)) && Judgeable(w, p) && !Passes(w, p)
    ensures var r := Judged(w, p);
            && r.event == Held(LeaseKey(p)) && Good(r.after.gates)
            && Grown(Lease(w, p), Lease(r.after, p), p.native, p.now)
            && Lease(r.after, p).value.probes == ProbesOn(Lease(w, p)) && HoldsCall(w, r, p)
            && Carries(Lease(w, p), Lease(r.after, p).value, LocatorFor(p), ObligationsFor(p))
  {
    assert Judged(w, p).event.Held?;
    var coverage, locator, obligations := CoverageFor(w, p), LocatorFor(p), ObligationsFor(p);
    HeldIsEvaluated(w, p);
    EvaluatedParts(w, p, coverage, locator, obligations);
    StoreAndHookAgree(w.gates, p, coverage, locator, obligations);
    JudgedOnLadder(w, p);
    ReconciledCarries(w.gates, p, coverage, locator, obligations);
    var (gates, result) := Reconciled(w.gates, p, coverage, locator, obligations);
    FollowUp(w.(gates := gates), p, coverage, result);
  }

  lemma FollowUp(w: GateView, p: PreInput, coverage: CoverageStatus, result: PolicyResult)
    requires LeaseAt(w, LeaseKey(p)).Some? && Agrees(LeaseAt(w, LeaseKey(p)).value, p, coverage, result)
    ensures var after := Followed(w, p, result);
            && after.gates == w.gates && LeaseAt(w, LeaseKey(p)).value.decision == DecisionIn(result.state)
            && (if p.mode == Robot && Waiting(result.state) then Registered(w.leases, after.leases, p)
                else after.leases == w.leases)
            && (if p.mode == Robot && result.state == Quarantined
                then Marked(w.terminal, after.terminal, p.turn, p.turnVictim)
                else after.terminal == w.terminal)
  {
    RegistrationIsExact(w.leases, p);
    MarkIsExact(w.terminal, p.turn, p.turnVictim);
  }

  // ---------- The controller probe ----------

  /** A probe lease whose gate waits for it. */
  ghost predicate AwaitsProbe(v: GateView, session: string) {
    session in v.leases
    && var stored := LeaseAt(v, GateKey(session, v.leases[session].action));
    && stored.Some? && Waiting(stored.value.state)
  }

  /** What a controller probe looks at, by what it may know of the call and what it finds. */
  function LookedAt(lease: ProbeLease, outcome: ProbeOutcome): set<string> {
    if lease.unknownEffect then {"adapter-resolution-v1"}
    else if lease.target.None? then {}
    else if outcome == Present then {"filesystem-metadata-v1"}
    else {"filesystem-metadata-v1", "filesystem-namespace-v1"}
  }

  /** The controller probe runs only once it has been delivered. A probe lease that is not awaited is dropped, one
      that is not delivered waits. */
  lemma ProbeWaitsForDelivery(v: GateView, session: string, input: ProbeInput)
    requires !AwaitsProbe(v, session) || !v.leases[session].delivered
    ensures Advanced(v, session, input) == if AwaitsProbe(v, session) then v else v.(leases := v.leases - {session})
  {
    if session !in v.leases {
      assert v.leases - {session} == v.leases;
    }
  }

  /** A delivered probe settles its own lease, counts what it looked at, and stops the turn if it could not tell;
      every other lease, probe and turn stays, but for one turn when the set is full. */
  lemma ProbeRunsExactly(v: GateView, session: string, input: ProbeInput)
    requires Good(v.gates) && AwaitsProbe(v, session) && v.leases[session].delivered
    ensures var lease := v.leases[session];
            var key := GateKey(session, lease.action);
            var g := LeaseAt(v, key).value;
            var after := Advanced(v, session, input);
            && after.leases == v.leases - {session}
            && LeaseAt(after, key).Some? && ProbedAs(g, LeaseAt(after, key).value, lease, input.outcome)
            && (forall other :: other != key ==> LeaseAt(after, other) == LeaseAt(v, other))
            && (if Verdict(lease, input.outcome) == Quarantined
                then Marked(v.terminal, after.terminal, lease.terminalKey, input.turnVictim)
                else after.terminal == v.terminal)
  {
    var lease := v.leases[session];
    var key := GateKey(session, lease.action);
    var i := LastPosition(v.gates, key);
    SettledInPlace(v.gates, i, key, lease, input);
    SettledIsProbed(v.gates[i], lease, input);
    forall other ensures LeaseAt(Advanced(v, session, input), other)
                      == if other == key then Some(SettledGate(v.gates[i], lease, input)) else LeaseAt(v, other)
    {
      LookupUpdated(v.gates, i, SettledGate(v.gates[i], lease, input), other);
    }
    MarkIsExact(v.terminal, lease.terminalKey, input.turnVictim);
  }

  ghost predicate ProbedAs(g: GateRecord, h: GateRecord, lease: ProbeLease, outcome: ProbeOutcome) {
    && h.state == Verdict(lease, outcome) && (h.state == ClearedAbsent ==> !h.clearanceConsumed)
    && h.natives == g.natives && h.openedAt == g.openedAt && !h.notified
    && h.decision == (if h.state == ClearedAbsent then DeferToBase else DecisionIn(h.state))
    && Distinct(h.probes) == Distinct(g.probes) + LookedAt(lease, outcome)
  }

  lemma ProbeCounts(g: GateRecord, signature: string, now: int)
    ensures Distinct(ProbedGate(g, signature, now).probes) == Distinct(g.probes) + {signature}
  {
  }

  lemma SettledIsProbed(g: GateRecord, lease: ProbeLease, input: ProbeInput)
    requires GoodGate(g) && Waiting(g.state)
    ensures ProbedAs(g, SettledGate(g, lease, input), lease, input.outcome)
  {
    GoodSettled(g, lease, input);
    ProbeCounts(g, "adapter-resolution-v1", input.now);
    ProbeCounts(g, "filesystem-metadata-v1", input.now);
    ProbeCounts(ProbedGate(g, "filesystem-metadata-v1", input.now), "filesystem-namespace-v1", input.now);
    if !lease.unknownEffect && lease.target.Some? && input.outcome != Present {
      assert Distinct(g.probes) + {"filesystem-metadata-v1"} + {"filesystem-namespace-v1"}
          == Distinct(g.probes) + {"filesystem-metadata-v1", "filesystem-namespace-v1"};
    }
  }
}
