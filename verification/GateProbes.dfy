/** What counts as a probe: over every run an Auto lease asks a person by the reads made for it, and by its age. */
module GateProbes {
  import opened GateTypes
  import opened ArtifactStore
  import opened GateController
  import opened GateLaws
  import opened GateRuns
  import opened GateClearance
  import opened GateLadder

  // ---------- One note ----------

  ghost function Distinct(probes: seq<string>): set<string> {
    set x | x in probes
  }

  lemma {:induction false} DistinctCount(probes: seq<string>)
    requires NoDuplicates(probes)
    ensures |Distinct(probes)| == |probes|
  {
    if probes == [] {
      assert Distinct(probes) == {};
    } else {
      var n := |probes| - 1;
      DistinctCount(probes[..n]);
      assert probes == probes[..n] + [probes[n]];
      assert Distinct(probes) == Distinct(probes[..n]) + {probes[n]};
    }
  }

  /** What a post-tool note may make of the lease it is charged to: a read adds its own signature, a mutation of the
      lease's own target ends the wait, anything else only shows that the lease is in use. */
  ghost predicate Noted(g: GateRecord, h: GateRecord, effect: ToolEffect, signature: string, locator: Option<string>,
                        now: int)
  {
    && h.key == g.key && h.natives == g.natives && h.attempts == g.attempts && h.openedAt == g.openedAt
    && h.locator == g.locator && h.clearanceConsumed == g.clearanceConsumed && h.updatedAt == now
    && Distinct(h.probes) == Distinct(g.probes) + (if effect == ReadOnly then {signature} else {})
    && var transition := if effect == ReadOnly then signature !in g.probes else effect.Mutation? && g.locator == locator;
    && (h.state == if !transition then g.state else if effect == ReadOnly then TargetProbe else Stale)
    && (h.notified == (g.notified && !transition))
  }

  /** A note is charged to the session's last waiting lease, and to no other. */
  lemma NoteIsCharged(gates: seq<GateRecord>, session: string, effect: ToolEffect, signature: string,
                      locator: Option<string>, now: int)
    requires Good(gates)
    ensures var after := PostToolNoted(gates, session, effect, signature, locator, now);
            var i := LastWaiting(gates, session);
            && Good(after) && |after| == |gates|
            && (i >= 0 ==> Noted(gates[i], after[i], effect, signature, locator, now))
            && (forall j :: 0 <= j < |gates| && j != i ==> after[j] == gates[j])
  {
    PostToolLaw(gates, session, effect, signature, locator, now);
  }

  /** What a post-tool call makes of the lease it is charged to: the note, and an unspent pass if the read proved the
      absence of its target. */
  ghost predicate Posted(g: GateRecord, h: GateRecord, q: PostInput) {
    exists noted: GateRecord ::
      && Noted(g, noted, q.effect, q.material, q.locator, q.now)
      && if q.effect == ReadOnly && q.absenceAdmitted then ClearedBy(noted, h) else h == noted
  }

  ghost predicate ClearedBy(g: GateRecord, h: GateRecord) {
    && h.key == g.key && h.natives == g.natives && h.probes == g.probes && h.openedAt == g.openedAt
    && h.state == ClearedAbsent && !h.clearanceConsumed
  }

  /** A post-tool call that the gate watches and that names a target is charged to the session's last waiting lease, if
      there is one, before the controller probe may run; any other changes nothing. */
  lemma PostCallIsExact(v: GateView, q: PostInput) returns (charged: seq<GateRecord>)
    requires Good(v.gates)
    ensures !q.enabled || q.controlPlane || q.shadowed || q.target.None? ==> PostToolled(v, q) == v
    ensures q.enabled && !q.controlPlane && !q.shadowed && q.target.Some? ==>
              PostToolled(v, q) == Advanced(v.(gates := charged), q.session, q.probe)
    ensures var i := LastWaiting(v.gates, q.session);
            && Good(charged) && |charged| == |v.gates|
            && (i >= 0 ==> Posted(v.gates[i], charged[i], q))
            && (forall j :: 0 <= j < |v.gates| && j != i ==> charged[j] == v.gates[j])
  {
    var noted := PostToolNoted(v.gates, q.session, q.effect, q.material, q.locator, q.now);
    NoteIsCharged(v.gates, q.session, q.effect, q.material, q.locator, q.now);
    LatestAbsenceLaw(noted, q.session, q.now);
    charged := if q.effect == ReadOnly && q.absenceAdmitted
               then AbsenceAdmittedToLatest(noted, q.session, q.now) else noted;
    var i := LastWaiting(v.gates, q.session);
    if i >= 0 {
      assert Noted(v.gates[i], noted[i], q.effect, q.material, q.locator, q.now);
      if q.effect == ReadOnly {
        assert LastWaiting(noted, q.session) == i;
      }
    }
  }

  // ---------- Who adds probes ----------

  /** Probe leases are Robot's. */
  ghost predicate RobotLeases(v: GateView) {
    forall session :: session in v.leases ==> v.leases[session].action.mode == Robot
  }

  lemma AdvanceSpares(v: GateView, session: string, input: ProbeInput, key: GateKey)
    requires Good(v.gates) && RobotLeases(v) && key.action.mode != Robot
    ensures LeaseAt(Advanced(v, session, input), key) == LeaseAt(v, key)
    ensures RobotLeases(Advanced(v, session, input))
  {
    if session in v.leases {
      var own := GateKey(session, v.leases[session].action);
      var record := GateForAction(v.gates, own);
      if record.Some? && Waiting(record.value.state) && v.leases[session].delivered {
        var i := LastPosition(v.gates, own);
        SettledInPlace(v.gates, i, own, v.leases[session], input);
        LookupUpdated(v.gates, i, SettledGate(v.gates[i], v.leases[session], input), key);
      }
    }
  }

  lemma ReconciledSpares(gates: seq<GateRecord>, p: PreInput, coverage: CoverageStatus, locator: Option<string>,
                         obligations: seq<string>, key: GateKey)
    requires Good(gates) && key != LeaseKey(p)
    ensures var after := Reconciled(gates, p, coverage, locator, obligations).0;
            Remains(GateForAction(gates, key), GateForAction(after, key))
  {
    var own := LeaseKey(p);
    var guess := Provisional(gates, p, coverage);
    var record := RecordedGate(gates, own, p.native, locator, guess.state, guess.decision, obligations, p.now);
    var written := Recorded(gates, own, p.native, locator, guess.state, guess.decision, obligations, p.now);
    RecordedGateLaw(gates, own, p.native, locator, guess.state, guess.decision, obligations, p.now);
    RecordLaw(gates, own, p.native, locator, guess.state, guess.decision, obligations, p.now);
    RecordSpares(gates, own, p.native, locator, guess.state, guess.decision, obligations, p.now, key);
    var result := Final(p, coverage, record);
    LookupCorrected(written, record, result.state, result.decision, p.now, key);
  }

  /** If the lease is still there it has the probes it had. */
  ghost predicate Remains(before: Option<GateRecord>, after: Option<GateRecord>) {
    after.Some? ==> before.Some? && after.value.probes == before.value.probes
  }

  lemma RecordSpares(gates: seq<GateRecord>, key: GateKey, native: string, locator: Option<string>, state: GateState,
                     decision: GateDecision, obligations: seq<string>, now: int, other: GateKey)
    requires Good(gates) && other != key && (key.action.mode == Manual ==> state == Advisory || state == ClearedAbsent)
    ensures Remains(GateForAction(gates, other),
                    GateForAction(Recorded(gates, key, native, locator, state, decision, obligations, now), other))
  {
    RecordLaw(gates, key, native, locator, state, decision, obligations, now);
    if GateForAction(Recorded(gates, key, native, locator, state, decision, obligations, now), other).Some? {
      RecordKeepsOthers(gates, key, native, locator, state, decision, obligations, now, other);
    }
  }

  lemma JudgedSpares(v: GateView, p: PreInput, key: GateKey)
    requires Good(v.gates) && LeaseAt(v, key).Some?
    ensures Remains(LeaseAt(v, key), LeaseAt(Judged(v, p).after, key))
  {
    var r := Judged(v, p);
    var locator := LocatorFor(p);
    if r.event.Held? {
      var coverage, obligations := CoverageFor(v, p), ObligationsFor(p);
      HeldIsEvaluated(v, p);
      EvaluatedParts(v, p, coverage, locator, obligations);
      StoreAndHookAgree(v.gates, p, coverage, locator, obligations);
      if key != LeaseKey(p) {
        ReconciledSpares(v.gates, p, coverage, locator, obligations, key);
      }
    } else if r.event.Cleared? {
      ClearanceLaw(v.gates, p, locator);
      if key != LeaseKey(p) {
        RecordSpares(v.gates, LeaseKey(p), p.native, locator, ClearedAbsent, DeferToBase, [], p.now, key);
      }
    }
  }

  lemma JudgedLeases(v: GateView, p: PreInput)
    requires RobotLeases(v)
    ensures RobotLeases(Judged(v, p).after)
  {
    if Judged(v, p).event.Held? {
      HeldIsEvaluated(v, p);
      var result := Reconciled(v.gates, p, CoverageFor(v, p), LocatorFor(p), ObligationsFor(p)).1;
      FollowedLeases(v, p, result);
    }
  }

  lemma FollowedLeases(v: GateView, p: PreInput, result: PolicyResult)
    requires RobotLeases(v)
    ensures RobotLeases(Followed(v, p, result))
  {
  }

  lemma PreSpares(v: GateView, p: PreInput, key: GateKey)
    requires Good(v.gates) && RobotLeases(v) && key.action.mode != Robot
    ensures RobotLeases(PreToolled(v, p).after)
    ensures LeaseAt(v, key).Some? ==> Remains(LeaseAt(v, key), LeaseAt(PreToolled(v, p).after, key))
  {
    AdvanceSpares(v, p.session, p.probe, key);
    AdvanceLaw(v, p.session, p.probe);
    JudgedLeases(Facing(v, p), p);
    if LeaseAt(v, key).Some? {
      JudgedSpares(Facing(v, p), p, key);
    }
  }

  /** A post-tool call that is noted, and the lease it is charged to. */
  ghost predicate Charges(v: GateView, q: PostInput, key: GateKey) {
    && q.enabled && !q.controlPlane && !q.shadowed && q.target.Some?
    && var i := LastWaiting(v.gates, q.session);
    && i >= 0 && v.gates[i].key == key
  }

  ghost function ProbesAfter(before: GateRecord, v: GateView, q: PostInput): set<string> {
    Distinct(before.probes) + if Charges(v, q, before.key) && q.effect == ReadOnly then {q.material} else {}
  }

  lemma NotedLookup(gates: seq<GateRecord>, session: string, effect: ToolEffect, signature: string,
                    locator: Option<string>, now: int, key: GateKey)
    requires Good(gates) && GateForAction(gates, key).Some?
    ensures var after := GateForAction(PostToolNoted(gates, session, effect, signature, locator, now), key);
            var i := LastWaiting(gates, session);
            && after.Some?
            && Distinct(after.value.probes)
            == Distinct(GateForAction(gates, key).value.probes)
               + if i >= 0 && gates[i].key == key && effect == ReadOnly then {signature} else {}
  {
    NoteIsCharged(gates, session, effect, signature, locator, now);
    var i := LastWaiting(gates, session);
    if i >= 0 {
      var after := PostToolNoted(gates, session, effect, signature, locator, now);
      LookupUpdated(gates, i, after[i], key);
      Found(gates, i);
    }
  }

  lemma AdmittedLookup(gates: seq<GateRecord>, session: string, now: int, key: GateKey)
    requires Good(gates) && GateForAction(gates, key).Some?
    ensures var after := GateForAction(AbsenceAdmittedToLatest(gates, session, now), key);
            after.Some? && after.value.probes == GateForAction(gates, key).value.probes
  {
    var i := LastWaiting(gates, session);
    if i >= 0 {
      LookupUpdated(gates, i, AdmittedGate(gates[i], now), key);
      Found(gates, i);
    }
  }

  lemma PostCounts(v: GateView, q: PostInput, key: GateKey)
    requires Good(v.gates) && RobotLeases(v) && key.action.mode != Robot && LeaseAt(v, key).Some?
    ensures RobotLeases(PostToolled(v, q)) && LeaseAt(PostToolled(v, q), key).Some?
    ensures Distinct(LeaseAt(PostToolled(v, q), key).value.probes) == ProbesAfter(LeaseAt(v, key).value, v, q)
  {
    LookupKey(v.gates, key);
    if q.enabled && !q.controlPlane && !q.shadowed && q.target.Some? {
      var noted := PostToolNoted(v.gates, q.session, q.effect, q.material, q.locator, q.now);
      NotedLookup(v.gates, q.session, q.effect, q.material, q.locator, q.now, key);
      PostToolLaw(v.gates, q.session, q.effect, q.material, q.locator, q.now);
      var admitted := AfterNote(v, noted, q, key);
      assert PostToolled(v, q) == Advanced(v.(gates := admitted), q.session, q.probe);
    }
  }

  /** What follows the note in the same call leaves the probes alone. */
  lemma AfterNote(v: GateView, noted: seq<GateRecord>, q: PostInput, key: GateKey) returns (admitted: seq<GateRecord>)
    requires Good(noted) && RobotLeases(v) && key.action.mode != Robot && GateForAction(noted, key).Some?
    ensures admitted == if q.effect == ReadOnly && q.absenceAdmitted
                        then AbsenceAdmittedToLatest(noted, q.session, q.now) else noted
    ensures var after := Advanced(v.(gates := admitted), q.session, q.probe);
            && RobotLeases(after) && LeaseAt(after, key).Some?
            && LeaseAt(after, key).value.probes == GateForAction(noted, key).value.probes
  {
    LatestAbsenceLaw(noted, q.session, q.now);
    AdmittedLookup(noted, q.session, q.now, key);
    admitted := if q.effect == ReadOnly && q.absenceAdmitted
                then AbsenceAdmittedToLatest(noted, q.session, q.now) else noted;
    AdvanceSpares(v.(gates := admitted), q.session, q.probe, key);
  }

  // ---------- Runs ----------

  /** A read that is charged to this lease. */
  ghost predicate ReadFor(v: GateView, s: Step, key: GateKey) {
    s.Post? && s.q.effect == ReadOnly && Charges(v, s.q, key)
  }

  ghost function Signature(v: GateView, s: Step, key: GateKey): set<string> {
    if ReadFor(v, s, key) then {s.q.material} else {}
  }

  lemma ControlSpares(gates: seq<GateRecord>, session: string, now: int, key: GateKey)
    requires Good(gates)
    ensures Remains(GateForAction(gates, key), GateForAction(Controlled(gates, session, now), key))
  {
    var i := LastOfSession(gates, session);
    if i >= 0 && ControlOf(gates, session).directive {
      LookupUpdated(gates, i, BudgetedGate(gates[i]).(notified := true, updatedAt := now), key);
      Found(gates, i);
    }
  }

  lemma ReplanSpares(gates: seq<GateRecord>, session: string, now: int, key: GateKey)
    requires Good(gates)
    ensures Remains(GateForAction(gates, key), GateForAction(ReplanDelivered(gates, session, now), key))
  {
    var i := LastOfSession(gates, session);
    if i >= 0 && gates[i].state == RejectedPresent {
      LookupUpdated(gates, i, gates[i].(state := Replanning, decision := AutonomousResolve, updatedAt := now), key);
      Found(gates, i);
    }
  }

  /** Nothing but a read adds a probe to a lease that is not Robot's. */
  lemma StepCounts(v: GateView, s: Step, key: GateKey)
    requires Good(v.gates) && RobotLeases(v) && key.action.mode != Robot
    ensures RobotLeases(Next(v, s))
    ensures LeaseAt(v, key).Some? && LeaseAt(Next(v, s), key).Some? ==>
              Distinct(LeaseAt(Next(v, s), key).value.probes) == Distinct(LeaseAt(v, key).value.probes) + Signature(v, s, key)
  {
    match s
    case Pre(p) => PreSpares(v, p, key);
    case Post(q) =>
      if LeaseAt(v, key).Some? {
        LookupKey(v.gates, key);
        PostCounts(v, q, key);
      } else {
        PostLeases(v, q);
      }
    case Probe(session, input) => AdvanceSpares(v, session, input, key);
    case Deliver(_) =>
    case Supervise(session, now) => ControlSpares(v.gates, session, now, key);
    case Replan(session, now) => ReplanSpares(v.gates, session, now, key);
    case Restart =>
  }

  lemma PostLeases(v: GateView, q: PostInput)
    requires RobotLeases(v)
    ensures RobotLeases(PostToolled(v, q))
  {
  }

  lemma StepKeepsRobotLeases(v: GateView, s: Step)
    requires Good(v.gates) && RobotLeases(v)
    ensures RobotLeases(Next(v, s))
  {
    StepCounts(v, s, GateKey("", Action("", Auto, "")));
  }

  lemma {:induction false} LeasesAreRobots(r: Run, i: nat)
    requires IsRun(r) && i < |r.states|
    ensures RobotLeases(r.states[i])
  {
    if i > 0 {
      LeasesAreRobots(r, i - 1);
      ReachableStoresAreGood(r, i - 1);
      StepKeepsRobotLeases(r.states[i - 1], r.steps[i - 1]);
      assert Moves(r, i - 1);
    }
  }

  /** The signatures of the reads charged to this lease. */
  ghost function Reads(r: Run, key: GateKey, i: nat, j: nat): set<string>
    requires Shaped(r) && i <= j <= |r.steps|
    decreases j
  {
    if i == j then {} else Reads(r, key, i, j - 1) + Signature(r.states[j - 1], r.steps[j - 1], key)
  }

  /** A lease that comes to be has no probe. */
  lemma NewLeaseHasNoProbe(v: GateView, s: Step, key: GateKey)
    requires Good(v.gates) && LeaseAt(v, key).None? && LeaseAt(Next(v, s), key).Some?
    ensures s.Pre? && LeaseAt(Next(v, s), key).value.openedAt == s.p.now
    ensures key.action.mode != Robot ==> LeaseAt(Next(v, s), key).value.probes == []
  {
    OnlyCallsAdd(v, s, key);
    PreToolLaw(v, s.p);
    if key.action.mode != Robot {
      assert PreToolled(v, s.p) == Judged(v, s.p);
      NewRecordHasNoProbe(v, s.p);
    }
  }

  lemma NewRecordHasNoProbe(v: GateView, p: PreInput)
    requires Good(v.gates) && LeaseAt(v, LeaseKey(p)).None? && LeaseAt(Judged(v, p).after, LeaseKey(p)).Some?
    ensures LeaseAt(Judged(v, p).after, LeaseKey(p)).value.probes == []
  {
    var locator := LocatorFor(p);
    if Judged(v, p).event.Held? {
      var coverage, obligations := CoverageFor(v, p), ObligationsFor(p);
      HeldIsEvaluated(v, p);
      EvaluatedParts(v, p, coverage, locator, obligations);
      StoreAndHookAgree(v.gates, p, coverage, locator, obligations);
    } else if Judged(v, p).event.Cleared? {
      ClearanceLaw(v.gates, p, locator);
    }
  }

  ghost predicate CountsReads(g: Option<GateRecord>, seen: set<string>, since: int) {
    g.Some? && Distinct(g.value.probes) == seen && g.value.openedAt == since
  }

  lemma FirstCallCounts(r: Run, key: GateKey, i: nat)
    requires IsRun(r) && i < |r.steps| && LeaseAt(r.states[i], key).None? && LeaseAt(r.states[i + 1], key).Some?
    requires key.action.mode != Robot
    ensures r.steps[i].Pre? && CountsReads(LeaseAt(r.states[i + 1], key), {}, r.steps[i].p.now)
  {
    ReachableStoresAreGood(r, i);
    assert Moves(r, i);
    NewLeaseHasNoProbe(r.states[i], r.steps[i], key);
  }

  lemma NextStepCounts(r: Run, key: GateKey, j: nat, seen: set<string>, since: int)
    requires IsRun(r) && j < |r.steps| && key.action.mode != Robot && CountsReads(LeaseAt(r.states[j], key), seen, since)
    requires LeaseAt(r.states[j + 1], key).Some?
    ensures CountsReads(LeaseAt(r.states[j + 1], key), seen + Signature(r.states[j], r.steps[j], key), since)
  {
    ReachableStoresAreGood(r, j);
    LeasesAreRobots(r, j);
    RunEvolves(r, j, key);
    assert Moves(r, j);
    StepCounts(r.states[j], r.steps[j], key);
  }

  /** Over every run: the probes of an Auto or Manual lease are exactly the reads charged to it since its first call,
      and its window runs from that call. */
  lemma {:induction false} ProbesAreReads(r: Run, key: GateKey, i: nat, j: nat)
    requires IsRun(r) && i < j <= |r.steps| && StaysThrough(r, key, i + 1, j)
    requires LeaseAt(r.states[i], key).None? && key.action.mode != Robot
    ensures r.steps[i].Pre? && CountsReads(LeaseAt(r.states[j], key), Reads(r, key, i + 1, j), r.steps[i].p.now)
  {
    FirstCallCounts(r, key, i);
    ReadsAddUp(r, key, i + 1, j, r.steps[i].p.now);
  }

  lemma {:induction false} ReadsAddUp(r: Run, key: GateKey, i: nat, j: nat, since: int)
    requires IsRun(r) && i <= j <= |r.steps| && StaysThrough(r, key, i, j) && key.action.mode != Robot
    requires CountsReads(LeaseAt(r.states[i], key), {}, since)
    ensures CountsReads(LeaseAt(r.states[j], key), Reads(r, key, i, j), since)
  {
    if i < j {
      ReadsAddUp(r, key, i, j - 1, since);
      NextStepCounts(r, key, j - 1, Reads(r, key, i, j - 1), since);
    }
  }

  /** Over every run: a held Auto call whose target is not seen present asks a person if and only if three different
      reads have been charged to its lease since the lease's first call, or that call is 110 seconds old. */
  lemma AutoAsksExactly(r: Run, key: GateKey, i: nat, k: nat)
    requires IsRun(r) && i < k < |r.steps| && StaysThrough(r, key, i + 1, k + 1)
    requires LeaseAt(r.states[i], key).None? && key.action.mode == Auto
    requires r.events[k] == Held(key)
    ensures r.steps[i].Pre? && r.steps[k].Pre?
    ensures !SeenPresent(r.steps[k].p) ==>
              r.replies[k] == Some(Reply(if |Reads(r, key, i + 1, k)| >= 3 || r.steps[k].p.later - r.steps[i].p.now >= 110
                                         then HookAskUser else HookDeny, AwaitingProof))
  {
    HeldCallsClimbTheLadder(r, key, k);
    ProbesAreReads(r, key, i, k + 1);
    ReachableStoresAreGood(r, k + 1);
    FoundIsGood(r.states[k + 1].gates, key);
    DistinctCount(LeaseAt(r.states[k + 1], key).value.probes);
    HeldStep(r, key, k);
  }

  /** In any mode a read charged to a lease is among its probes from then on, while its record stays. */
  lemma ReadsStay(r: Run, key: GateKey, k: nat, j: nat)
    requires IsRun(r) && k < j <= |r.steps| && StaysThrough(r, key, k, j) && ReadFor(r.states[k], r.steps[k], key)
    ensures r.steps[k].q.material in LeaseAt(r.states[j], key).value.probes
  {
    ReachableStoresAreGood(r, k);
    assert Moves(r, k);
    PostKeepsSignature(r.states[k], r.steps[k].q, key);
    LeaseOnlyGrows(r, key, k + 1, j);
  }

  lemma PostKeepsSignature(v: GateView, q: PostInput, key: GateKey)
    requires Good(v.gates) && Charges(v, q, key) && q.effect == ReadOnly
    requires LeaseAt(PostToolled(v, q), key).Some?
    ensures q.material in LeaseAt(PostToolled(v, q), key).value.probes
  {
    var noted := PostToolNoted(v.gates, q.session, q.effect, q.material, q.locator, q.now);
    Found(v.gates, LastWaiting(v.gates, q.session));
    NotedLookup(v.gates, q.session, q.effect, q.material, q.locator, q.now, key);
    assert q.material in Distinct(GateForAction(noted, key).value.probes);
    PostToolLaw(v.gates, q.session, q.effect, q.material, q.locator, q.now);
    LatestAbsenceLaw(noted, q.session, q.now);
    CalmStoreReflexive(noted);
    var admitted := if q.effect == ReadOnly && q.absenceAdmitted
                    then AbsenceAdmittedToLatest(noted, q.session, q.now) else noted;
    AdvanceLaw(v.(gates := admitted), q.session, q.probe);
    CalmTransitive(noted, admitted, PostToolled(v, q).gates);
    assert GateForAction(noted, key).value.probes <= LeaseAt(PostToolled(v, q), key).value.probes;
  }
}
