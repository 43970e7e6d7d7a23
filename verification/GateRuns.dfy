/** What holds of the gate over every run, from an empty store. */
module GateRuns {
  import opened GateTypes
  import opened ArtifactStore
  import opened GateController
  import opened GateLaws

  // ---------- One evaluation ----------

  /** The lease's record after an evaluation: it holds what the policy says of its own counters. */
  ghost predicate Agrees(h: GateRecord, p: PreInput, coverage: CoverageStatus, result: PolicyResult) {
    && result == Policy(p.mode, coverage, p.effect == Unknown, h.attempts, h.probeSteps, p.later - h.openedAt)
    && h.state == result.state && h.decision == result.decision
  }

  /** The call's identity is on the lease's list, after everything that was there before, and no other was
      added; no probe is forgotten; the lease stays as old as it was. */
  ghost predicate Grown(before: Option<GateRecord>, after: Option<GateRecord>, native: string, now: int) {
    && after.Some? && native in after.value.natives
    && after.value.natives == Joining(before, native) && after.value.openedAt == OpenedAt(before, now)
    && (before.Some? ==> before.value.natives <= after.value.natives && before.value.probes <= after.value.probes)
  }

  /** What one evaluation leaves at its lease, and elsewhere. */
  ghost predicate Agreed(gates: seq<GateRecord>, after: seq<GateRecord>, p: PreInput, coverage: CoverageStatus,
                         result: PolicyResult)
  {
    var stored := GateForAction(after, LeaseKey(p));
    && Good(after) && CalmElsewhere(gates, after, LeaseKey(p))
    && stored.Some?
    && Agrees(stored.value, p, coverage, result)
    && Grown(GateForAction(gates, LeaseKey(p)), stored, p.native, p.now)
    && stored.value.probes == ProbesOn(GateForAction(gates, LeaseKey(p)))
  }

  lemma CorrectionAgrees(gates: seq<GateRecord>, p: PreInput, coverage: CoverageStatus, written: seq<GateRecord>,
                         record: GateRecord)
    requires Good(written) && GateForAction(written, LeaseKey(p)) == Some(record) && record.key == LeaseKey(p)
    requires CalmElsewhere(gates, written, LeaseKey(p))
    requires Grown(GateForAction(gates, LeaseKey(p)), Some(record), p.native, p.now)
    requires record.probes == ProbesOn(GateForAction(gates, LeaseKey(p)))
    ensures var result := Final(p, coverage, record);
            Agreed(gates, Corrected(written, record, result.state, result.decision, p.now), p, coverage, result)
  {
    var result := Final(p, coverage, record);
    CorrectedLaw(gates, written, record, result.state, result.decision, p.now);
  }

  /** Store and hook agree: whatever the provisional write guessed, the stored state and decision
      are the policy on the stored counters, and they are what the hook answers from. */
  lemma StoreAndHookAgree(gates: seq<GateRecord>, p: PreInput, coverage: CoverageStatus, locator: Option<string>,
                          obligations: seq<string>)
    requires Good(gates)
    ensures var (after, result) := Reconciled(gates, p, coverage, locator, obligations);
            Agreed(gates, after, p, coverage, result)
  {
    var key := LeaseKey(p);
    var guess := Provisional(gates, p, coverage);
    var record := RecordedGate(gates, key, p.native, locator, guess.state, guess.decision, obligations, p.now);
    var written := Recorded(gates, key, p.native, locator, guess.state, guess.decision, obligations, p.now);
    RecordedGateLaw(gates, key, p.native, locator, guess.state, guess.decision, obligations, p.now);
    RecordLaw(gates, key, p.native, locator, guess.state, guess.decision, obligations, p.now);
    CorrectionAgrees(gates, p, coverage, written, record);
  }

  lemma CorrectedLaw(gates: seq<GateRecord>, written: seq<GateRecord>, record: GateRecord, state: GateState,
                     decision: GateDecision, now: int)
    requires Good(written) && GateForAction(written, record.key) == Some(record)
    requires CalmElsewhere(gates, written, record.key)
    requires record.key.action.mode == Manual ==> state == Advisory || state == ClearedAbsent
    ensures var after := Corrected(written, record, state, decision, now);
            && Good(after) && CalmElsewhere(gates, after, record.key)
            && GateForAction(after, record.key).Some?
            && var h := GateForAction(after, record.key).value;
            && h.state == state && h.decision == decision && h.natives == record.natives && h.probes == record.probes
            && h.attempts == record.attempts && h.probeSteps == record.probeSteps && h.openedAt == record.openedAt
  {
    var after := Corrected(written, record, state, decision, now);
    CorrectionLaw(written, record, state, decision, now);
    forall other | other != record.key && GateForAction(after, other).Some?
      ensures GateForAction(gates, other).Some?
              && Calm(GateForAction(gates, other).value, GateForAction(after, other).value)
    {
      LookupCorrected(written, record, state, decision, now, other);
    }
  }

  lemma CorrectionLaw(gates: seq<GateRecord>, record: GateRecord, state: GateState, decision: GateDecision, now: int)
    requires Good(gates) && GateForAction(gates, record.key) == Some(record)
    requires record.key.action.mode == Manual ==> state == Advisory || state == ClearedAbsent
    ensures var after := Resolved(gates, record.key, state, decision, now);
            && Good(after)
            && GateForAction(after, record.key) == Some(ResolvedGate(record, state, decision, now))
  {
    var i := LastPosition(gates, record.key);
    Found(gates, i);
    var h := ResolvedGate(record, state, decision, now);
    GoodUpdated(gates, i, h);
    LookupUpdated(gates, i, h, record.key);
  }

  lemma LookupCorrected(gates: seq<GateRecord>, record: GateRecord, state: GateState, decision: GateDecision,
                        now: int, other: GateKey)
    requires Good(gates) && GateForAction(gates, record.key) == Some(record) && other != record.key
    ensures GateForAction(Resolved(gates, record.key, state, decision, now), other) == GateForAction(gates, other)
  {
    var i := LastPosition(gates, record.key);
    Found(gates, i);
    LookupUpdated(gates, i, ResolvedGate(record, state, decision, now), other);
  }

  // ---------- One call ----------

  lemma AdvanceLaw(v: GateView, session: string, input: ProbeInput)
    requires Good(v.gates)
    ensures Good(Advanced(v, session, input).gates)
    ensures CalmStore(v.gates, Advanced(v, session, input).gates)
  {
    if session in v.leases {
      var lease := v.leases[session];
      var key := GateKey(session, lease.action);
      var record := GateForAction(v.gates, key);
      if record.Some? && Waiting(record.value.state) && lease.delivered {
        SettledLaw(v.gates, key, lease, input);
      }
    }
  }

  ghost predicate Unsettled(before: Option<GateRecord>) {
    before.Some? ==> before.value.state != Quarantined && before.value.state != RejectedPresent
  }

  ghost predicate ConsumedClearance(before: Option<GateRecord>) {
    before.Some? && before.value.state == ClearedAbsent && before.value.clearanceConsumed
  }

  /** An evaluation answers from the record it leaves; only Manual is not held. */
  ghost predicate HeldLease(before: Option<GateRecord>, after: Option<GateRecord>, p: PreInput, reply: Option<Reply>) {
    && Grown(before, after, p.native, p.now) && Unsettled(before)
    && (p.mode == Manual <==> reply.None?)
    && (reply.Some? ==> reply.value.state == after.value.state && reply.value.hook != Silent)
    && (reply.Some? && after.value.state in {TargetProbe, ControllerProbe} ==> after.value.attempts <= AUTO_PROBE_LIMIT)
  }

  /** A clearance is consumed by the pass it grants, and is never granted over a consumed one. */
  ghost predicate ClearedLease(before: Option<GateRecord>, after: Option<GateRecord>, p: PreInput, reply: Option<Reply>) {
    && Grown(before, after, p.native, p.now) && Unsettled(before)
    && ConsumedClearance(after) && !ConsumedClearance(before) && reply.None?
  }

  /** What one call made of the store, by the event it reports. */
  ghost predicate Explained(before: seq<GateRecord>, r: PreResult, p: PreInput) {
    && Good(r.after.gates)
    && match r.event
       case Held(key) =>
         key == LeaseKey(p) && CalmElsewhere(before, r.after.gates, key)
         && HeldLease(GateForAction(before, key), GateForAction(r.after.gates, key), p, r.reply)
       case Cleared(key) =>
         key == LeaseKey(p) && CalmElsewhere(before, r.after.gates, key)
         && ClearedLease(GateForAction(before, key), GateForAction(r.after.gates, key), p, r.reply)
       case _ => CalmStore(before, r.after.gates)
  }

  lemma EvaluatedLaw(v: GateView, p: PreInput, coverage: CoverageStatus, locator: Option<string>, obligations: seq<string>)
    requires Good(v.gates) && Unsettled(GateForAction(v.gates, LeaseKey(p)))
    ensures Explained(v.gates, Evaluated(v, p, coverage, locator, obligations), p)
  {
    StoreAndHookAgree(v.gates, p, coverage, locator, obligations);
  }

  lemma ClearanceLaw(gates: seq<GateRecord>, p: PreInput, locator: Option<string>)
    requires Good(gates)
    ensures var after := Recorded(gates, LeaseKey(p), p.native, locator, ClearedAbsent, DeferToBase, [], p.now);
            && Good(after) && CalmElsewhere(gates, after, LeaseKey(p))
            && ConsumedClearance(GateForAction(after, LeaseKey(p)))
            && Grown(GateForAction(gates, LeaseKey(p)), GateForAction(after, LeaseKey(p)), p.native, p.now)
            && GateForAction(after, LeaseKey(p)).value.probes == ProbesOn(GateForAction(gates, LeaseKey(p)))
  {
    RecordedGateLaw(gates, LeaseKey(p), p.native, locator, ClearedAbsent, DeferToBase, [], p.now);
    RecordLaw(gates, LeaseKey(p), p.native, locator, ClearedAbsent, DeferToBase, [], p.now);
  }

  lemma JudgedLaw(v: GateView, p: PreInput)
    requires Good(v.gates)
    ensures Explained(v.gates, Judged(v, p), p)
  {
    var key := LeaseKey(p);
    var previous := GateForAction(v.gates, key);
    LookupKey(v.gates, key);
    CalmStoreReflexive(v.gates);
    if p.target.Some? && StickyResolution(p.mode, previous).None? {
      NotStickyIsUnsettled(v.gates, key);
      if p.effect == Unknown {
        EvaluatedLaw(v, p, Missing, None, []);
      } else if p.snapshot.Some? && p.contract {
        var locator := Some(p.snapshot.value.locator);
        match PlanCoverage(p.snapshot.value.coverage, previous)
        case ClearOnce => ClearanceLaw(v.gates, p, locator);
        case Evaluate(coverage) =>
          if p.proof.Some? {
            EvaluatedLaw(v, p, coverage, locator, p.proof.value);
          }
      }
    }
  }

  lemma NotStickyIsUnsettled(gates: seq<GateRecord>, key: GateKey)
    requires Good(gates) && StickyResolution(key.action.mode, GateForAction(gates, key)).None?
    ensures Unsettled(GateForAction(gates, key))
  {
    LookupKey(gates, key);
  }

  lemma CalmStoreReflexive(gates: seq<GateRecord>)
    ensures CalmStore(gates, gates)
  {
  }

  /** The controller probe a Robot call runs first changes nothing the call's own law mentions. */
  lemma PreToolLaw(v: GateView, p: PreInput)
    requires Good(v.gates)
    ensures Explained(v.gates, PreToolled(v, p), p)
  {
    CalmStoreReflexive(v.gates);
    AdvanceLaw(v, p.session, p.probe);
    var w := if p.mode == Robot then Advanced(v, p.session, p.probe) else v;
    JudgedLaw(w, p);
    var r := Judged(w, p);
    if PreToolled(v, p) == r {
      if p.mode == Robot {
        AdvanceKeeps(v, p.session, p.probe, LeaseKey(p));
      }
      CalmThenExplained(v.gates, w.gates, r, p);
    }
  }

  lemma CalmThenExplained(before: seq<GateRecord>, facing: seq<GateRecord>, r: PreResult, p: PreInput)
    requires CalmStore(before, facing) && Explained(facing, r, p)
    requires GateForAction(before, LeaseKey(p)).Some? ==> GateForAction(facing, LeaseKey(p)).Some?
    ensures Explained(before, r, p)
  {
    var key := LeaseKey(p);
    // The lease itself: its record before the probe and its record before the evaluation.
    var a, b := GateForAction(before, key), GateForAction(facing, key);
    assert a.Some? ==> b.Some? && Calm(a.value, b.value);
    match r.event
    case Held(_) => CalmThenElsewhere(before, facing, r.after.gates, key); CalmThenHeld(a, b, r, p);
    case Cleared(_) => CalmThenElsewhere(before, facing, r.after.gates, key); CalmThenHeld(a, b, r, p);
    case _ => CalmTransitive(before, facing, r.after.gates);
  }

  lemma CalmThenHeld(a: Option<GateRecord>, b: Option<GateRecord>, r: PreResult, p: PreInput)
    requires (a.Some? ==> b.Some? && Calm(a.value, b.value)) && (b.Some? ==> a.Some?)
    ensures var after := GateForAction(r.after.gates, LeaseKey(p));
            && (HeldLease(b, after, p, r.reply) ==> HeldLease(a, after, p, r.reply))
            && (ClearedLease(b, after, p, r.reply) ==> ClearedLease(a, after, p, r.reply))
  {
  }

  lemma CalmThenElsewhere(a: seq<GateRecord>, b: seq<GateRecord>, c: seq<GateRecord>, key: GateKey)
    requires CalmStore(a, b) && CalmElsewhere(b, c, key)
    ensures CalmElsewhere(a, c, key)
  {
  }

  /** A controller probe drops no lease. */
  lemma AdvanceKeeps(v: GateView, session: string, input: ProbeInput, key: GateKey)
    requires Good(v.gates)
    ensures GateForAction(v.gates, key).Some? ==> GateForAction(Advanced(v, session, input).gates, key).Some?
  {
    if session in v.leases {
      var lease := v.leases[session];
      var own := GateKey(session, lease.action);
      var record := GateForAction(v.gates, own);
      if record.Some? && Waiting(record.value.state) && lease.delivered {
        var i := LastPosition(v.gates, own);
        SettledInPlace(v.gates, i, own, lease, input);
        LookupUpdated(v.gates, i, SettledGate(v.gates[i], lease, input), key);
      }
    }
  }

  lemma PostToolStepLaw(v: GateView, q: PostInput)
    requires Good(v.gates)
    ensures Good(PostToolled(v, q).gates) && CalmStore(v.gates, PostToolled(v, q).gates)
  {
    CalmStoreReflexive(v.gates);
    if q.enabled && !q.controlPlane && !q.shadowed && q.target.Some? {
      var noted := PostToolNoted(v.gates, q.session, q.effect, q.material, q.locator, q.now);
      PostToolLaw(v.gates, q.session, q.effect, q.material, q.locator, q.now);
      LatestAbsenceLaw(noted, q.session, q.now);
      var admitted := if q.effect == ReadOnly && q.absenceAdmitted
                      then AbsenceAdmittedToLatest(noted, q.session, q.now) else noted;
      CalmStoreReflexive(noted);
      CalmTransitive(v.gates, noted, admitted);
      AdvanceLaw(v.(gates := admitted), q.session, q.probe);
      CalmTransitive(v.gates, admitted, PostToolled(v, q).gates);
    }
  }

  // ---------- Runs ----------

  datatype Step =
    | Pre(p: PreInput)
    | Post(q: PostInput)
    | Probe(session: string, input: ProbeInput)
    | Deliver(session: string)
    | Supervise(session: string, now: int)
    | Replan(session: string, now: int)
    | Restart

  /** Only the gates are kept on disk: a restarted agent knows no probe leases and no stopped turns. */
  function Next(v: GateView, s: Step): GateView {
    match s
    case Pre(p) => PreToolled(v, p).after
    case Post(q) => PostToolled(v, q)
    case Probe(session, input) => Advanced(v, session, input)
    case Deliver(session) => Delivered(v, session)
    case Supervise(session, now) => v.(gates := Controlled(v.gates, session, now))
    case Replan(session, now) => v.(gates := ReplanDelivered(v.gates, session, now))
    case Restart => GateView(v.gates, map[], {})
  }

  function EventOf(v: GateView, s: Step): Event {
    if s.Pre? then PreToolled(v, s.p).event else Bypassed
  }

  function ReplyTo(v: GateView, s: Step): Option<Reply> {
    if s.Pre? then PreToolled(v, s.p).reply else None
  }

  /** A finite run: the states visited, the steps taken, and the event and reply of each step. */
  datatype Run = Run(states: seq<GateView>, steps: seq<Step>, events: seq<Event>, replies: seq<Option<Reply>>)

  ghost predicate Shaped(r: Run) {
    |r.states| == |r.steps| + 1 && |r.events| == |r.steps| && |r.replies| == |r.steps|
  }

  ghost predicate Moves(r: Run, i: nat)
    requires Shaped(r) && i < |r.steps|
  {
    && r.states[i + 1] == Next(r.states[i], r.steps[i])
    && r.events[i] == EventOf(r.states[i], r.steps[i])
    && r.replies[i] == ReplyTo(r.states[i], r.steps[i])
  }

  ghost predicate IsRun(r: Run) {
    && Shaped(r)
    && r.states[0] == GateView([], map[], {})
    && forall i :: 0 <= i < |r.steps| ==> Moves(r, i)
  }

  function LeaseAt(v: GateView, key: GateKey): Option<GateRecord> {
    GateForAction(v.gates, key)
  }

  /** What any step may do to a lease that is there before and after it. */
  ghost predicate Evolves(g: GateRecord, h: GateRecord, s: Step, event: Event) {
    && g.key == h.key
    && g.natives <= h.natives && g.probes <= h.probes && g.openedAt == h.openedAt
    && (event == Held(g.key) || event == Cleared(g.key) || h.natives == g.natives)
    && (g.state == Quarantined ==> h.state == Quarantined)
    && (g.state == RejectedPresent ==>
          h.state == RejectedPresent || (h.state == Replanning && s.Replan? && s.session == g.key.session))
    && (g.state == ClearedAbsent && g.clearanceConsumed ==>
          (h.state == ClearedAbsent && h.clearanceConsumed) || event == Held(g.key))
  }

  lemma ReplanLaw(gates: seq<GateRecord>, session: string, now: int, key: GateKey)
    requires Good(gates) && GateForAction(ReplanDelivered(gates, session, now), key).Some?
    ensures GateForAction(gates, key).Some?
    ensures Evolves(GateForAction(gates, key).value, GateForAction(ReplanDelivered(gates, session, now), key).value,
                    Replan(session, now), Bypassed)
  {
    LookupKey(gates, key);
    var i := LastOfSession(gates, session);
    if i >= 0 && gates[i].state == RejectedPresent {
      LookupUpdated(gates, i, gates[i].(state := Replanning, decision := AutonomousResolve, updatedAt := now), key);
      Found(gates, i);
    }
  }

  lemma GoodReplan(gates: seq<GateRecord>, session: string, now: int)
    requires Good(gates)
    ensures Good(ReplanDelivered(gates, session, now))
  {
    var i := LastOfSession(gates, session);
    if i >= 0 && gates[i].state == RejectedPresent {
      assert GoodGate(gates[i]);
      GoodUpdated(gates, i, gates[i].(state := Replanning, decision := AutonomousResolve, updatedAt := now));
    }
  }

  lemma StepKeepsGood(v: GateView, s: Step)
    requires Good(v.gates)
    ensures Good(Next(v, s).gates)
  {
    match s
    case Pre(p) => PreToolLaw(v, p);
    case Post(q) => PostToolStepLaw(v, q);
    case Probe(session, input) => AdvanceLaw(v, session, input);
    case Deliver(_) =>
    case Supervise(session, now) => ControlLaw(v.gates, session, now);
    case Replan(session, now) => GoodReplan(v.gates, session, now);
    case Restart =>
  }

  lemma StepEvolves(v: GateView, s: Step, key: GateKey)
    requires Good(v.gates) && LeaseAt(v, key).Some? && LeaseAt(Next(v, s), key).Some?
    ensures Evolves(LeaseAt(v, key).value, LeaseAt(Next(v, s), key).value, s, EventOf(v, s))
  {
    LookupKey(v.gates, key);
    LookupKey(Next(v, s).gates, key);
    match s
    case Pre(p) => PreToolLaw(v, p);
    case Post(q) => PostToolStepLaw(v, q);
    case Probe(session, input) => AdvanceLaw(v, session, input);
    case Deliver(_) =>
    case Supervise(session, now) => ControlLaw(v.gates, session, now);
    case Replan(session, now) => ReplanLaw(v.gates, session, now, key);
    case Restart =>
  }

  /** Every reachable store: unique keys, at most 128 gates, duplicate-free identity lists, and both
      budgets equal to the capped number of identities. */
  lemma {:induction false} ReachableStoresAreGood(r: Run, i: nat)
    requires IsRun(r) && i < |r.states|
    ensures Good(r.states[i].gates)
  {
    if i > 0 {
      ReachableStoresAreGood(r, i - 1);
      StepKeepsGood(r.states[i - 1], r.steps[i - 1]);
      assert Moves(r, i - 1);
    }
  }

  // ---------- The history of one lease ----------

  /** A stretch of a run through which one lease's record stays: the records, with the step and the
      event between each and the next. */
  datatype History = History(leases: seq<GateRecord>, steps: seq<Step>, events: seq<Event>)

  ghost predicate HistoryStep(h: History, k: nat)
    requires k < |h.steps| && |h.leases| == |h.steps| + 1 && |h.events| == |h.steps|
  {
    Evolves(h.leases[k], h.leases[k + 1], h.steps[k], h.events[k])
  }

  ghost predicate IsHistory(h: History) {
    && |h.leases| == |h.steps| + 1 && |h.events| == |h.steps|
    && forall k :: 0 <= k < |h.steps| ==> HistoryStep(h, k)
  }

  lemma {:induction false} HistoryIsQuarantined(h: History, k: nat)
    requires IsHistory(h) && k < |h.leases| && h.leases[0].state == Quarantined
    ensures h.leases[k].state == Quarantined
  {
    if k > 0 {
      HistoryIsQuarantined(h, k - 1);
      assert HistoryStep(h, k - 1);
    }
  }

  lemma {:induction false} HistoryKeepsKey(h: History, k: nat)
    requires IsHistory(h) && k < |h.leases|
    ensures h.leases[k].key == h.leases[0].key
    ensures h.leases[0].natives <= h.leases[k].natives && h.leases[0].probes <= h.leases[k].probes
    ensures h.leases[k].openedAt == h.leases[0].openedAt
  {
    if k > 0 {
      HistoryKeepsKey(h, k - 1);
      assert HistoryStep(h, k - 1);
    }
  }

  lemma {:induction false} HistoryIsRejected(h: History, k: nat)
    requires IsHistory(h) && k < |h.leases| && h.leases[0].state == RejectedPresent
    ensures h.leases[k].state == RejectedPresent
            || exists m :: 0 <= m < k && ReplansAt(h, m)
  {
    if k > 0 {
      HistoryIsRejected(h, k - 1);
      HistoryKeepsKey(h, k - 1);
      assert HistoryStep(h, k - 1);
      assert h.leases[k - 1].state == RejectedPresent && h.leases[k].state != RejectedPresent ==> ReplansAt(h, k - 1);
    }
  }

  ghost predicate ReplansAt(h: History, m: nat) {
    && m < |h.steps| && m + 1 < |h.leases|
    && h.steps[m].Replan? && h.steps[m].session == h.leases[0].key.session
    && h.leases[m].state == RejectedPresent && h.leases[m + 1].state == Replanning
  }

  lemma {:induction false} HistoryIsConsumed(h: History, k: nat)
    requires IsHistory(h) && k < |h.leases| && ConsumedClearance(Some(h.leases[0]))
    ensures ConsumedClearance(Some(h.leases[k])) || exists m :: 0 <= m < k && h.events[m] == Held(h.leases[0].key)
  {
    if k > 0 {
      HistoryIsConsumed(h, k - 1);
      HistoryKeepsKey(h, k - 1);
      assert HistoryStep(h, k - 1);
    }
  }

  ghost predicate StaysThrough(r: Run, key: GateKey, i: nat, j: nat)
    requires i <= j < |r.states|
  {
    forall k :: i <= k <= j ==> LeaseAt(r.states[k], key).Some?
  }

  ghost predicate HistoryOf(h: History, r: Run, key: GateKey, i: nat, j: nat)
    requires Shaped(r) && i <= j <= |r.steps|
  {
    && |h.leases| == j - i + 1 && h.steps == r.steps[i..j] && h.events == r.events[i..j]
    && forall k :: 0 <= k <= j - i ==> LeaseAt(r.states[i + k], key) == Some(h.leases[k])
  }

  function Appended(h: History, lease: GateRecord, step: Step, event: Event): History {
    History(h.leases + [lease], h.steps + [step], h.events + [event])
  }

  lemma AppendedIsHistory(h: History, lease: GateRecord, step: Step, event: Event)
    requires IsHistory(h) && Evolves(h.leases[|h.leases| - 1], lease, step, event)
    ensures IsHistory(Appended(h, lease, step, event))
  {
    var h' := Appended(h, lease, step, event);
    forall k | 0 <= k < |h'.steps|
      ensures HistoryStep(h', k)
    {
      if k < |h.steps| {
        assert HistoryStep(h, k);
      }
    }
  }

  lemma RunEvolves(r: Run, i: nat, key: GateKey)
    requires IsRun(r) && i < |r.steps|
    requires LeaseAt(r.states[i], key).Some? && LeaseAt(r.states[i + 1], key).Some?
    ensures Evolves(LeaseAt(r.states[i], key).value, LeaseAt(r.states[i + 1], key).value, r.steps[i], r.events[i])
  {
    ReachableStoresAreGood(r, i);
    assert Moves(r, i);
    StepEvolves(r.states[i], r.steps[i], key);
  }

  lemma HistoryOnward(h: History, r: Run, key: GateKey, i: nat, j: nat)
    requires IsRun(r) && i < j <= |r.steps| && HistoryOf(h, r, key, i, j - 1) && LeaseAt(r.states[j], key).Some?
    ensures HistoryOf(Appended(h, LeaseAt(r.states[j], key).value, r.steps[j - 1], r.events[j - 1]), r, key, i, j)
  {
    assert r.steps[i..j] == r.steps[i..j - 1] + [r.steps[j - 1]];
    assert r.events[i..j] == r.events[i..j - 1] + [r.events[j - 1]];
  }

  lemma {:induction false} RunHistory(r: Run, key: GateKey, i: nat, j: nat) returns (h: History)
    requires IsRun(r) && i <= j <= |r.steps| && StaysThrough(r, key, i, j)
    ensures IsHistory(h) && HistoryOf(h, r, key, i, j)
    ensures h.leases[0].key == key
  {
    LookupKey(r.states[i].gates, key);
    if i == j {
      h := History([LeaseAt(r.states[i], key).value], [], []);
    } else {
      var front := RunHistory(r, key, i, j - 1);
      assert LeaseAt(r.states[i + (j - 1 - i)], key) == Some(front.leases[j - 1 - i]);
      RunEvolves(r, j - 1, key);
      HistoryOnward(front, r, key, i, j);
      h := Appended(front, LeaseAt(r.states[j], key).value, r.steps[j - 1], r.events[j - 1]);
      AppendedIsHistory(front, LeaseAt(r.states[j], key).value, r.steps[j - 1], r.events[j - 1]);
    }
  }

  // ---------- Over whole runs ----------

  /** While its record stays in the store, a quarantined lease stays quarantined. */
  lemma QuarantineIsFinal(r: Run, key: GateKey, i: nat, j: nat)
    requires IsRun(r) && i <= j < |r.states| && StaysThrough(r, key, i, j)
    requires LeaseAt(r.states[i], key).value.state == Quarantined
    ensures LeaseAt(r.states[j], key).value.state == Quarantined
  {
    var h := RunHistory(r, key, i, j);
    HistoryIsQuarantined(h, j - i);
    assert LeaseAt(r.states[i + (j - i)], key) == Some(h.leases[j - i]);
  }

  /** A rejected lease leaves that state only through a replan delivered to its own session. */
  lemma RejectionEndsInReplan(r: Run, key: GateKey, i: nat, j: nat)
    requires IsRun(r) && i <= j < |r.states| && StaysThrough(r, key, i, j)
    requires LeaseAt(r.states[i], key).value.state == RejectedPresent
    ensures LeaseAt(r.states[j], key).value.state == RejectedPresent
            || exists k :: i <= k < j && r.steps[k].Replan? && r.steps[k].session == key.session
                           && LeaseAt(r.states[k], key).value.state == RejectedPresent
                           && LeaseAt(r.states[k + 1], key).value.state == Replanning
  {
    var h := RunHistory(r, key, i, j);
    HistoryIsRejected(h, j - i);
    assert LeaseAt(r.states[i + (j - i)], key) == Some(h.leases[j - i]);
    if LeaseAt(r.states[j], key).value.state != RejectedPresent {
      var m :| 0 <= m < j - i && ReplansAt(h, m);
      assert LeaseAt(r.states[i + m], key) == Some(h.leases[m]);
      assert LeaseAt(r.states[i + (m + 1)], key) == Some(h.leases[m + 1]);
      assert h.steps[m] == r.steps[i + m];
    }
  }

  /** Clearances alternate with holds: between two one-shot passes of one Auto or Robot lease, while
      its record stays, some call on that lease was held. */
  lemma ClearanceAlternatesWithHolds(r: Run, key: GateKey, i: nat, j: nat)
    requires IsRun(r) && i < j < |r.steps| && key.action.mode != Manual
    requires r.events[i] == Cleared(key) && r.events[j] == Cleared(key)
    requires StaysThrough(r, key, i + 1, j)
    ensures exists k :: i < k < j && r.events[k] == Held(key) && r.replies[k].Some?
  {
    ClearedCall(r, key, i);
    ClearedCall(r, key, j);
    var h := RunHistory(r, key, i + 1, j);
    assert LeaseAt(r.states[i + 1 + 0], key) == Some(h.leases[0]);
    assert LeaseAt(r.states[i + 1 + (j - i - 1)], key) == Some(h.leases[j - i - 1]);
    HistoryIsConsumed(h, j - i - 1);
    var m :| 0 <= m < j - i - 1 && h.events[m] == Held(key);
    var k := i + 1 + m;
    assert r.events[k] == Held(key);
    HeldCall(r, key, k);
  }

  lemma ClearedCall(r: Run, key: GateKey, i: nat)
    requires IsRun(r) && i < |r.steps| && r.events[i] == Cleared(key)
    ensures ConsumedClearance(LeaseAt(r.states[i + 1], key)) && !ConsumedClearance(LeaseAt(r.states[i], key))
  {
    assert Moves(r, i);
    CallLaw(r, i);
  }

  lemma HeldCall(r: Run, key: GateKey, i: nat)
    requires IsRun(r) && i < |r.steps| && r.events[i] == Held(key)
    ensures r.steps[i].Pre? && (key.action.mode != Manual ==> r.replies[i].Some?)
    ensures HeldLease(LeaseAt(r.states[i], key), LeaseAt(r.states[i + 1], key), r.steps[i].p, r.replies[i])
  {
    assert Moves(r, i);
    CallLaw(r, i);
  }

  lemma CallLaw(r: Run, i: nat)
    requires IsRun(r) && i < |r.steps| && r.steps[i].Pre?
    ensures r.states[i + 1] == PreToolled(r.states[i], r.steps[i].p).after
    ensures Explained(r.states[i].gates, PreToolled(r.states[i], r.steps[i].p), r.steps[i].p)
  {
    ReachableStoresAreGood(r, i);
    assert Moves(r, i);
    PreToolLaw(r.states[i], r.steps[i].p);
  }

  // ---------- The Robot budget ----------

  /** A call that held this lease for a target or controller probe. */
  ghost predicate ProbeHold(r: Run, key: GateKey, k: nat)
    requires Shaped(r) && k < |r.steps|
  {
    && r.events[k] == Held(key)
    && r.replies[k].Some?
    && r.replies[k].value.state in {TargetProbe, ControllerProbe}
  }

  ghost function ProbedIdentities(r: Run, key: GateKey, i: nat, j: nat): set<string>
    requires Shaped(r) && i <= j <= |r.steps|
  {
    set k | i <= k < j && r.steps[k].Pre? && ProbeHold(r, key, k) :: r.steps[k].p.native
  }

  lemma {:induction false} FewMembers(s: set<string>, list: seq<string>)
    requires forall x :: x in s ==> x in list
    ensures |s| <= |list|
  {
    if list == [] {
      assert s == {};
    } else {
      FewMembers(s - {list[0]}, list[1..]);
      assert s <= (s - {list[0]}) + {list[0]};
      if list[0] in s {
        assert |s| == |s - {list[0]}| + 1;
      } else {
        assert s - {list[0]} == s;
      }
    }
  }

  function FirstThree(natives: seq<string>): seq<string> {
    if |natives| <= AUTO_PROBE_LIMIT then natives else natives[..AUTO_PROBE_LIMIT]
  }

  /** Identities and probes are never dropped, nor reordered, and the window is never moved. */
  lemma LeaseOnlyGrows(r: Run, key: GateKey, k: nat, j: nat)
    requires IsRun(r) && k <= j <= |r.steps| && StaysThrough(r, key, k, j)
    ensures LeaseAt(r.states[k], key).value.natives <= LeaseAt(r.states[j], key).value.natives
    ensures LeaseAt(r.states[k], key).value.probes <= LeaseAt(r.states[j], key).value.probes
    ensures LeaseAt(r.states[k], key).value.openedAt == LeaseAt(r.states[j], key).value.openedAt
  {
    var h := RunHistory(r, key, k, j);
    HistoryKeepsKey(h, j - k);
    assert LeaseAt(r.states[k + 0], key) == Some(h.leases[0]);
    assert LeaseAt(r.states[k + (j - k)], key) == Some(h.leases[j - k]);
  }

  /** Whoever was held for a probe is still among the first three identities on the lease's list. */
  lemma HeldIdentityIsEarly(r: Run, key: GateKey, k: nat, j: nat)
    requires IsRun(r) && k < j <= |r.steps| && StaysThrough(r, key, k + 1, j)
    requires r.steps[k].Pre? && ProbeHold(r, key, k)
    ensures r.steps[k].p.native in FirstThree(LeaseAt(r.states[j], key).value.natives)
  {
    var held := ProbeHoldIsEarly(r, key, k);
    LeaseOnlyGrows(r, key, k + 1, j);
    EarlyStays(held, LeaseAt(r.states[j], key).value.natives, r.steps[k].p.native);
  }

  lemma EarlyStays(held: seq<string>, natives: seq<string>, native: string)
    requires held <= natives && |held| <= AUTO_PROBE_LIMIT && native in held
    ensures native in FirstThree(natives)
  {
    var m :| 0 <= m < |held| && held[m] == native;
    assert FirstThree(natives)[m] == native;
  }

  /** While a lease's record stays, at most three distinct native identities are ever held for a
      probe: a fourth can only be denied for good. */
  lemma RobotBudget(r: Run, key: GateKey, i: nat, j: nat)
    requires IsRun(r) && i < j <= |r.steps| && StaysThrough(r, key, i + 1, j)
    ensures |ProbedIdentities(r, key, i, j)| <= 3
  {
    var first := FirstThree(LeaseAt(r.states[j], key).value.natives);
    forall x | x in ProbedIdentities(r, key, i, j)
      ensures x in first
    {
      var k :| i <= k < j && r.steps[k].Pre? && ProbeHold(r, key, k) && r.steps[k].p.native == x;
      HeldIdentityIsEarly(r, key, k, j);
    }
    FewMembers(ProbedIdentities(r, key, i, j), first);
  }

  lemma ProbeHoldIsEarly(r: Run, key: GateKey, k: nat) returns (natives: seq<string>)
    requires IsRun(r) && k < |r.steps| && r.steps[k].Pre? && ProbeHold(r, key, k)
    ensures LeaseAt(r.states[k + 1], key).Some? && natives == LeaseAt(r.states[k + 1], key).value.natives
    ensures |natives| <= AUTO_PROBE_LIMIT && r.steps[k].p.native in natives
  {
    HeldCall(r, key, k);
    ReachableStoresAreGood(r, k + 1);
    FoundIsGood(r.states[k + 1].gates, key);
    natives := LeaseAt(r.states[k + 1], key).value.natives;
  }

  lemma FoundIsGood(gates: seq<GateRecord>, key: GateKey)
    requires Good(gates) && GateForAction(gates, key).Some?
    ensures GoodGate(GateForAction(gates, key).value)
  {
  }

  // ---------- Replies ----------

  /** Whatever the store holds: Manual is never held by the gate, and Robot is never sent to the user. */
  lemma ModesAndReplies(v: GateView, p: PreInput)
    ensures p.mode == Manual ==> PreToolled(v, p).reply == None
    ensures p.mode == Robot && PreToolled(v, p).reply.Some? ==> PreToolled(v, p).reply.value.hook == HookDeny
    ensures PreToolled(v, p).reply.Some? ==> PreToolled(v, p).reply.value.hook in {HookDeny, HookAskUser}
  {
    JudgedReplies(if p.mode == Robot then Advanced(v, p.session, p.probe) else v, p);
  }

  lemma JudgedReplies(v: GateView, p: PreInput)
    ensures p.mode == Manual ==> Judged(v, p).reply == None
    ensures p.mode == Robot && Judged(v, p).reply.Some? ==> Judged(v, p).reply.value.hook == HookDeny
    ensures Judged(v, p).reply.Some? ==> Judged(v, p).reply.value.hook in {HookDeny, HookAskUser}
  {
    var r := Judged(v, p);
    if r.event.Held? {
      var coverage := if p.effect == Unknown then Missing
                      else PlanCoverage(p.snapshot.value.coverage, GateForAction(v.gates, LeaseKey(p))).coverage;
      var locator := if p.effect == Unknown then None else Some(p.snapshot.value.locator);
      EvaluatedReply(v, p, coverage, locator, if p.effect == Unknown then [] else p.proof.value);
    }
  }

  lemma EvaluatedReply(v: GateView, p: PreInput, coverage: CoverageStatus, locator: Option<string>, obligations: seq<string>)
    ensures var reply := Evaluated(v, p, coverage, locator, obligations).reply;
            && (p.mode == Manual <==> reply.None?)
            && (reply.Some? ==> reply.value.hook in {HookDeny, HookAskUser})
            && (p.mode == Robot && reply.Some? ==> reply.value.hook == HookDeny)
  {
  }

  // ---------- Terminal turns ----------

  /** The members the full hash sets drop during one step. */
  function VictimsOf(s: Step): set<string> {
    match s
    case Pre(p) => {p.turnVictim, p.probe.turnVictim}
    case Post(q) => {q.probe.turnVictim}
    case Probe(_, input) => {input.turnVictim}
    case _ => {}
  }

  /** A restart forgets every stopped turn. */
  predicate Forgets(s: Step, turn: string) {
    s.Restart? || turn in VictimsOf(s)
  }

  lemma TerminalTurnStep(v: GateView, s: Step, turn: string)
    requires turn in v.terminal && !Forgets(s, turn)
    ensures turn in Next(v, s).terminal
  {
    match s
    case Pre(p) =>
      AdvanceKeepsTurn(v, p.session, p.probe, turn);
      JudgedKeepsTurn(if p.mode == Robot then Advanced(v, p.session, p.probe) else v, p, turn);
    case Post(q) =>
      if q.enabled && !q.controlPlane && !q.shadowed && q.target.Some? {
        var noted := PostToolNoted(v.gates, q.session, q.effect, q.material, q.locator, q.now);
        AdvanceKeepsTurn(v.(gates := if q.effect == ReadOnly && q.absenceAdmitted
                                     then AbsenceAdmittedToLatest(noted, q.session, q.now) else noted),
                         q.session, q.probe, turn);
      }
    case Probe(session, input) => AdvanceKeepsTurn(v, session, input, turn);
    case Deliver(_) =>
    case Supervise(_, _) =>
    case Replan(_, _) =>
    case Restart => assert false;
  }

  lemma AdvanceKeepsTurn(v: GateView, session: string, input: ProbeInput, turn: string)
    requires turn in v.terminal && turn != input.turnVictim
    ensures turn in Advanced(v, session, input).terminal
  {
  }

  lemma JudgedKeepsTurn(v: GateView, p: PreInput, turn: string)
    requires turn in v.terminal && turn != p.turnVictim
    ensures turn in Judged(v, p).after.terminal
  {
  }

  lemma {:induction false} TerminalTurnsPersist(r: Run, turn: string, i: nat, j: nat)
    requires IsRun(r) && i <= j < |r.states|
    requires turn in r.states[i].terminal
    requires forall k :: i <= k < j ==> !Forgets(r.steps[k], turn)
    ensures turn in r.states[j].terminal
  {
    if i < j {
      TerminalTurnsPersist(r, turn, i, j - 1);
      assert Moves(r, j - 1);
      TerminalTurnStep(r.states[j - 1], r.steps[j - 1], turn);
    }
  }

  /** A stopped turn stays stopped: until the agent restarts or the set drops it, every enforced Robot call of that turn
      that is not read-only is denied, and the store is left to the controller probe alone. */
  lemma TerminalTurnsAreBlocked(r: Run, i: nat, j: nat, p: PreInput)
    requires IsRun(r) && i <= j < |r.states|
    requires p.turn in r.states[i].terminal
    requires forall k :: i <= k < j ==> !Forgets(r.steps[k], p.turn)
    requires p.turn != p.probe.turnVictim
    requires p.enabled && !p.controlPlane && !p.shadowed && p.mode == Robot && p.effect != ReadOnly
    ensures PreToolled(r.states[j], p).reply == Some(Reply(HookDeny, Quarantined))
    ensures PreToolled(r.states[j], p).after == Advanced(r.states[j], p.session, p.probe)
  {
    TerminalTurnsPersist(r, p.turn, i, j);
  }

  /** Quarantining a Robot call stops its turn. */
  lemma QuarantineStopsTheTurn(v: GateView, p: PreInput)
    requires p.mode == Robot
    requires PreToolled(v, p).reply.Some? && PreToolled(v, p).reply.value.state == Quarantined
    ensures p.turn in PreToolled(v, p).after.terminal
  {
  }

  /** After a restart a stopped turn is stopped again by the first call on any lease that was quarantined. */
  lemma RestartedTurnStopsAgain(r: Run, key: GateKey, i: nat, j: nat, p: PreInput)
    requires IsRun(r) && i <= j < |r.states| && StaysThrough(r, key, i, j) && key == LeaseKey(p)
    requires LeaseAt(r.states[i], key).value.state == Quarantined
    requires p.enabled && !p.controlPlane && !p.shadowed && p.mode == Robot && p.effect == Unknown && p.target.Some?
    ensures PreToolled(r.states[j], p).reply == Some(Reply(HookDeny, Quarantined))
    ensures p.turn in PreToolled(r.states[j], p).after.terminal
  {
    QuarantineIsFinal(r, key, i, j);
    ReachableStoresAreGood(r, j);
    ProbeKeepsQuarantine(r.states[j], p.session, p.probe, key);
  }

  lemma ProbeKeepsQuarantine(v: GateView, session: string, input: ProbeInput, key: GateKey)
    requires Good(v.gates) && LeaseAt(v, key).Some? && LeaseAt(v, key).value.state == Quarantined
    ensures LeaseAt(Advanced(v, session, input), key).Some?
    ensures LeaseAt(Advanced(v, session, input), key).value.state == Quarantined
  {
    AdvanceKeeps(v, session, input, key);
    AdvanceLaw(v, session, input);
    LookupKey(v.gates, key);
  }

  /** On a lease not seen before it is not: the restart has let the turn go on. */
  lemma RestartFreesTheTurn(v: GateView, p: PreInput)
    requires p.enabled && !p.controlPlane && !p.shadowed && p.mode == Robot && p.effect == Unknown && p.target.Some?
    requires LeaseAt(v, LeaseKey(p)).None?
    ensures PreToolled(Next(v, Restart), p).reply == Some(Reply(HookDeny, TargetProbe))
  {
    var key, guess := LeaseKey(p), Provisional(v.gates, p, Missing);
    assert PreToolled(Next(v, Restart), p) == Evaluated(Next(v, Restart), p, Missing, None, []);
  }
}
