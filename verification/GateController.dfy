/** The pre-mutation gate: what a tool call is answered, and how it moves the gate store.

    `Advanced`, `PreToolled` and `PostToolled` give the state after one atomic hook call as a
    function of the state before it; the class `Controller` makes the same moves in place. */
module GateController {
  import opened GateTypes
  import opened ArtifactStore

  const AUTO_PROBE_LIMIT := 3
  const AUTO_TIMEOUT_SECS := 110
  const LEASE_CAP := 256
  const TERMINAL_CAP := 512

  // ---------- Policy ----------

  datatype Hook = Silent | HookDeny | HookAskUser

  datatype PolicyResult = PolicyResult(state: GateState, decision: GateDecision, hook: Hook)

  datatype CoveragePlan = ClearOnce | Evaluate(coverage: CoverageStatus)

  function PlanCoverage(coverage: CoverageStatus, previous: Option<GateRecord>): CoveragePlan {
    if coverage != AbsentFresh then Evaluate(coverage)
    else if previous.Some? && previous.value.state == ClearedAbsent && previous.value.clearanceConsumed
    then Evaluate(StaleCoverage)
    else ClearOnce
  }

  function Policy(mode: Mode, coverage: CoverageStatus, unknownEffect: bool, attempts: int, probeSteps: int,
                  age: int): PolicyResult
  {
    if mode == Manual then PolicyResult(Advisory, Annotate, Silent)
    else if coverage == PresentFresh && !unknownEffect then
      PolicyResult(RejectedPresent, GateDecision.Deny, HookDeny)
    else if mode == Auto then
      PolicyResult(AwaitingProof, AskProof,
                   if probeSteps >= AUTO_PROBE_LIMIT || age >= AUTO_TIMEOUT_SECS then HookAskUser else HookDeny)
    else if probeSteps >= AUTO_PROBE_LIMIT || attempts > AUTO_PROBE_LIMIT then
      PolicyResult(Quarantined, QuarantineBranch, HookDeny)
    else
      PolicyResult(if attempts > 1 then ControllerProbe else TargetProbe, AutonomousResolve, HookDeny)
  }

  function StickyResolution(mode: Mode, previous: Option<GateRecord>): Option<PolicyResult> {
    if mode == Manual || previous.None? then None
    else if previous.value.state == Quarantined then Some(PolicyResult(Quarantined, QuarantineBranch, HookDeny))
    else if previous.value.state == RejectedPresent then
      Some(PolicyResult(RejectedPresent, GateDecision.Deny, HookDeny))
    else None
  }

  // ---------- State ----------

  /** A Robot lease waiting for its controller probe. */
  datatype ProbeLease = ProbeLease(target: Option<string>, action: Action, terminalKey: string,
                                   delivered: bool, unknownEffect: bool)

  /** The gate store, the probe leases by session, and the turns that must stop. */
  datatype GateView = GateView(gates: seq<GateRecord>, leases: map<string, ProbeLease>, terminal: set<string>)

  /** `victim` is whichever member the hash set yields first when it is full. */
  function TurnMarked(terminal: set<string>, key: string, victim: string): set<string> {
    (if |terminal| >= TERMINAL_CAP && key !in terminal then terminal - {victim} else terminal) + {key}
  }

  function LeaseRegistered(leases: map<string, ProbeLease>, session: string, lease: ProbeLease,
                           victim: string): map<string, ProbeLease>
  {
    var room := if |leases| >= LEASE_CAP && session !in leases then leases - {victim} else leases;
    if session in room && room[session].action == lease.action
    then room[session := lease.(delivered := room[session].delivered)]
    else room[session := lease]
  }

  // ---------- The controller probe ----------

  datatype ProbeOutcome = Present | Absent | Unavailable

  /** What the file system and the clock answer while a controller probe runs. */
  datatype ProbeInput = ProbeInput(outcome: ProbeOutcome, now: int, turnVictim: string)

  const ADAPTER_PROBE := "adapter-resolution-v1"
  const METADATA_PROBE := "filesystem-metadata-v1"
  const NAMESPACE_PROBE := "filesystem-namespace-v1"

  function Settled(gates: seq<GateRecord>, key: GateKey, lease: ProbeLease, input: ProbeInput): (seq<GateRecord>, bool) {
    var now := input.now;
    if lease.unknownEffect then
      (Resolved(ControllerProbed(gates, key, ADAPTER_PROBE, now), key, Quarantined, QuarantineBranch, now), true)
    else if lease.target.None? then
      (Resolved(gates, key, Quarantined, QuarantineBranch, now), true)
    else
      var probed := ControllerProbed(gates, key, METADATA_PROBE, now);
      match input.outcome
      case Present => (Resolved(probed, key, RejectedPresent, GateDecision.Deny, now), false)
      case Absent => (AbsenceAdmitted(ControllerProbed(probed, key, NAMESPACE_PROBE, now), key, now), false)
      case Unavailable =>
        (Resolved(ControllerProbed(probed, key, NAMESPACE_PROBE, now), key, Quarantined, QuarantineBranch, now), true)
  }

  function Advanced(v: GateView, session: string, input: ProbeInput): GateView {
    if session !in v.leases then v
    else
      var lease := v.leases[session];
      var key := GateKey(session, lease.action);
      var record := GateForAction(v.gates, key);
      if record.None? || !Waiting(record.value.state) then v.(leases := v.leases - {session})
      else if !lease.delivered then v
      else
        var (gates, stop) := Settled(v.gates, key, lease, input);
        GateView(gates, v.leases - {session},
                 if stop then TurnMarked(v.terminal, lease.terminalKey, input.turnVictim) else v.terminal)
  }

  function Delivered(v: GateView, session: string): GateView {
    if session in v.leases then v.(leases := v.leases[session := v.leases[session].(delivered := true)]) else v
  }

  // ---------- The pre-tool hook ----------

  datatype Snapshot = Snapshot(locator: string, detail: string, coverage: CoverageStatus)

  /** One pre-tool call: the payload as classified, and everything the call reads from outside.
      `contract` is false when the transcript yields no ledger; `proof` is the ledger's answer at
      the coverage the hook asks it about. */
  datatype PreInput = PreInput(
    enabled: bool, controlPlane: bool, shadowed: bool,
    session: string, turn: string, mode: Mode, effect: ToolEffect, target: Option<string>,
    base: string, native: string, unknownDetail: string,
    snapshot: Option<Snapshot>, contract: bool, proof: Option<seq<string>>,
    now: int, later: int, leaseVictim: string, turnVictim: string, probe: ProbeInput)

  datatype Reply = Reply(hook: Hook, state: GateState)

  /** Why the hook answered as it did; `key` names the lease concerned. */
  datatype Event = Bypassed | TerminalTurn | Stuck(key: GateKey) | Cleared(key: GateKey) | Held(key: GateKey)

  datatype PreResult = PreResult(after: GateView, reply: Option<Reply>, event: Event)

  function ReplyOf(result: PolicyResult): Option<Reply> {
    if result.hook == Silent then None else Some(Reply(result.hook, result.state))
  }

  function LeaseKey(p: PreInput): GateKey {
    GateKey(p.session, Action(p.base, p.mode,
                              if p.effect == Unknown || p.snapshot.None? then p.unknownDetail
                              else p.snapshot.value.detail))
  }

  /** The u8 sum the hook passes to its provisional policy call; it wraps in a release build. */
  function NextAttempt(previous: Option<GateRecord>): int {
    if previous.Some? then (previous.value.attempts + 1) % 256 else 1
  }

  function ProbeStepsOf(previous: Option<GateRecord>): nat {
    if previous.Some? then previous.value.probeSteps else 0
  }

  function AgeOf(previous: Option<GateRecord>, now: int): int {
    if previous.Some? then now - previous.value.openedAt else 0
  }

  function Provisional(gates: seq<GateRecord>, p: PreInput, coverage: CoverageStatus): PolicyResult {
    var previous := GateForAction(gates, LeaseKey(p));
    Policy(p.mode, coverage, p.effect == Unknown, NextAttempt(previous), ProbeStepsOf(previous), AgeOf(previous, p.now))
  }

  function Final(p: PreInput, coverage: CoverageStatus, record: GateRecord): PolicyResult {
    Policy(p.mode, coverage, p.effect == Unknown, record.attempts, record.probeSteps, p.later - record.openedAt)
  }

  function Corrected(written: seq<GateRecord>, record: GateRecord, state: GateState, decision: GateDecision,
                     now: int): seq<GateRecord>
  {
    if record.state != state || record.decision != decision
    then Resolved(written, record.key, state, decision, now) else written
  }

  /** A provisional write, the policy on what was really stored, and a corrective write. */
  function Reconciled(gates: seq<GateRecord>, p: PreInput, coverage: CoverageStatus, locator: Option<string>,
                      obligations: seq<string>): (seq<GateRecord>, PolicyResult)
  {
    var guess := Provisional(gates, p, coverage);
    var record := RecordedGate(gates, LeaseKey(p), p.native, locator, guess.state, guess.decision, obligations, p.now);
    var written := Recorded(gates, LeaseKey(p), p.native, locator, guess.state, guess.decision, obligations, p.now);
    var result := Final(p, coverage, record);
    (Corrected(written, record, result.state, result.decision, p.now), result)
  }

  predicate Awaits(p: PreInput, result: PolicyResult) {
    p.mode == Robot
    && if p.effect == Unknown then result.state != Quarantined
       else result.state == TargetProbe || result.state == ControllerProbe
  }

  function Evaluated(v: GateView, p: PreInput, coverage: CoverageStatus, locator: Option<string>,
                     obligations: seq<string>): PreResult
  {
    var (gates, result) := Reconciled(v.gates, p, coverage, locator, obligations);
    PreResult(Followed(v.(gates := gates), p, result), ReplyOf(result), Held(LeaseKey(p)))
  }

  /** A waiting Robot lease is registered for its probe; a quarantined one stops the turn. */
  function Followed(v: GateView, p: PreInput, result: PolicyResult): GateView {
    if Awaits(p, result) then
      var lease := ProbeLease(p.target, LeaseKey(p).action, p.turn, false, p.effect == Unknown);
      v.(leases := LeaseRegistered(v.leases, p.session, lease, p.leaseVictim))
    else if p.mode == Robot && result.state == Quarantined then
      v.(terminal := TurnMarked(v.terminal, p.turn, p.turnVictim))
    else v
  }

  function StuckOn(v: GateView, p: PreInput, sticky: PolicyResult): PreResult {
    var terminal := if p.mode == Robot && sticky.state == Quarantined
                    then TurnMarked(v.terminal, p.turn, p.turnVictim) else v.terminal;
    PreResult(v.(terminal := terminal), ReplyOf(sticky), Stuck(LeaseKey(p)))
  }

  /** The hook after the probe has advanced and the terminal turn has been ruled out. */
  function Judged(v: GateView, p: PreInput): PreResult {
    var key := LeaseKey(p);
    var previous := GateForAction(v.gates, key);
    var sticky := StickyResolution(p.mode, previous);
    if p.target.None? then PreResult(v, None, Bypassed)
    else if p.effect == Unknown then
      if sticky.Some? then StuckOn(v, p, sticky.value) else Evaluated(v, p, Missing, None, [])
    else if p.snapshot.None? || !p.contract then PreResult(v, None, Bypassed)
    else if sticky.Some? then StuckOn(v, p, sticky.value)
    else
      var locator := Some(p.snapshot.value.locator);
      match PlanCoverage(p.snapshot.value.coverage, previous)
      case ClearOnce =>
        PreResult(v.(gates := Recorded(v.gates, key, p.native, locator, ClearedAbsent, DeferToBase, [], p.now)),
                  None, Cleared(key))
      case Evaluate(coverage) =>
        if p.proof.None? then PreResult(v, None, Bypassed)
        else Evaluated(v, p, coverage, locator, p.proof.value)
  }

  function PreToolled(v: GateView, p: PreInput): PreResult {
    if !p.enabled || p.controlPlane then PreResult(v, None, Bypassed)
    else
      var w := if p.mode == Robot then Advanced(v, p.session, p.probe) else v;
      if p.shadowed then PreResult(w, None, Bypassed)
      else if p.mode == Robot && p.effect != ReadOnly && p.turn in w.terminal then
        PreResult(w, Some(Reply(HookDeny, Quarantined)), TerminalTurn)
      else Judged(w, p)
  }

  // ---------- The post-tool hook ----------

  datatype PostInput = PostInput(
    enabled: bool, controlPlane: bool, shadowed: bool,
    session: string, effect: ToolEffect, target: Option<string>, material: string,
    locator: Option<string>, absenceAdmitted: bool, now: int, probe: ProbeInput)

  function PostToolled(v: GateView, q: PostInput): GateView {
    if !q.enabled || q.controlPlane || q.shadowed || q.target.None? then v
    else
      var noted := PostToolNoted(v.gates, q.session, q.effect, q.material, q.locator, q.now);
      var admitted := if q.effect == ReadOnly && q.absenceAdmitted
                      then AbsenceAdmittedToLatest(noted, q.session, q.now) else noted;
      Advanced(v.(gates := admitted), q.session, q.probe)
  }

  // ---------- The controller itself ----------

  class Controller {
    const store: Store
    var leases: map<string, ProbeLease>
    var terminal: set<string>

    constructor ()
      ensures fresh(store) && View() == GateView([], map[], {})
    {
      store := new Store();
      leases := map[];
      terminal := {};
    }

    function View(): GateView
      reads this, store
    {
      GateView(store.gates, leases, terminal)
    }

    method MarkTerminalTurn(key: string, victim: string)
      modifies this
      ensures View() == old(View()).(terminal := TurnMarked(old(terminal), key, victim))
    {
      if |terminal| >= TERMINAL_CAP && key !in terminal {
        terminal := terminal - {victim};
      }
      terminal := terminal + {key};
    }

    method RegisterRobotProbe(session: string, lease: ProbeLease, victim: string)
      modifies this
      ensures View() == old(View()).(leases := LeaseRegistered(old(leases), session, lease, victim))
    {
      if |leases| >= LEASE_CAP && session !in leases {
        leases := leases - {victim};
      }
      if session in leases && leases[session].action == lease.action {
        var delivered := leases[session].delivered;
        leases := leases[session := lease];
        leases := leases[session := leases[session].(delivered := delivered)];
      } else {
        leases := leases[session := lease];
      }
    }

    method MarkTargetProbeDelivered(session: string)
      modifies this
      ensures View() == Delivered(old(View()), session)
    {
      if session in leases {
        leases := leases[session := leases[session].(delivered := true)];
      }
    }

    method AdvanceRobotProbe(session: string, input: ProbeInput)
      modifies this, store
      ensures View() == Advanced(old(View()), session, input)
    {
      if session !in leases {
        return;
      }
      var lease := leases[session];
      var key := GateKey(session, lease.action);
      var record := GateForAction(store.gates, key);
      if record.None? || !Waiting(record.value.state) {
        leases := leases - {session};
        return;
      }
      if !lease.delivered {
        return;
      }
      if lease.unknownEffect {
        store.NoteControllerProbe(key, ADAPTER_PROBE, input.now);
        store.SetGateResolution(key, Quarantined, QuarantineBranch, input.now);
        MarkTerminalTurn(lease.terminalKey, input.turnVictim);
      } else if lease.target.Some? {
        store.NoteControllerProbe(key, METADATA_PROBE, input.now);
        match input.outcome {
          case Present =>
            store.SetGateResolution(key, RejectedPresent, GateDecision.Deny, input.now);
          case Absent =>
            store.NoteControllerProbe(key, NAMESPACE_PROBE, input.now);
            store.AdmitAbsenceToGate(key, input.now);
          case Unavailable =>
            store.NoteControllerProbe(key, NAMESPACE_PROBE, input.now);
            store.SetGateResolution(key, Quarantined, QuarantineBranch, input.now);
            MarkTerminalTurn(lease.terminalKey, input.turnVictim);
        }
      } else {
        store.SetGateResolution(key, Quarantined, QuarantineBranch, input.now);
        MarkTerminalTurn(lease.terminalKey, input.turnVictim);
      }
      leases := leases - {session};
    }

    method Reconcile(p: PreInput, coverage: CoverageStatus, locator: Option<string>, obligations: seq<string>)
      returns (result: PolicyResult)
      modifies store
      ensures (store.gates, result) == Reconciled(old(store.gates), p, coverage, locator, obligations)
    {
      var guess := Provisional(store.gates, p, coverage);
      var record := store.RecordGate(LeaseKey(p), p.native, locator, guess.state, guess.decision, obligations, p.now);
      result := Final(p, coverage, record);
      if record.state != result.state || record.decision != result.decision {
        store.SetGateResolution(record.key, result.state, result.decision, p.now);
      }
    }

    method EvaluateLease(p: PreInput, coverage: CoverageStatus, locator: Option<string>, obligations: seq<string>)
      returns (reply: Option<Reply>)
      modifies this, store
      ensures View() == Evaluated(old(View()), p, coverage, locator, obligations).after
      ensures reply == Evaluated(old(View()), p, coverage, locator, obligations).reply
    {
      var result := Reconcile(p, coverage, locator, obligations);
      if Awaits(p, result) {
        var lease := ProbeLease(p.target, LeaseKey(p).action, p.turn, false, p.effect == Unknown);
        RegisterRobotProbe(p.session, lease, p.leaseVictim);
      } else if p.mode == Robot && result.state == Quarantined {
        MarkTerminalTurn(p.turn, p.turnVictim);
      }
      reply := ReplyOf(result);
    }

    method PreTool(p: PreInput) returns (reply: Option<Reply>)
      modifies this, store
      ensures View() == PreToolled(old(View()), p).after
      ensures reply == PreToolled(old(View()), p).reply
    {
      if !p.enabled || p.controlPlane {
        return None;
      }
      if p.mode == Robot {
        AdvanceRobotProbe(p.session, p.probe);
      }
      if p.shadowed {
        return None;
      }
      if p.mode == Robot && p.effect != ReadOnly && p.turn in terminal {
        return Some(Reply(HookDeny, Quarantined));
      }
      if p.target.None? || (p.effect != Unknown && (p.snapshot.None? || !p.contract)) {
        return None;
      }
      var key := LeaseKey(p);
      var previous := GateForAction(store.gates, key);
      var sticky := StickyResolution(p.mode, previous);
      if sticky.Some? {
        if p.mode == Robot && sticky.value.state == Quarantined {
          MarkTerminalTurn(p.turn, p.turnVictim);
        }
        return ReplyOf(sticky.value);
      }
      if p.effect == Unknown {
        reply := EvaluateLease(p, Missing, None, []);
        return;
      }
      var locator := Some(p.snapshot.value.locator);
      match PlanCoverage(p.snapshot.value.coverage, previous) {
        case ClearOnce =>
          var _ := store.RecordGate(key, p.native, locator, ClearedAbsent, DeferToBase, [], p.now);
          return None;
        case Evaluate(coverage) =>
          if p.proof.None? {
            return None;
          }
          reply := EvaluateLease(p, coverage, locator, p.proof.value);
      }
    }

    method PostTool(q: PostInput)
      modifies this, store
      ensures View() == PostToolled(old(View()), q)
    {
      if !q.enabled || q.controlPlane || q.shadowed || q.target.None? {
        return;
      }
      store.NotePostTool(q.session, q.effect, q.material, q.locator, q.now);
      if q.effect == ReadOnly && q.absenceAdmitted {
        store.AdmitAbsenceToLatestGate(q.session, q.now);
      }
      AdvanceRobotProbe(q.session, q.probe);
    }
  }
}
