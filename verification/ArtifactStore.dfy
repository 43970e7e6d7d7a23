/** The persistent list of gate records, and every operation that rewrites it.

    Each operation comes twice: as a method of the class `Store`, which edits the list in place the
    way the program does between a load and a save, and as a function on the list of records, which
    is what the laws in `GateLaws` and `GateRuns` talk about. */
module ArtifactStore {
  import opened GateTypes

  const GATE_CAP := 128
  const GATE_TTL_SECS := 30 * 60

  datatype GateRecord = GateRecord(
    key: GateKey,
    locator: Option<string>,
    state: GateState,
    decision: GateDecision,
    attempts: nat,
    probeSteps: nat,
    clearanceConsumed: bool,
    probes: seq<string>,
    natives: seq<string>,
    notified: bool,
    obligations: seq<string>,
    openedAt: int,
    updatedAt: int)

  // ---------- Searching ----------

  /** The first record with this key, or -1. */
  function Position(gates: seq<GateRecord>, key: GateKey): (i: int)
    ensures -1 <= i < |gates|
    ensures i >= 0 ==> gates[i].key == key && forall j :: 0 <= j < i ==> gates[j].key != key
    ensures i < 0 ==> forall j :: 0 <= j < |gates| ==> gates[j].key != key
  {
    if gates == [] then -1
    else
      var front := gates[..|gates| - 1];
      var r := Position(front, key);
      assert forall j :: 0 <= j < |front| ==> front[j] == gates[j];
      if r >= 0 then r
      else if gates[|gates| - 1].key == key then |gates| - 1
      else -1
  }

  /** The last record with this key, or -1. */
  function LastPosition(gates: seq<GateRecord>, key: GateKey): (i: int)
    ensures -1 <= i < |gates|
    ensures i >= 0 ==> gates[i].key == key && forall j :: i < j < |gates| ==> gates[j].key != key
    ensures i < 0 ==> forall j :: 0 <= j < |gates| ==> gates[j].key != key
  {
    if gates == [] then -1
    else if gates[|gates| - 1].key == key then |gates| - 1
    else
      var front := gates[..|gates| - 1];
      assert forall j :: 0 <= j < |front| ==> front[j] == gates[j];
      LastPosition(front, key)
  }

  /** The last record of this session, or -1. */
  function LastOfSession(gates: seq<GateRecord>, session: string): (i: int)
    ensures -1 <= i < |gates|
    ensures i >= 0 ==> gates[i].key.session == session
                       && forall j :: i < j < |gates| ==> gates[j].key.session != session
    ensures i < 0 ==> forall j :: 0 <= j < |gates| ==> gates[j].key.session != session
  {
    if gates == [] then -1
    else if gates[|gates| - 1].key.session == session then |gates| - 1
    else
      var front := gates[..|gates| - 1];
      assert forall j :: 0 <= j < |front| ==> front[j] == gates[j];
      LastOfSession(front, session)
  }

  /** The last waiting record of this session, or -1. */
  function LastWaiting(gates: seq<GateRecord>, session: string): (i: int)
    ensures -1 <= i < |gates|
    ensures i >= 0 ==> gates[i].key.session == session && Waiting(gates[i].state)
                       && forall j :: i < j < |gates| ==> !(gates[j].key.session == session && Waiting(gates[j].state))
    ensures i < 0 ==> forall j :: 0 <= j < |gates| ==> !(gates[j].key.session == session && Waiting(gates[j].state))
  {
    if gates == [] then -1
    else if gates[|gates| - 1].key.session == session && Waiting(gates[|gates| - 1].state) then |gates| - 1
    else
      var front := gates[..|gates| - 1];
      assert forall j :: 0 <= j < |front| ==> front[j] == gates[j];
      LastWaiting(front, session)
  }

  /** What the hook sees of a lease: the last record with its key. */
  function GateForAction(gates: seq<GateRecord>, key: GateKey): Option<GateRecord> {
    var i := LastPosition(gates, key);
    if i >= 0 then Some(gates[i]) else None
  }

  // ---------- Recording an evaluation or a clearance ----------

  function OpenedGate(key: GateKey, native: string, locator: Option<string>, state: GateState,
                      decision: GateDecision, obligations: seq<string>, now: int): GateRecord
  {
    GateRecord(key, locator, state, decision, 1, 0, state == ClearedAbsent, [], [native], false, obligations, now, now)
  }

  function RetriedGate(g: GateRecord, native: string, state: GateState, decision: GateDecision,
                       obligations: seq<string>, now: int): GateRecord
  {
    g.(state := state,
       decision := decision,
       clearanceConsumed := g.clearanceConsumed || state == ClearedAbsent,
       attempts := if native in g.natives then g.attempts else Min(255, g.attempts + 1),
       natives := if native in g.natives then g.natives else g.natives + [native],
       obligations := obligations,
       updatedAt := now)
  }

  function Trimmed(gates: seq<GateRecord>): seq<GateRecord> {
    if |gates| > GATE_CAP then gates[|gates| - GATE_CAP..] else gates
  }

  predicate Overdue(g: GateRecord, now: int) {
    Waiting(g.state) && now - g.updatedAt >= GATE_TTL_SECS
  }

  function ExpiredGate(g: GateRecord, now: int): GateRecord {
    if Overdue(g, now) then g.(state := Stale, updatedAt := now) else g
  }

  function Expired(gates: seq<GateRecord>, now: int): seq<GateRecord> {
    seq(|gates|, i requires 0 <= i < |gates| => ExpiredGate(gates[i], now))
  }

  /** The record `record_gate` hands back to its caller. */
  function RecordedGate(gates: seq<GateRecord>, key: GateKey, native: string, locator: Option<string>,
                        state: GateState, decision: GateDecision, obligations: seq<string>, now: int): GateRecord
  {
    var i := Position(gates, key);
    if i >= 0 then RetriedGate(gates[i], native, state, decision, obligations, now)
    else OpenedGate(key, native, locator, state, decision, obligations, now)
  }

  /** The list `record_gate` saves. */
  function Recorded(gates: seq<GateRecord>, key: GateKey, native: string, locator: Option<string>,
                    state: GateState, decision: GateDecision, obligations: seq<string>, now: int): seq<GateRecord>
  {
    var i := Position(gates, key);
    var g := RecordedGate(gates, key, native, locator, state, decision, obligations, now);
    Expired(Trimmed(if i >= 0 then gates[i := g] else gates + [g]), now)
  }

  // ---------- The other transitions ----------

  function PostToolGate(g: GateRecord, effect: ToolEffect, signature: string, locator: Option<string>, now: int): GateRecord {
    (match effect
     case ReadOnly =>
       if signature in g.probes then g
       else g.(probes := g.probes + [signature], probeSteps := Min(3, g.probeSteps + 1),
               state := TargetProbe, notified := false)
     case Mutation(_) =>
       if g.locator == locator then g.(state := Stale, notified := false) else g
     case ExternalSideEffect => g
     case Unknown => g).(updatedAt := now)
  }

  function PostToolNoted(gates: seq<GateRecord>, session: string, effect: ToolEffect, signature: string,
                         locator: Option<string>, now: int): seq<GateRecord>
  {
    var i := LastWaiting(gates, session);
    if i >= 0 then gates[i := PostToolGate(gates[i], effect, signature, locator, now)] else gates
  }

  function ProbedGate(g: GateRecord, signature: string, now: int): GateRecord {
    g.(probes := if signature in g.probes then g.probes else g.probes + [signature],
       probeSteps := if signature in g.probes then g.probeSteps else Min(3, g.probeSteps + 1),
       state := ControllerProbe, notified := false, updatedAt := now)
  }

  function ControllerProbed(gates: seq<GateRecord>, key: GateKey, signature: string, now: int): seq<GateRecord> {
    var i := Position(gates, key);
    if i >= 0 then gates[i := ProbedGate(gates[i], signature, now)] else gates
  }

  function ResolvedGate(g: GateRecord, state: GateState, decision: GateDecision, now: int): GateRecord {
    g.(state := state, decision := decision, updatedAt := now,
       notified := g.notified && g.state == state && g.decision == decision)
  }

  function Resolved(gates: seq<GateRecord>, key: GateKey, state: GateState, decision: GateDecision, now: int): seq<GateRecord> {
    var i := Position(gates, key);
    if i >= 0 then gates[i := ResolvedGate(gates[i], state, decision, now)] else gates
  }

  function AdmittedGate(g: GateRecord, now: int): GateRecord {
    g.(state := ClearedAbsent, decision := DeferToBase, clearanceConsumed := false, notified := false, updatedAt := now)
  }

  function AbsenceAdmitted(gates: seq<GateRecord>, key: GateKey, now: int): seq<GateRecord> {
    var i := Position(gates, key);
    if i >= 0 then gates[i := AdmittedGate(gates[i], now)] else gates
  }

  function AbsenceAdmittedToLatest(gates: seq<GateRecord>, session: string, now: int): seq<GateRecord> {
    var i := LastWaiting(gates, session);
    if i >= 0 then gates[i := AdmittedGate(gates[i], now)] else gates
  }

  function ReplanDelivered(gates: seq<GateRecord>, session: string, now: int): seq<GateRecord> {
    var i := LastOfSession(gates, session);
    if i >= 0 && gates[i].state == RejectedPresent
    then gates[i := gates[i].(state := Replanning, decision := AutonomousResolve, updatedAt := now)]
    else gates
  }

  // ---------- The supervisor's view ----------

  datatype Control = Control(active: bool, terminal: bool, directive: bool, probeSteps: nat, state: Option<GateState>)

  predicate OutOfBudget(g: GateRecord) {
    Waiting(g.state) && (g.probeSteps >= 3 || g.attempts > 3)
  }

  function BudgetedGate(g: GateRecord): GateRecord {
    if OutOfBudget(g) then g.(state := Quarantined, decision := QuarantineBranch, notified := false) else g
  }

  predicate Active(state: GateState) {
    state == Quarantined || state == RejectedPresent || Waiting(state)
  }

  function ControlOf(gates: seq<GateRecord>, session: string): Control {
    var i := LastOfSession(gates, session);
    if i < 0 then Control(false, false, false, 0, None)
    else
      var g := BudgetedGate(gates[i]);
      Control(Active(g.state), g.state == Quarantined, Active(g.state) && !g.notified, g.probeSteps, Some(g.state))
  }

  function Controlled(gates: seq<GateRecord>, session: string, now: int): seq<GateRecord> {
    var i := LastOfSession(gates, session);
    if i >= 0 && ControlOf(gates, session).directive
    then gates[i := BudgetedGate(gates[i]).(notified := true, updatedAt := now)]
    else gates
  }

  // ---------- The store itself ----------

  lemma ResolvedInSteps(g: GateRecord, h: GateRecord, state: GateState, decision: GateDecision, now: int)
    requires h == if g.state != state || g.decision != decision
                  then g.(state := state, decision := decision).(notified := false).(updatedAt := now)
                  else g.(state := state, decision := decision).(updatedAt := now)
    ensures h == ResolvedGate(g, state, decision, now)
  {
  }

  lemma RetriedInSteps(g: GateRecord, h: GateRecord, native: string, state: GateState, decision: GateDecision,
                       obligations: seq<string>, now: int)
    requires h.key == g.key && h.locator == g.locator && h.state == state && h.decision == decision
    requires h.probeSteps == g.probeSteps && h.probes == g.probes && h.notified == g.notified
    requires h.clearanceConsumed == (g.clearanceConsumed || state == ClearedAbsent)
    requires h.attempts == if native in g.natives then g.attempts else Min(255, g.attempts + 1)
    requires h.natives == if native in g.natives then g.natives else g.natives + [native]
    requires h.obligations == obligations && h.openedAt == g.openedAt && h.updatedAt == now
    ensures h == RetriedGate(g, native, state, decision, obligations, now)
  {
  }

  class Store {
    var gates: seq<GateRecord>

    constructor ()
      ensures gates == []
    {
      gates := [];
    }

    method ExpireStaleGates(now: int)
      modifies this
      ensures gates == Expired(old(gates), now)
    {
      for i := 0 to |gates|
        invariant |gates| == |old(gates)|
        invariant forall j :: 0 <= j < i ==> gates[j] == ExpiredGate(old(gates)[j], now)
        invariant forall j :: i <= j < |gates| ==> gates[j] == old(gates)[j]
      {
        var gate := gates[i];
        if Waiting(gate.state) && now - gate.updatedAt >= GATE_TTL_SECS {
          gates := gates[i := gate.(state := Stale, updatedAt := now)];
        }
      }
    }

    method RecordGate(key: GateKey, native: string, locator: Option<string>, state: GateState,
                      decision: GateDecision, obligations: seq<string>, now: int)
      returns (record: GateRecord)
      modifies this
      ensures record == RecordedGate(old(gates), key, native, locator, state, decision, obligations, now)
      ensures gates == Recorded(old(gates), key, native, locator, state, decision, obligations, now)
    {
      var i := Position(gates, key);
      if i >= 0 {
        record := gates[i];
        record := record.(state := state, decision := decision);
        if state == ClearedAbsent {
          record := record.(clearanceConsumed := true);
        }
        record := record.(updatedAt := now);
        if native !in record.natives {
          record := record.(attempts := Min(255, record.attempts + 1));
          record := record.(natives := record.natives + [native]);
        }
        record := record.(obligations := obligations);
        RetriedInSteps(gates[i], record, native, state, decision, obligations, now);
        gates := gates[i := record];
      } else {
        record := OpenedGate(key, native, locator, state, decision, obligations, now);
        gates := gates + [record];
      }
      if |gates| > GATE_CAP {
        gates := gates[|gates| - GATE_CAP..];
      }
      ExpireStaleGates(now);
    }

    method NotePostTool(session: string, effect: ToolEffect, signature: string, locator: Option<string>, now: int)
      modifies this
      ensures gates == PostToolNoted(old(gates), session, effect, signature, locator, now)
    {
      var i := LastWaiting(gates, session);
      if i < 0 {
        return;
      }
      var gate := gates[i];
      match effect {
        case ReadOnly =>
          if signature !in gate.probes {
            gate := gate.(probes := gate.probes + [signature]);
            gate := gate.(probeSteps := Min(3, gate.probeSteps + 1), state := TargetProbe, notified := false);
          }
        case Mutation(_) =>
          if gate.locator == locator {
            gate := gate.(state := Stale, notified := false);
          }
        case ExternalSideEffect =>
        case Unknown =>
      }
      gates := gates[i := gate.(updatedAt := now)];
    }

    method NoteControllerProbe(key: GateKey, signature: string, now: int)
      modifies this
      ensures gates == ControllerProbed(old(gates), key, signature, now)
    {
      var i := Position(gates, key);
      if i < 0 {
        return;
      }
      var gate := gates[i];
      if signature !in gate.probes {
        gate := gate.(probes := gate.probes + [signature]);
        gate := gate.(probeSteps := Min(3, gate.probeSteps + 1));
      }
      gates := gates[i := gate.(state := ControllerProbe, notified := false, updatedAt := now)];
    }

    method SetGateResolution(key: GateKey, state: GateState, decision: GateDecision, now: int)
      modifies this
      ensures gates == Resolved(old(gates), key, state, decision, now)
    {
      var i := Position(gates, key);
      if i < 0 {
        return;
      }
      var changed := gates[i].state != state || gates[i].decision != decision;
      var gate := gates[i].(state := state, decision := decision);
      if changed {
        gate := gate.(notified := false);
      }
      gate := gate.(updatedAt := now);
      ResolvedInSteps(gates[i], gate, state, decision, now);
      gates := gates[i := gate];
    }

    method AdmitAbsenceToGate(key: GateKey, now: int)
      modifies this
      ensures gates == AbsenceAdmitted(old(gates), key, now)
    {
      var i := Position(gates, key);
      if i >= 0 {
        gates := gates[i := AdmittedGate(gates[i], now)];
      }
    }

    method AdmitAbsenceToLatestGate(session: string, now: int)
      modifies this
      ensures gates == AbsenceAdmittedToLatest(old(gates), session, now)
    {
      var i := LastWaiting(gates, session);
      if i >= 0 {
        gates := gates[i := AdmittedGate(gates[i], now)];
      }
    }

    method MarkReplanDelivered(session: string, now: int)
      modifies this
      ensures gates == ReplanDelivered(old(gates), session, now)
    {
      var i := LastOfSession(gates, session);
      if i >= 0 && gates[i].state == RejectedPresent {
        gates := gates[i := gates[i].(state := Replanning, decision := AutonomousResolve, updatedAt := now)];
      }
    }

    method RobotGateControl(session: string, now: int) returns (control: Control)
      modifies this
      ensures control == ControlOf(old(gates), session)
      ensures gates == Controlled(old(gates), session, now)
    {
      var i := LastOfSession(gates, session);
      if i < 0 {
        return Control(false, false, false, 0, None);
      }
      var gate := gates[i];
      if Waiting(gate.state) && (gate.probeSteps >= 3 || gate.attempts > 3) {
        gate := gate.(state := Quarantined, decision := QuarantineBranch, notified := false);
      }
      var active := Active(gate.state);
      var directive := active && !gate.notified;
      control := Control(active, gate.state == Quarantined, directive, gate.probeSteps, Some(gate.state));
      if directive {
        gate := gate.(notified := true, updatedAt := now);
        gates := gates[i := gate];
      }
    }
  }
}
