/** What each store operation does to each lease, for a store in good order. */
module GateLaws {
  import opened GateTypes
  import opened ArtifactStore
  import opened GateController

  // ---------- Good order ----------

  ghost predicate UniqueKeys(gates: seq<GateRecord>) {
    forall i, j :: 0 <= i < j < |gates| ==> gates[i].key != gates[j].key
  }

  /** Both budgets are exactly the capped number of distinct identities seen, and a Manual lease
      is never in a state that holds. */
  ghost predicate GoodGate(g: GateRecord) {
    && |g.natives| >= 1 && NoDuplicates(g.natives) && NoDuplicates(g.probes)
    && g.attempts == Min(255, |g.natives|)
    && g.probeSteps == Min(3, |g.probes|)
    && (g.key.action.mode == Manual ==> g.state == Advisory || g.state == ClearedAbsent)
  }

  ghost predicate Good(gates: seq<GateRecord>) {
    |gates| <= 128 && UniqueKeys(gates) && forall i :: 0 <= i < |gates| ==> GoodGate(gates[i])
  }

  // ---------- Looking up and updating ----------

  lemma Found(gates: seq<GateRecord>, i: nat)
    requires UniqueKeys(gates) && i < |gates|
    ensures Position(gates, gates[i].key) == i == LastPosition(gates, gates[i].key)
    ensures GateForAction(gates, gates[i].key) == Some(gates[i])
  {
    var p, q := Position(gates, gates[i].key), LastPosition(gates, gates[i].key);
    assert p >= 0 && q >= 0;
    assert p == i && q == i;
  }

  /** The search that reads the first record and the one that reads the last agree. */
  lemma SearchesAgree(gates: seq<GateRecord>, key: GateKey)
    requires UniqueKeys(gates)
    ensures GateForAction(gates, key) ==
            if Position(gates, key) >= 0 then Some(gates[Position(gates, key)]) else None
  {
    var p := Position(gates, key);
    if p >= 0 {
      Found(gates, p);
    }
  }

  lemma LookupUpdated(gates: seq<GateRecord>, i: nat, g: GateRecord, key: GateKey)
    requires UniqueKeys(gates) && i < |gates| && g.key == gates[i].key
    ensures GateForAction(gates[i := g], key) == if key == g.key then Some(g) else GateForAction(gates, key)
  {
    var after := gates[i := g];
    assert UniqueKeys(after);
    var q := LastPosition(gates, key);
    if key == g.key {
      Found(after, i);
    } else if q >= 0 {
      assert after[q] == gates[q];
      Found(after, q);
    } else {
      assert forall j :: 0 <= j < |after| ==> after[j].key == gates[j].key;
    }
  }

  lemma GoodUpdated(gates: seq<GateRecord>, i: nat, g: GateRecord)
    requires Good(gates) && i < |gates| && g.key == gates[i].key && GoodGate(g)
    ensures Good(gates[i := g])
  {
  }

  // ---------- Calm changes ----------

  /** A change that no evaluation and no delivered replan makes: no identity is added, no probe is forgotten, a
      settled lease stays settled, and a consumed clearance stays consumed. */
  ghost predicate Calm(g: GateRecord, h: GateRecord) {
    && g.key == h.key
    && g.natives == h.natives && g.probes <= h.probes && g.openedAt == h.openedAt
    && (g.state == Quarantined ==> h.state == Quarantined)
    && (g.state == RejectedPresent ==> h.state == RejectedPresent)
    && (g.state == ClearedAbsent && g.clearanceConsumed ==> h.state == ClearedAbsent && h.clearanceConsumed)
  }

  /** Every lease present afterwards was there before and changed calmly. */
  ghost predicate CalmStore(before: seq<GateRecord>, after: seq<GateRecord>) {
    forall key :: GateForAction(after, key).Some? ==>
      GateForAction(before, key).Some? && Calm(GateForAction(before, key).value, GateForAction(after, key).value)
  }

  ghost predicate CalmElsewhere(before: seq<GateRecord>, after: seq<GateRecord>, except: GateKey) {
    forall key :: key != except && GateForAction(after, key).Some? ==>
      GateForAction(before, key).Some? && Calm(GateForAction(before, key).value, GateForAction(after, key).value)
  }

  lemma CalmTransitive(a: seq<GateRecord>, b: seq<GateRecord>, c: seq<GateRecord>)
    requires CalmStore(a, b) && CalmStore(b, c)
    ensures CalmStore(a, c)
  {
  }

  lemma LookupKey(gates: seq<GateRecord>, key: GateKey)
    ensures GateForAction(gates, key).Some? ==> GateForAction(gates, key).value.key == key
  {
  }

  lemma CalmUpdated(gates: seq<GateRecord>, i: nat, g: GateRecord)
    requires UniqueKeys(gates) && i < |gates| && Calm(gates[i], g)
    ensures CalmStore(gates, gates[i := g])
  {
    Found(gates, i);
    forall key | GateForAction(gates[i := g], key).Some?
      ensures GateForAction(gates, key).Some?
              && Calm(GateForAction(gates, key).value, GateForAction(gates[i := g], key).value)
    {
      LookupUpdated(gates, i, g, key);
      LookupKey(gates, key);
    }
  }

  // ---------- Recording ----------

  lemma ExpiredLookup(gates: seq<GateRecord>, now: int, key: GateKey)
    requires UniqueKeys(gates)
    ensures GateForAction(gates, key).None? ==> GateForAction(Expired(gates, now), key).None?
    ensures GateForAction(gates, key).Some? ==>
              GateForAction(Expired(gates, now), key) == Some(ExpiredGate(GateForAction(gates, key).value, now))
  {
    var after := Expired(gates, now);
    assert forall j :: 0 <= j < |after| ==> after[j].key == gates[j].key;
    var q := LastPosition(gates, key);
    if q >= 0 {
      Found(after, q);
    }
  }

  lemma TrimmedLookup(gates: seq<GateRecord>, key: GateKey)
    requires UniqueKeys(gates)
    ensures UniqueKeys(Trimmed(gates))
    ensures GateForAction(Trimmed(gates), key).Some? ==> GateForAction(Trimmed(gates), key) == GateForAction(gates, key)
    ensures gates != [] && gates[|gates| - 1].key == key ==> GateForAction(Trimmed(gates), key) == Some(gates[|gates| - 1])
    ensures |gates| <= GATE_CAP ==> Trimmed(gates) == gates
  {
    var after := Trimmed(gates);
    var q := LastPosition(after, key);
    if q >= 0 {
      Found(gates, q + |gates| - |after|);
    }
  }

  /** The record list before trimming: the lease's record replaced where it stands, or appended. */
  function Listed(gates: seq<GateRecord>, record: GateRecord): seq<GateRecord> {
    var i := Position(gates, record.key);
    if i >= 0 then gates[i := record] else gates + [record]
  }

  lemma ListedLookup(gates: seq<GateRecord>, record: GateRecord, key: GateKey)
    requires UniqueKeys(gates)
    ensures UniqueKeys(Listed(gates, record))
    ensures GateForAction(Listed(gates, record), key) ==
            if key == record.key then Some(record) else GateForAction(gates, key)
  {
    var i := Position(gates, record.key);
    var listed := Listed(gates, record);
    if i >= 0 {
      LookupUpdated(gates, i, record, key);
    } else if key == record.key {
      Found(listed, |gates|);
    } else {
      var q := LastPosition(gates, key);
      if q >= 0 {
        assert listed[q] == gates[q];
        Found(listed, q);
      }
    }
  }

  lemma GoodListed(gates: seq<GateRecord>, record: GateRecord)
    requires Good(gates) && GoodGate(record)
    ensures var listed := Listed(gates, record);
            UniqueKeys(listed) && forall j :: 0 <= j < |listed| ==> GoodGate(listed[j])
    ensures |Listed(gates, record)| <= GATE_CAP || Listed(gates, record)[|Listed(gates, record)| - 1] == record
  {
  }

  /** A replayed identity leaves the attempt count alone, a new one raises it, up to the byte's cap. */
  lemma GoodRetried(g: GateRecord, native: string, state: GateState, decision: GateDecision,
                    obligations: seq<string>, now: int)
    requires GoodGate(g)
    requires g.key.action.mode == Manual ==> state == Advisory || state == ClearedAbsent
    ensures var h := RetriedGate(g, native, state, decision, obligations, now);
            GoodGate(h) && native in h.natives && g.natives <= h.natives
  {
    var h := RetriedGate(g, native, state, decision, obligations, now);
    assert native in h.natives by {
      if native !in g.natives { assert h.natives[|g.natives|] == native; }
    }
    assert NoDuplicates(h.natives);
  }

  /** The identities a lease has seen once this one has called. */
  function Joining(g: Option<GateRecord>, native: string): seq<string> {
    if g.None? then [native]
    else if native in g.value.natives then g.value.natives
    else g.value.natives + [native]
  }

  function ProbesOn(g: Option<GateRecord>): seq<string> {
    if g.Some? then g.value.probes else []
  }

  /** A lease's window runs from its first call. */
  function OpenedAt(g: Option<GateRecord>, now: int): int {
    if g.Some? then g.value.openedAt else now
  }

  lemma RetriedLaw(g: GateRecord, native: string, state: GateState, decision: GateDecision,
                   obligations: seq<string>, now: int)
    requires GoodGate(g)
    requires g.key.action.mode == Manual ==> state == Advisory || state == ClearedAbsent
    ensures RecordedAs(RetriedGate(g, native, state, decision, obligations, now), Some(g), g.key, native, state,
                       decision, now)
  {
    GoodRetried(g, native, state, decision, obligations, now);
  }

  lemma OpenedLaw(key: GateKey, native: string, locator: Option<string>, state: GateState, decision: GateDecision,
                  obligations: seq<string>, now: int)
    requires key.action.mode == Manual ==> state == Advisory || state == ClearedAbsent
    ensures RecordedAs(OpenedGate(key, native, locator, state, decision, obligations, now), None, key, native, state,
                       decision, now)
  {
  }

  /** A record that a record step makes of the one before it. */
  ghost predicate RecordedAs(record: GateRecord, before: Option<GateRecord>, key: GateKey, native: string,
                             state: GateState, decision: GateDecision, now: int)
  {
    && GoodGate(record) && record.updatedAt == now
    && record.key == key && record.state == state && record.decision == decision && native in record.natives
    && (before.Some? ==> before.value.natives <= record.natives)
    && record.natives == Joining(before, native) && record.probes == ProbesOn(before)
    && record.openedAt == OpenedAt(before, now)
    && (state == ClearedAbsent ==> record.clearanceConsumed)
  }

  lemma RecordedGateLaw(gates: seq<GateRecord>, key: GateKey, native: string, locator: Option<string>,
                        state: GateState, decision: GateDecision, obligations: seq<string>, now: int)
    requires Good(gates)
    requires key.action.mode == Manual ==> state == Advisory || state == ClearedAbsent
    ensures RecordedAs(RecordedGate(gates, key, native, locator, state, decision, obligations, now),
                       GateForAction(gates, key), key, native, state, decision, now)
  {
    SearchesAgree(gates, key);
    var i := Position(gates, key);
    if i >= 0 {
      RetriedLaw(gates[i], native, state, decision, obligations, now);
    } else {
      OpenedLaw(key, native, locator, state, decision, obligations, now);
    }
  }

  /** After a record step the store is in good order, the lease it names holds exactly the record
      returned, and every other lease left changed calmly. */
  lemma RecordLaw(gates: seq<GateRecord>, key: GateKey, native: string, locator: Option<string>,
                  state: GateState, decision: GateDecision, obligations: seq<string>, now: int)
    requires Good(gates)
    requires key.action.mode == Manual ==> state == Advisory || state == ClearedAbsent
    ensures Good(Recorded(gates, key, native, locator, state, decision, obligations, now))
    ensures GateForAction(Recorded(gates, key, native, locator, state, decision, obligations, now), key)
            == Some(RecordedGate(gates, key, native, locator, state, decision, obligations, now))
    ensures CalmElsewhere(gates, Recorded(gates, key, native, locator, state, decision, obligations, now), key)
  {
    var record := RecordedGate(gates, key, native, locator, state, decision, obligations, now);
    RecordedGateLaw(gates, key, native, locator, state, decision, obligations, now);
    ListedLaw(gates, record, now);
    assert Recorded(gates, key, native, locator, state, decision, obligations, now)
        == Settling(gates, record, now);
  }

  /** The list after trimming and expiry. */
  function Settling(gates: seq<GateRecord>, record: GateRecord, now: int): seq<GateRecord> {
    Expired(Trimmed(Listed(gates, record)), now)
  }

  lemma GoodTrimmed(gates: seq<GateRecord>, record: GateRecord)
    requires Good(gates) && GoodGate(record)
    ensures Good(Trimmed(Listed(gates, record)))
  {
    GoodListed(gates, record);
    TrimmedLookup(Listed(gates, record), record.key);
  }

  lemma TrimmedHolds(gates: seq<GateRecord>, record: GateRecord)
    requires Good(gates) && GoodGate(record)
    ensures GateForAction(Trimmed(Listed(gates, record)), record.key) == Some(record)
  {
    GoodListed(gates, record);
    ListedLookup(gates, record, record.key);
    TrimmedLookup(Listed(gates, record), record.key);
  }

  lemma SettlingHolds(gates: seq<GateRecord>, record: GateRecord, now: int)
    requires Good(gates) && GoodGate(record) && record.updatedAt == now
    ensures GateForAction(Settling(gates, record, now), record.key) == Some(record)
  {
    GoodTrimmed(gates, record);
    TrimmedHolds(gates, record);
    ExpiredLookup(Trimmed(Listed(gates, record)), now, record.key);
  }

  lemma SettlingElsewhere(gates: seq<GateRecord>, record: GateRecord, now: int, other: GateKey)
    requires Good(gates) && GoodGate(record) && other != record.key
    requires GateForAction(Settling(gates, record, now), other).Some?
    ensures GateForAction(gates, other).Some?
    ensures Calm(GateForAction(gates, other).value, GateForAction(Settling(gates, record, now), other).value)
  {
    GoodTrimmed(gates, record);
    ExpiredLookup(Trimmed(Listed(gates, record)), now, other);
    GoodListed(gates, record);
    TrimmedLookup(Listed(gates, record), other);
    ListedLookup(gates, record, other);
  }

  lemma ListedLaw(gates: seq<GateRecord>, record: GateRecord, now: int)
    requires Good(gates) && GoodGate(record) && record.updatedAt == now
    ensures Good(Settling(gates, record, now))
    ensures GateForAction(Settling(gates, record, now), record.key) == Some(record)
    ensures CalmElsewhere(gates, Settling(gates, record, now), record.key)
  {
    GoodTrimmed(gates, record);
    GoodExpired(Trimmed(Listed(gates, record)), now);
    SettlingHolds(gates, record, now);
    forall other | other != record.key && GateForAction(Settling(gates, record, now), other).Some?
      ensures GateForAction(gates, other).Some?
      ensures Calm(GateForAction(gates, other).value, GateForAction(Settling(gates, record, now), other).value)
    {
      SettlingElsewhere(gates, record, now, other);
    }
  }

  lemma GoodExpired(gates: seq<GateRecord>, now: int)
    requires Good(gates)
    ensures Good(Expired(gates, now))
  {
    var after := Expired(gates, now);
    assert forall j :: 0 <= j < |after| ==> after[j].key == gates[j].key && GoodGate(after[j]);
  }

  // ---------- Transitions guarded by their callers ----------

  /** A record a caller has checked to be waiting is not Manual's and not settled, so any state the
      operation writes over it is a calm change. */
  lemma WaitingIsFree(g: GateRecord, h: GateRecord)
    requires GoodGate(g) && Waiting(g.state)
    requires h.key == g.key && g.natives == h.natives && g.probes <= h.probes && g.openedAt == h.openedAt
    ensures Calm(g, h)
    ensures g.key.action.mode != Manual
  {
  }

  lemma GoodProbed(g: GateRecord, signature: string, now: int)
    requires GoodGate(g) && g.key.action.mode != Manual
    ensures var h := ProbedGate(g, signature, now);
            GoodGate(h) && h.key == g.key && h.natives == g.natives && g.probes <= h.probes && h.openedAt == g.openedAt
  {
  }

  lemma PostToolLaw(gates: seq<GateRecord>, session: string, effect: ToolEffect, signature: string,
                    locator: Option<string>, now: int)
    requires Good(gates)
    ensures Good(PostToolNoted(gates, session, effect, signature, locator, now))
    ensures CalmStore(gates, PostToolNoted(gates, session, effect, signature, locator, now))
  {
    var i := LastWaiting(gates, session);
    if i >= 0 {
      var g := PostToolGate(gates[i], effect, signature, locator, now);
      WaitingIsFree(gates[i], g);
      assert GoodGate(g);
      GoodUpdated(gates, i, g);
      CalmUpdated(gates, i, g);
    }
  }

  lemma LatestAbsenceLaw(gates: seq<GateRecord>, session: string, now: int)
    requires Good(gates)
    ensures Good(AbsenceAdmittedToLatest(gates, session, now))
    ensures CalmStore(gates, AbsenceAdmittedToLatest(gates, session, now))
  {
    var i := LastWaiting(gates, session);
    if i >= 0 {
      var g := AdmittedGate(gates[i], now);
      WaitingIsFree(gates[i], g);
      assert GoodGate(g);
      GoodUpdated(gates, i, g);
      CalmUpdated(gates, i, g);
    }
  }

  lemma ControlLaw(gates: seq<GateRecord>, session: string, now: int)
    requires Good(gates)
    ensures Good(Controlled(gates, session, now))
    ensures CalmStore(gates, Controlled(gates, session, now))
  {
    var i := LastOfSession(gates, session);
    if i >= 0 && ControlOf(gates, session).directive {
      var g := BudgetedGate(gates[i]).(notified := true, updatedAt := now);
      assert GoodGate(gates[i]);
      GoodUpdated(gates, i, g);
      CalmUpdated(gates, i, g);
    }
  }

  /** `note_controller_probe`, `set_gate_resolution` and `admit_absence_to_gate` write whatever they
      find. Run by `advance_robot_probe` on a lease it has seen waiting, they end in one calm change. */
  lemma SettledLaw(gates: seq<GateRecord>, key: GateKey, lease: ProbeLease, input: ProbeInput)
    requires Good(gates)
    requires GateForAction(gates, key).Some? && Waiting(GateForAction(gates, key).value.state)
    ensures Good(Settled(gates, key, lease, input).0)
    ensures CalmStore(gates, Settled(gates, key, lease, input).0)
  {
    var i := LastPosition(gates, key);
    Found(gates, i);
    var final := SettledGate(gates[i], lease, input);
    GoodSettled(gates[i], lease, input);
    SettledInPlace(gates, i, key, lease, input);
    GoodUpdated(gates, i, final);
    CalmUpdated(gates, i, final);
  }

  lemma GoodSettled(g: GateRecord, lease: ProbeLease, input: ProbeInput)
    requires GoodGate(g) && Waiting(g.state)
    ensures GoodGate(SettledGate(g, lease, input)) && Calm(g, SettledGate(g, lease, input))
  {
    var now := input.now;
    var metadata := ProbedGate(g, METADATA_PROBE, now);
    GoodProbed(g, ADAPTER_PROBE, now);
    GoodProbed(g, METADATA_PROBE, now);
    GoodProbed(metadata, NAMESPACE_PROBE, now);
    SettlesWell(g, g, lease, input);
    SettlesWell(g, ProbedGate(g, ADAPTER_PROBE, now), lease, input);
    SettlesWell(g, metadata, lease, input);
    SettlesWell(g, ProbedGate(metadata, NAMESPACE_PROBE, now), lease, input);
  }

  /** Whatever is resolved or admitted after probes on a waiting lease is a calm change of it. */
  lemma SettlesWell(g: GateRecord, probed: GateRecord, lease: ProbeLease, input: ProbeInput)
    requires GoodGate(g) && Waiting(g.state) && GoodGate(probed)
    requires probed.key == g.key && probed.natives == g.natives && g.probes <= probed.probes
    requires probed.openedAt == g.openedAt
    ensures GoodGate(AdmittedGate(probed, input.now)) && Calm(g, AdmittedGate(probed, input.now))
    ensures forall state, decision :: state == Quarantined || state == RejectedPresent ==>
              GoodGate(ResolvedGate(probed, state, decision, input.now))
              && Calm(g, ResolvedGate(probed, state, decision, input.now))
  {
  }

  /** The one record a controller probe settles, with its writes composed. */
  function SettledGate(g: GateRecord, lease: ProbeLease, input: ProbeInput): GateRecord {
    var now := input.now;
    if lease.unknownEffect then ResolvedGate(ProbedGate(g, ADAPTER_PROBE, now), Quarantined, QuarantineBranch, now)
    else if lease.target.None? then ResolvedGate(g, Quarantined, QuarantineBranch, now)
    else
      var probed := ProbedGate(g, METADATA_PROBE, now);
      match input.outcome
      case Present => ResolvedGate(probed, RejectedPresent, GateDecision.Deny, now)
      case Absent => AdmittedGate(ProbedGate(probed, NAMESPACE_PROBE, now), now)
      case Unavailable => ResolvedGate(ProbedGate(probed, NAMESPACE_PROBE, now), Quarantined, QuarantineBranch, now)
  }

  lemma SettledInPlace(gates: seq<GateRecord>, i: nat, key: GateKey, lease: ProbeLease, input: ProbeInput)
    requires UniqueKeys(gates) && i < |gates| && gates[i].key == key
    ensures Settled(gates, key, lease, input).0 == gates[i := SettledGate(gates[i], lease, input)]
  {
    var now := input.now;
    var adapter, metadata := ProbedGate(gates[i], ADAPTER_PROBE, now), ProbedGate(gates[i], METADATA_PROBE, now);
    Found(gates, i);
    Found(gates[i := adapter], i);
    Found(gates[i := metadata], i);
    Found(gates[i := ProbedGate(metadata, NAMESPACE_PROBE, now)], i);
  }
}
