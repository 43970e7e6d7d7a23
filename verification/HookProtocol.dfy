/** The whole hook protocol: de-duplication, the leader's decision, and the human it may be forwarded
    to, under every interleaving of arrivals, decisions, answers, timeouts and clock ticks. A leader
    is never aborted. */
module HookProtocol {
  import opened HookPolicy
  import opened HookDedup

  /** Where a leader stands. `Answered` holds an answer delivered but not yet collected; a leader that
      has timed out no longer listens, though its request may still be on the table. */
  datatype Phase =
    | Deciding
    | Awaiting(req: nat)
    | Answered(req: nat, allow: bool)
    | TimedOut(req: nat)
    | Ready(decision: Decision)

  /** The leaders' phases, the requests on the table, the id counter, and a record of which request
      each leader forwarded and which answers were delivered. */
  datatype Desk = Desk(phases: map<nat, Phase>, pending: map<nat, nat>, nextRequest: nat,
                       forwarded: map<nat, nat>, approvals: map<nat, bool>)

  // ---------- The desk ----------

  function Seated(d: Desk, leader: nat): Desk {
    d.(phases := d.phases[leader := Deciding])
  }

  function Decides(d: Desk, leader: nat, call: HookCall): Desk {
    match DecideOnce(call)
    case Final(decision) => d.(phases := d.phases[leader := Ready(decision)])
    case Forward =>
      Desk(d.phases[leader := Awaiting(d.nextRequest)], d.pending[d.nextRequest := leader], d.nextRequest + 1,
           d.forwarded[leader := d.nextRequest], d.approvals)
  }

  /** `resolve` finds the request on the table and the leader still listening. */
  predicate Delivers(d: Desk, req: nat) {
    req in d.pending && d.pending[req] in d.phases && d.phases[d.pending[req]] == Awaiting(req)
  }

  /** `resolve` takes the request off the table; its answer reaches only a leader that still listens. */
  function Resolves(d: Desk, req: nat, allow: bool): Desk {
    if Delivers(d, req)
    then d.(pending := d.pending - {req}, phases := d.phases[d.pending[req] := Answered(req, allow)],
            approvals := d.approvals[req := allow])
    else d.(pending := d.pending - {req})
  }

  function Collects(d: Desk, leader: nat): Desk
    requires leader in d.phases && d.phases[leader].Answered?
  {
    d.(phases := d.phases[leader := Ready(if d.phases[leader].allow then Allow else Decision.Deny)])
  }

  /** The timeout; it can still win over an answer that was delivered at the last moment. */
  function Expires(d: Desk, leader: nat): Desk
    requires leader in d.phases && (d.phases[leader].Awaiting? || d.phases[leader].Answered?)
  {
    d.(phases := d.phases[leader := TimedOut(d.phases[leader].req)])
  }

  function Withdraws(d: Desk, leader: nat): Desk
    requires leader in d.phases && d.phases[leader].TimedOut?
  {
    d.(phases := d.phases[leader := Ready(Ask)], pending := d.pending - {d.phases[leader].req})
  }

  function Leaves(d: Desk, leader: nat): Desk {
    d.(phases := d.phases - {leader})
  }

  // ---------- The desk's invariant ----------

  ghost predicate ApprovedBy(d: Desk, leader: nat) {
    leader in d.forwarded && d.forwarded[leader] in d.approvals && d.approvals[d.forwarded[leader]]
  }

  ghost predicate PhaseOk(d: Desk, leader: nat) {
    leader in d.phases ==>
      match d.phases[leader]
      case Deciding => leader !in d.forwarded
      case Awaiting(req) => leader in d.forwarded && d.forwarded[leader] == req && req !in d.approvals
      case TimedOut(req) => leader in d.forwarded && d.forwarded[leader] == req
      case Answered(req, allow) =>
        leader in d.forwarded && d.forwarded[leader] == req && req in d.approvals && d.approvals[req] == allow
      case Ready(decision) => decision == Allow ==> ApprovedBy(d, leader)
  }

  /** Request ids are never reused, and a leader is ready to allow only on its own delivered approval. */
  ghost predicate DeskOk(d: Desk) {
    && (forall l :: PhaseOk(d, l))
    && (forall l :: l in d.forwarded ==> d.forwarded[l] < d.nextRequest)
    && (forall l, m :: l in d.forwarded && m in d.forwarded && l != m ==> d.forwarded[l] != d.forwarded[m])
    && (forall req :: req in d.pending ==>
          req < d.nextRequest && d.pending[req] in d.forwarded && d.forwarded[d.pending[req]] == req)
    && (forall req :: req in d.approvals ==> req < d.nextRequest)
  }

  lemma DecidesKeeps(d: Desk, leader: nat, call: HookCall)
    requires DeskOk(d) && leader in d.phases && d.phases[leader].Deciding?
    ensures DeskOk(Decides(d, leader, call))
  {
    NeverAllowsAlone(call);
    assert PhaseOk(d, leader);
    forall l ensures PhaseOk(Decides(d, leader, call), l) { assert PhaseOk(d, l); }
  }

  lemma ResolvesKeeps(d: Desk, req: nat, allow: bool)
    requires DeskOk(d)
    ensures DeskOk(Resolves(d, req, allow))
    ensures forall l :: ApprovedBy(d, l) ==> ApprovedBy(Resolves(d, req, allow), l)
  {
    if Delivers(d, req) {
      assert PhaseOk(d, d.pending[req]);
    }
    forall l ensures PhaseOk(Resolves(d, req, allow), l) { assert PhaseOk(d, l); }
  }

  lemma MovesKeep(d: Desk, leader: nat)
    requires DeskOk(d) && leader in d.phases
    ensures d.phases[leader].Answered? ==> DeskOk(Collects(d, leader))
    ensures d.phases[leader].Awaiting? || d.phases[leader].Answered? ==> DeskOk(Expires(d, leader))
    ensures d.phases[leader].TimedOut? ==> DeskOk(Withdraws(d, leader))
    ensures DeskOk(Leaves(d, leader))
  {
    assert PhaseOk(d, leader);
    if d.phases[leader].Answered? {
      forall l ensures PhaseOk(Collects(d, leader), l) { assert PhaseOk(d, l); }
    }
    if d.phases[leader].Awaiting? || d.phases[leader].Answered? {
      forall l ensures PhaseOk(Expires(d, leader), l) { assert PhaseOk(d, l); }
    }
    if d.phases[leader].TimedOut? {
      forall l ensures PhaseOk(Withdraws(d, leader), l) { assert PhaseOk(d, l); }
    }
    forall l ensures PhaseOk(Leaves(d, leader), l) { assert PhaseOk(d, l); }
  }

  lemma SeatedKeeps(d: Desk, leader: nat)
    requires DeskOk(d) && leader !in d.forwarded
    ensures DeskOk(Seated(d, leader))
  {
    forall l ensures PhaseOk(Seated(d, leader), l) { assert PhaseOk(d, l); }
  }

  // ---------- The protocol ----------

  datatype Protocol = Protocol(now: int, hooks: Sys, desk: Desk)

  datatype Step =
    | Arrive(caller: nat, id: string)
    | Decide(caller: nat, call: HookCall)
    | Resolve(req: nat, allow: bool)
    | Collect(caller: nat)
    | Expire(caller: nat)
    | Withdraw(caller: nat)
    | Finish(caller: nat)
    | Tick(to: int)

  ghost predicate AtPhase(s: Protocol, step: Step)
    requires !step.Resolve? && !step.Tick?
  {
    step.caller in s.desk.phases
    && match s.desk.phases[step.caller]
       case Deciding => step.Decide?
       case Awaiting(_) => step.Expire?
       case Answered(_, _) => step.Collect? || step.Expire?
       case TimedOut(_) => step.Withdraw?
       case Ready(_) => step.Finish?
  }

  ghost predicate Enabled(s: Protocol, step: Step) {
    match step
    case Arrive(caller, _) => caller !in s.hooks.identity
    case Resolve(_, _) => true
    case Tick(to) => s.now <= to
    case _ => AtPhase(s, step)
  }

  ghost predicate TableKnown(s: Protocol) {
    forall i :: i in s.hooks.table ==> i in s.hooks.current
  }

  ghost predicate LeadersKnown(s: Protocol) {
    s.desk.phases.Keys == s.hooks.leading && forall l :: l in s.hooks.leading ==> l in s.hooks.identity
  }

  function Arriving(s: Protocol, caller: nat, id: string): Protocol
    requires TableKnown(s)
  {
    var hooks := Arrives(s.hooks, caller, id, s.now);
    s.(hooks := hooks, desk := if caller in hooks.leading then Seated(s.desk, caller) else s.desk)
  }

  function Finishing(s: Protocol, caller: nat): Protocol
    requires caller in s.hooks.identity && caller in s.desk.phases && s.desk.phases[caller].Ready?
  {
    s.(hooks := Finishes(s.hooks, caller, s.desk.phases[caller].decision, s.now), desk := Leaves(s.desk, caller))
  }

  ghost function Next(s: Protocol, step: Step): Protocol
    requires Enabled(s, step) && TableKnown(s) && LeadersKnown(s)
  {
    match step
    case Arrive(caller, id) => Arriving(s, caller, id)
    case Decide(caller, call) => s.(desk := Decides(s.desk, caller, call))
    case Resolve(req, allow) => s.(desk := Resolves(s.desk, req, allow))
    case Collect(caller) => s.(desk := Collects(s.desk, caller))
    case Expire(caller) => s.(desk := Expires(s.desk, caller))
    case Withdraw(caller) => s.(desk := Withdraws(s.desk, caller))
    case Finish(caller) =>
      assert caller in s.hooks.leading;
      Finishing(s, caller)
    case Tick(to) => s.(now := to)
  }

  const Begin := Protocol(0, Start, Desk(map[], map[], 1, map[], map[]))

  /** De-duplication is in order, the desk is, its leaders are the ones leading, and every verdict to
      allow stands on its leader's approval. */
  ghost predicate ProtocolOk(s: Protocol) {
    && Inv(s.hooks, s.now) && DeskOk(s.desk)
    && s.desk.phases.Keys == s.hooks.leading
    && (forall l :: l in s.desk.forwarded ==> l in s.hooks.identity)
    && (forall l :: l in s.hooks.verdicts && s.hooks.verdicts[l].decision == Allow ==> ApprovedBy(s.desk, l))
  }

  lemma Known(s: Protocol)
    requires ProtocolOk(s)
    ensures TableKnown(s) && LeadersKnown(s)
  {
    forall i | i in s.hooks.table ensures i in s.hooks.current { assert EntryOk(s.hooks, i, s.now); }
    forall l | l in s.hooks.leading ensures l in s.hooks.identity { assert LeaderOk(s.hooks, l); }
  }

  lemma ArrivingKeeps(s: Protocol, caller: nat, id: string)
    requires ProtocolOk(s) && caller !in s.hooks.identity && TableKnown(s)
    ensures ProtocolOk(Arriving(s, caller, id))
  {
    ArrivesKeeps(s.hooks, caller, id, s.now);
    SeatedKeeps(s.desk, caller);
    assert LeaderOk(s.hooks, caller);
  }

  lemma FinishingKeeps(s: Protocol, caller: nat)
    requires ProtocolOk(s) && caller in s.hooks.identity && caller in s.desk.phases && s.desk.phases[caller].Ready?
    ensures ProtocolOk(Finishing(s, caller))
  {
    assert caller in s.hooks.leading;
    FinishesKeeps(s.hooks, caller, s.desk.phases[caller].decision, s.now);
    MovesKeep(s.desk, caller);
    assert PhaseOk(s.desk, caller);
  }

  /** A step at the desk alone. */
  lemma DeskChangeKeeps(s: Protocol, d: Desk)
    requires ProtocolOk(s) && DeskOk(d) && d.phases.Keys == s.desk.phases.Keys
    requires forall l :: l in d.forwarded ==> l in s.hooks.identity
    requires forall l :: ApprovedBy(s.desk, l) ==> ApprovedBy(d, l)
    ensures ProtocolOk(s.(desk := d))
  {
  }

  lemma DecidingKeeps(s: Protocol, leader: nat, call: HookCall)
    requires ProtocolOk(s) && leader in s.desk.phases && s.desk.phases[leader].Deciding?
    requires leader in s.hooks.identity
    ensures ProtocolOk(s.(desk := Decides(s.desk, leader, call)))
  {
    DecidesKeeps(s.desk, leader, call);
    assert PhaseOk(s.desk, leader);
    DeskChangeKeeps(s, Decides(s.desk, leader, call));
  }

  lemma ResolvingKeeps(s: Protocol, req: nat, allow: bool)
    requires ProtocolOk(s)
    ensures ProtocolOk(s.(desk := Resolves(s.desk, req, allow)))
  {
    ResolvesKeeps(s.desk, req, allow);
    DeskChangeKeeps(s, Resolves(s.desk, req, allow));
  }

  lemma MovingKeeps(s: Protocol, leader: nat)
    requires ProtocolOk(s) && leader in s.desk.phases
    ensures s.desk.phases[leader].Answered? ==> ProtocolOk(s.(desk := Collects(s.desk, leader)))
    ensures s.desk.phases[leader].Awaiting? || s.desk.phases[leader].Answered? ==>
              ProtocolOk(s.(desk := Expires(s.desk, leader)))
    ensures s.desk.phases[leader].TimedOut? ==> ProtocolOk(s.(desk := Withdraws(s.desk, leader)))
  {
    MovesKeep(s.desk, leader);
    if s.desk.phases[leader].Answered? {
      DeskChangeKeeps(s, Collects(s.desk, leader));
    }
    if s.desk.phases[leader].Awaiting? || s.desk.phases[leader].Answered? {
      DeskChangeKeeps(s, Expires(s.desk, leader));
    }
    if s.desk.phases[leader].TimedOut? {
      DeskChangeKeeps(s, Withdraws(s.desk, leader));
    }
  }

  lemma StepKeeps(s: Protocol, step: Step)
    requires ProtocolOk(s) && Enabled(s, step)
    ensures TableKnown(s) && LeadersKnown(s) && ProtocolOk(Next(s, step))
  {
    Known(s);
    match step
    case Arrive(caller, id) => ArrivingKeeps(s, caller, id);
    case Finish(caller) => assert caller in s.hooks.leading; FinishingKeeps(s, caller);
    case Tick(to) => TimePasses(s.hooks, s.now, to);
    case Resolve(req, allow) => ResolvingKeeps(s, req, allow);
    case Decide(caller, call) => assert caller in s.hooks.leading; DecidingKeeps(s, caller, call);
    case _ => MovingKeeps(s, step.caller);
  }

  // ---------- Runs ----------

  ghost predicate Moves(states: seq<Protocol>, steps: seq<Step>, i: nat)
    requires |states| == |steps| + 1 && i < |steps|
  {
    && Enabled(states[i], steps[i]) && TableKnown(states[i]) && LeadersKnown(states[i])
    && states[i + 1] == Next(states[i], steps[i])
  }

  ghost predicate IsRun(states: seq<Protocol>, steps: seq<Step>) {
    && |states| == |steps| + 1
    && states[0] == Begin
    && forall i :: 0 <= i < |steps| ==> Moves(states, steps, i)
  }

  lemma {:induction false} Reachable(states: seq<Protocol>, steps: seq<Step>, i: nat)
    requires IsRun(states, steps) && i < |states|
    ensures ProtocolOk(states[i])
  {
    if i > 0 {
      Reachable(states, steps, i - 1);
      assert Moves(states, steps, i - 1);
      StepKeeps(states[i - 1], steps[i - 1]);
    }
  }

  /** In every reachable state at most one leader runs per identity, and every caller that has arrived
      gets its leader's verdict exactly once: never before the leader finishes, and never twice. */
  lemma EveryRunServesEveryCaller(states: seq<Protocol>, steps: seq<Step>, i: nat)
    requires IsRun(states, steps) && i < |states|
    ensures SingleLeaders(states[i].hooks) && AllServed(states[i].hooks)
  {
    Reachable(states, steps, i);
    EveryCallerIsServed(states[i].hooks, states[i].now);
    OneLeaderPerIdentity(states[i].hooks, states[i].now);
  }

  /** A caller comes to lead only if its identity never had a leader, or the last one finished more
      than 130 seconds before. */
  lemma LeadersAreSpaced(states: seq<Protocol>, steps: seq<Step>, i: nat)
    requires IsRun(states, steps) && i < |steps| && steps[i].Arrive?
    requires steps[i].caller in states[i + 1].hooks.leading
    ensures var hooks := states[i].hooks;
            steps[i].id in hooks.current ==>
              var last := hooks.current[steps[i].id];
              last in hooks.verdicts && states[i].now - hooks.verdicts[last].at > 130
  {
    Reachable(states, steps, i);
    assert Moves(states, steps, i);
    NewLeaderAfterForgetting(states[i].hooks, states[i].now, steps[i].caller, steps[i].id);
  }

  /** An approval on record was delivered by a `resolve(_, true)` that found the request pending and
      its leader listening. */
  lemma {:induction false} ApprovalsAreDelivered(states: seq<Protocol>, steps: seq<Step>, i: nat, req: nat)
    requires IsRun(states, steps) && i < |states|
    requires req in states[i].desk.approvals && states[i].desk.approvals[req]
    ensures exists k :: 0 <= k < i && steps[k] == Resolve(req, true) && Delivers(states[k].desk, req)
  {
    if i > 0 {
      assert Moves(states, steps, i - 1);
      if req in states[i - 1].desk.approvals && states[i - 1].desk.approvals[req] {
        ApprovalsAreDelivered(states, steps, i - 1, req);
      } else {
        assert steps[i - 1] == Resolve(req, true);
      }
    }
  }

  /** `Allow` reaches a caller only if a human's approval was delivered under the request its leader
      forwarded, and no other leader ever forwarded that request. */
  lemma AllowComesFromApproval(states: seq<Protocol>, steps: seq<Step>, i: nat, r: nat)
    requires IsRun(states, steps) && i < |states| && r < |states[i].hooks.replies|
    requires states[i].hooks.replies[r].decision == Allow
    ensures var s := states[i];
            var caller := s.hooks.replies[r].caller;
            && caller in s.hooks.origin && s.hooks.origin[caller] in s.desk.forwarded
            && var req := s.desk.forwarded[s.hooks.origin[caller]];
            && (forall other :: other in s.desk.forwarded && s.desk.forwarded[other] == req ==> other == s.hooks.origin[caller])
            && exists k :: 0 <= k < i && steps[k] == Resolve(req, true) && Delivers(states[k].desk, req)
  {
    Reachable(states, steps, i);
    var s := states[i];
    assert ReplyOk(s.hooks, s.hooks.replies[r]);
    var leader := s.hooks.origin[s.hooks.replies[r].caller];
    assert ApprovedBy(s.desk, leader);
    ApprovalsAreDelivered(states, steps, i, s.desk.forwarded[leader]);
  }
}
