/** What a leader's decision becomes: the one verdict that it and every caller that depends on it get. */
module HookOutcome {
  import opened GateTypes
  import GateController
  import opened HookPolicy
  import opened HookDedup
  import opened HookProtocol
  import opened HookAnswer

  /** The leader was decided without a human. */
  ghost predicate Decided(s: Protocol, leader: nat, d: Decision) {
    leader !in s.desk.forwarded && Settled(s, leader, d)
  }

  lemma {:induction false} DecidedForGood(states: seq<Protocol>, steps: seq<HookProtocol.Step>, k: nat, i: nat,
                                          leader: nat, d: Decision)
    requires IsRun(states, steps) && k <= i < |states| && Decided(states[k], leader, d)
    ensures Decided(states[i], leader, d)
  {
    SettledForGood(states, steps, k, i, leader, d);
    if k < i {
      DecidedForGood(states, steps, k, i - 1, leader, d);
      assert Moves(states, steps, i - 1);
    }
  }

  lemma FinalDecides(states: seq<Protocol>, steps: seq<HookProtocol.Step>, k: nat, leader: nat, call: HookCall,
                     d: Decision)
    requires IsRun(states, steps) && k < |steps| && steps[k] == Decide(leader, call)
    requires DecideOnce(call) == Final(d)
    ensures Decided(states[k + 1], leader, d)
  {
    Reachable(states, steps, k);
    assert Moves(states, steps, k);
    assert PhaseOk(states[k].desk, leader);
  }

  /** A leader decided without a human is never put before one, and every caller that depends on it is
      answered with exactly that decision. */
  lemma FinalDecisionReachesAll(states: seq<Protocol>, steps: seq<HookProtocol.Step>, k: nat, i: nat, leader: nat,
                                call: HookCall, d: Decision, caller: nat)
    requires IsRun(states, steps) && k < i < |states| && steps[k] == Decide(leader, call)
    requires DecideOnce(call) == Final(d)
    requires caller in states[i].hooks.origin && states[i].hooks.origin[caller] == leader
    ensures leader !in states[i].desk.forwarded
    ensures forall r :: 0 <= r < |states[i].hooks.replies| && states[i].hooks.replies[r].caller == caller ==>
              states[i].hooks.replies[r].decision == d
  {
    FinalDecides(states, steps, k, leader, call, d);
    DecidedForGood(states, steps, k + 1, i, leader, d);
    Reachable(states, steps, i);
    SettledIsTold(states[i], leader, d);
    forall r: nat | r < |states[i].hooks.replies| && states[i].hooks.replies[r].caller == caller
      ensures ToldBy(states[i], leader, r)
    {
    }
  }

  /** In every run: a dangerous call that entered as Robot, on whose way the gate did not read Auto and the danger
      policy still read Robot, is denied to everyone who asked, and no human is asked. */
  lemma DangerousRobotIsDeniedToAll(states: seq<Protocol>, steps: seq<HookProtocol.Step>, k: nat, i: nat,
                                    leader: nat, caller: nat, c: Config, p: Payload, t0: int, t1: int, t2: int,
                                    gate: Option<GateController.Reply>, reachable: bool)
    requires IsRun(states, steps) && k < i < |states|
    requires steps[k] == Decide(leader, ReadCall(c, p, t0, t2, gate, true, reachable))
    requires HookMode(c, p, t0) == Robot && GateMode(c, p, t1) != Auto && HookMode(c, p, t2) == Robot
    requires GateMayReply(gate, c, p, t1)
    requires caller in states[i].hooks.origin && states[i].hooks.origin[caller] == leader
    ensures leader !in states[i].desk.forwarded
    ensures forall r :: 0 <= r < |states[i].hooks.replies| && states[i].hooks.replies[r].caller == caller ==>
              states[i].hooks.replies[r].decision == Decision.Deny
  {
    RobotIsDeniedExactly(c, p, t0, t1, t2);
    FinalDecisionReachesAll(states, steps, k, i, leader, ReadCall(c, p, t0, t2, gate, true, reachable),
                            Decision.Deny, caller);
  }

  /** In every run: a call that is not dangerous is put before a human only if the gate asks for one; so it never is
      when the gate reads Robot, or Manual. Those who asked get the gate's denial, or the local prompt. */
  lemma HarmlessCallNeedsNoHuman(states: seq<Protocol>, steps: seq<HookProtocol.Step>, k: nat, i: nat, leader: nat,
                                 caller: nat, c: Config, p: Payload, t0: int, t1: int, t2: int,
                                 gate: Option<GateController.Reply>, reachable: bool)
    requires IsRun(states, steps) && k < i < |states|
    requires steps[k] == Decide(leader, ReadCall(c, p, t0, t2, gate, false, reachable))
    requires GateMode(c, p, t1) != Auto && GateMayReply(gate, c, p, t1)
    requires caller in states[i].hooks.origin && states[i].hooks.origin[caller] == leader
    ensures leader !in states[i].desk.forwarded
    ensures forall r :: 0 <= r < |states[i].hooks.replies| && states[i].hooks.replies[r].caller == caller ==>
              states[i].hooks.replies[r].decision == if gate.Some? then Decision.Deny else Ask
  {
    GateReplyModes(gate, GateSession(p), GateMode(c, p, t1), t1);
    FinalDecisionReachesAll(states, steps, k, i, leader, ReadCall(c, p, t0, t2, gate, false, reachable),
                            if gate.Some? then Decision.Deny else Ask, caller);
  }
}
