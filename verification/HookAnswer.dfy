/** What a person's answer does, and when a caller leads, follows or replays: over every run of the hook protocol. */
module HookAnswer {
  import opened GateTypes
  import opened HookPolicy
  import opened HookDedup
  import opened HookProtocol

  // ---------- One forwarded request ----------

  /** The leader has put this request before a person. */
  ghost predicate Asked(s: Protocol, leader: nat, req: nat) {
    leader in s.desk.forwarded && s.desk.forwarded[leader] == req
  }

  ghost predicate StandsAt(s: Protocol, leader: nat, phase: Phase) {
    leader in s.desk.phases && s.desk.phases[leader] == phase
  }

  /** The leader's verdict, from when it is reached on. */
  ghost predicate Settled(s: Protocol, leader: nat, d: Decision) {
    if leader in s.desk.phases then s.desk.phases[leader] == Ready(d)
    else leader in s.hooks.verdicts && s.hooks.verdicts[leader].decision == d
  }

  lemma SettledIsKnown(s: Protocol, leader: nat, d: Decision)
    requires ProtocolOk(s) && Settled(s, leader, d)
    ensures leader in s.hooks.identity
  {
    if leader in s.desk.phases {
      assert leader in s.hooks.leading;
      assert LeaderOk(s.hooks, leader);
    } else {
      assert VerdictOk(s.hooks, leader);
      assert CallerOk(s.hooks, leader);
    }
  }

  lemma SettledStays(s: Protocol, step: Step, leader: nat, d: Decision)
    requires ProtocolOk(s) && Enabled(s, step) && TableKnown(s) && LeadersKnown(s) && Settled(s, leader, d)
    ensures Settled(Next(s, step), leader, d)
  {
    SettledIsKnown(s, leader, d);
  }

  lemma {:induction false} SettledForGood(states: seq<Protocol>, steps: seq<Step>, k: nat, i: nat, leader: nat,
                                          d: Decision)
    requires IsRun(states, steps) && k <= i < |states| && Settled(states[k], leader, d)
    ensures Settled(states[i], leader, d)
  {
    if k < i {
      SettledForGood(states, steps, k, i - 1, leader, d);
      Reachable(states, steps, i - 1);
      assert Moves(states, steps, i - 1);
      SettledStays(states[i - 1], steps[i - 1], leader, d);
    }
  }

  ghost predicate ToldBy(s: Protocol, leader: nat, r: nat)
    requires r < |s.hooks.replies|
  {
    var caller := s.hooks.replies[r].caller;
    caller in s.hooks.origin && s.hooks.origin[caller] == leader
  }

  /** Everyone who depends on this leader and has a reply was told this. */
  ghost predicate AllAreTold(s: Protocol, leader: nat, d: Decision) {
    forall r: nat :: r < |s.hooks.replies| && ToldBy(s, leader, r) ==> s.hooks.replies[r].decision == d
  }

  lemma SettledIsTold(s: Protocol, leader: nat, d: Decision)
    requires ProtocolOk(s) && Settled(s, leader, d)
    ensures AllAreTold(s, leader, d)
  {
    forall r: nat | r < |s.hooks.replies| && ToldBy(s, leader, r) ensures s.hooks.replies[r].decision == d {
      assert ReplyOk(s.hooks, s.hooks.replies[r]);
      assert VerdictOk(s.hooks, leader);
    }
  }

  // ---------- What moves a leader on ----------

  /** A leader that waits has its request on the table. */
  ghost predicate OnTable(s: Protocol) {
    forall l :: l in s.desk.phases && s.desk.phases[l].Awaiting? ==>
      s.desk.phases[l].req in s.desk.pending && s.desk.pending[s.desk.phases[l].req] == l
  }

  lemma StepKeepsTable(s: Protocol, step: Step)
    requires ProtocolOk(s) && Enabled(s, step) && TableKnown(s) && LeadersKnown(s) && OnTable(s)
    ensures OnTable(Next(s, step))
  {
    forall l | l in s.desk.phases ensures PhaseOk(s.desk, l) {
    }
  }

  lemma {:induction false} WaitersAreOnTable(states: seq<Protocol>, steps: seq<Step>, i: nat)
    requires IsRun(states, steps) && i < |states|
    ensures OnTable(states[i])
  {
    if i > 0 {
      WaitersAreOnTable(states, steps, i - 1);
      Reachable(states, steps, i - 1);
      assert Moves(states, steps, i - 1);
      StepKeepsTable(states[i - 1], steps[i - 1]);
    }
  }

  /** Nothing but its own timeout and an answer to its own request moves a waiting leader on; nothing but its own
      timeout and its own collecting moves an answered one. */
  lemma LeaderMoves(s: Protocol, step: Step, leader: nat)
    requires ProtocolOk(s) && Enabled(s, step) && TableKnown(s) && LeadersKnown(s) && OnTable(s)
    requires leader in s.desk.phases
    ensures var after := Next(s, step);
            match s.desk.phases[leader]
            case Awaiting(req) =>
              if step == Expire(leader) then StandsAt(after, leader, TimedOut(req))
              else if step.Resolve? && step.req == req then StandsAt(after, leader, Answered(req, step.allow))
              else StandsAt(after, leader, Awaiting(req))
            case Answered(req, allow) =>
              if step == Expire(leader) then StandsAt(after, leader, TimedOut(req))
              else if step == Collect(leader) then StandsAt(after, leader, Ready(if allow then Allow else Decision.Deny))
              else StandsAt(after, leader, Answered(req, allow))
            case TimedOut(req) =>
              if step == Withdraw(leader) then StandsAt(after, leader, Ready(Ask))
              else StandsAt(after, leader, TimedOut(req))
            case _ => true
  {
    assert PhaseOk(s.desk, leader);
    assert leader in s.hooks.leading && LeaderOk(s.hooks, leader);
  }

  /** The leader has given up on its request. */
  ghost predicate GivenUp(s: Protocol, leader: nat, req: nat) {
    StandsAt(s, leader, TimedOut(req)) || Settled(s, leader, Ask)
  }

  lemma GivenUpStays(s: Protocol, step: Step, leader: nat, req: nat)
    requires ProtocolOk(s) && Enabled(s, step) && TableKnown(s) && LeadersKnown(s) && OnTable(s)
    requires GivenUp(s, leader, req)
    ensures GivenUp(Next(s, step), leader, req)
  {
    if StandsAt(s, leader, TimedOut(req)) {
      LeaderMoves(s, step, leader);
    } else {
      SettledStays(s, step, leader, Ask);
    }
  }

  lemma {:induction false} GivenUpForGood(states: seq<Protocol>, steps: seq<Step>, k: nat, i: nat, leader: nat, req: nat)
    requires IsRun(states, steps) && k <= i < |states| && GivenUp(states[k], leader, req)
    ensures GivenUp(states[i], leader, req)
  {
    if k < i {
      GivenUpForGood(states, steps, k, i - 1, leader, req);
      Reachable(states, steps, i - 1);
      WaitersAreOnTable(states, steps, i - 1);
      assert Moves(states, steps, i - 1);
      GivenUpStays(states[i - 1], steps[i - 1], leader, req);
    }
  }

  // ---------- The answer ----------

  ghost predicate StandsOrGivenUp(s: Protocol, leader: nat, req: nat, phase: Phase) {
    StandsAt(s, leader, phase) || GivenUp(s, leader, req)
  }

  lemma WaitingOnward(s: Protocol, step: Step, leader: nat, req: nat, phase: Phase)
    requires ProtocolOk(s) && Enabled(s, step) && TableKnown(s) && LeadersKnown(s) && OnTable(s)
    requires StandsOrGivenUp(s, leader, req, phase)
    requires phase == Awaiting(req) || (phase.Answered? && phase.req == req && step != Collect(leader))
    ensures StandsOrGivenUp(Next(s, step), leader, req,
                            if phase.Awaiting? && step.Resolve? && step.req == req then Answered(req, step.allow) else phase)
  {
    if StandsAt(s, leader, phase) {
      LeaderMoves(s, step, leader);
    } else {
      GivenUpStays(s, step, leader, req);
    }
  }

  predicate Answers(step: Step, req: nat) {
    step.Resolve? && step.req == req
  }

  lemma {:induction false} WaitsUntilAnswered(states: seq<Protocol>, steps: seq<Step>, k: nat, i: nat, leader: nat,
                                              call: HookCall, req: nat)
    requires IsRun(states, steps) && k < i < |states| && steps[k] == Decide(leader, call)
    requires DecideOnce(call) == Forward && req == states[k].desk.nextRequest
    requires forall j :: k < j < i ==> !Answers(steps[j], req)
    ensures StandsOrGivenUp(states[i], leader, req, Awaiting(req))
  {
    assert Moves(states, steps, i - 1);
    if k < i - 1 {
      WaitsUntilAnswered(states, steps, k, i - 1, leader, call, req);
      Reachable(states, steps, i - 1);
      WaitersAreOnTable(states, steps, i - 1);
      WaitingOnward(states[i - 1], steps[i - 1], leader, req, Awaiting(req));
    }
  }

  function Told(allow: bool): Decision {
    if allow then Allow else Decision.Deny
  }

  /** The answer is with the leader, or has become its verdict, or came too late. */
  ghost predicate HasAnswer(s: Protocol, leader: nat, req: nat, allow: bool) {
    StandsOrGivenUp(s, leader, req, Answered(req, allow)) || Settled(s, leader, Told(allow))
  }

  lemma AnswerStays(s: Protocol, step: Step, leader: nat, req: nat, allow: bool)
    requires ProtocolOk(s) && Enabled(s, step) && TableKnown(s) && LeadersKnown(s) && OnTable(s)
    requires HasAnswer(s, leader, req, allow)
    ensures HasAnswer(Next(s, step), leader, req, allow)
  {
    if Settled(s, leader, Told(allow)) {
      SettledStays(s, step, leader, Told(allow));
    } else if step == Collect(leader) {
      LeaderMoves(s, step, leader);
    } else {
      WaitingOnward(s, step, leader, req, Answered(req, allow));
    }
  }

  lemma {:induction false} AnswerIsKept(states: seq<Protocol>, steps: seq<Step>, k: nat, i: nat, leader: nat, req: nat,
                                        allow: bool)
    requires IsRun(states, steps) && k <= i < |states| && HasAnswer(states[k], leader, req, allow)
    ensures HasAnswer(states[i], leader, req, allow)
  {
    if k < i {
      AnswerIsKept(states, steps, k, i - 1, leader, req, allow);
      Reachable(states, steps, i - 1);
      WaitersAreOnTable(states, steps, i - 1);
      assert Moves(states, steps, i - 1);
      AnswerStays(states[i - 1], steps[i - 1], leader, req, allow);
    }
  }

  /** Over every run: if a leader's call is put before a person under a request, the first answer to that request is
      the one that counts; once the leader has collected it, everyone who depends on the leader is told Allow if it
      was an approval and Deny if not. */
  lemma AnswerReachesAll(states: seq<Protocol>, steps: seq<Step>, k: nat, a: nat, c: nat, i: nat, leader: nat,
                         call: HookCall, req: nat, allow: bool)
    requires IsRun(states, steps) && k < a < c < i < |states| && steps[k] == Decide(leader, call)
    requires DecideOnce(call) == Forward && req == states[k].desk.nextRequest
    requires steps[a] == Resolve(req, allow) && forall j :: k < j < a ==> !Answers(steps[j], req)
    requires steps[c] == Collect(leader)
    ensures AllAreTold(states[i], leader, if allow then Allow else Decision.Deny)
  {
    WaitsUntilAnswered(states, steps, k, a, leader, call, req);
    AnswerArrives(states, steps, a, leader, req, allow);
    AnswerIsKept(states, steps, a + 1, c, leader, req, allow);
    CollectedAnswerSettles(states, steps, c, leader, req, allow);
    SettledForGood(states, steps, c + 1, i, leader, Told(allow));
    Reachable(states, steps, i);
    SettledIsTold(states[i], leader, Told(allow));
  }

  lemma AnswerArrives(states: seq<Protocol>, steps: seq<Step>, a: nat, leader: nat, req: nat, allow: bool)
    requires IsRun(states, steps) && a < |steps| && steps[a] == Resolve(req, allow)
    requires StandsOrGivenUp(states[a], leader, req, Awaiting(req))
    ensures HasAnswer(states[a + 1], leader, req, allow)
  {
    Reachable(states, steps, a);
    WaitersAreOnTable(states, steps, a);
    assert Moves(states, steps, a);
    WaitingOnward(states[a], steps[a], leader, req, Awaiting(req));
  }

  lemma CollectedAnswerSettles(states: seq<Protocol>, steps: seq<Step>, c: nat, leader: nat, req: nat, allow: bool)
    requires IsRun(states, steps) && c < |steps| && steps[c] == Collect(leader)
    requires HasAnswer(states[c], leader, req, allow)
    ensures Settled(states[c + 1], leader, Told(allow))
  {
    Reachable(states, steps, c);
    WaitersAreOnTable(states, steps, c);
    assert Moves(states, steps, c);
    LeaderMoves(states[c], steps[c], leader);
  }

  /** Over every run: if a leader's wait times out, everyone who depends on it is told Ask, whatever is answered. */
  lemma TimeoutReachesAll(states: seq<Protocol>, steps: seq<Step>, k: nat, i: nat, leader: nat)
    requires IsRun(states, steps) && k < i < |states| && steps[k] == Expire(leader)
    ensures AllAreTold(states[i], leader, Ask)
  {
    Reachable(states, steps, k);
    assert Moves(states, steps, k);
    var req := states[k].desk.phases[leader].req;
    GivenUpForGood(states, steps, k + 1, i, leader, req);
    Reachable(states, steps, i);
    GivenUpIsTold(states[i], leader, req);
  }

  lemma GivenUpIsTold(s: Protocol, leader: nat, req: nat)
    requires ProtocolOk(s) && GivenUp(s, leader, req)
    ensures AllAreTold(s, leader, Ask)
  {
    if Settled(s, leader, Ask) {
      SettledIsTold(s, leader, Ask);
    } else {
      assert leader in s.hooks.leading && LeaderOk(s.hooks, leader);
      forall r: nat | r < |s.hooks.replies| ensures !ToldBy(s, leader, r) {
        assert ReplyOk(s.hooks, s.hooks.replies[r]);
      }
    }
  }

  /** Each leader's next move is open to it: to decide, to collect its answer, to withdraw after its timeout, to finish
      with its decision. */
  lemma NextMoveIsOpen(s: Protocol, leader: nat, call: HookCall)
    requires leader in s.desk.phases
    ensures Enabled(s, Decide(leader, call)) <==> s.desk.phases[leader].Deciding?
    ensures Enabled(s, Collect(leader)) <==> s.desk.phases[leader].Answered?
    ensures Enabled(s, Expire(leader)) <==> s.desk.phases[leader].Awaiting? || s.desk.phases[leader].Answered?
    ensures Enabled(s, Withdraw(leader)) <==> s.desk.phases[leader].TimedOut?
    ensures Enabled(s, Finish(leader)) <==> s.desk.phases[leader].Ready?
  {
  }

  // ---------- Why a caller was told what it was told ----------

  ghost predicate Expired(steps: seq<Step>, i: nat, leader: nat)
    requires i <= |steps|
  {
    exists k :: 0 <= k < i && steps[k] == Expire(leader)
  }

  ghost predicate AnsweredSo(steps: seq<Step>, i: nat, req: nat, allow: bool)
    requires i <= |steps|
  {
    exists k :: 0 <= k < i && steps[k] == Resolve(req, allow)
  }

  /** The answer is with the leader or has become its verdict. */
  ghost predicate GoesBy(s: Protocol, leader: nat, req: nat, allow: bool) {
    StandsAt(s, leader, Answered(req, allow)) || Settled(s, leader, Told(allow))
  }

  /** An asked leader stands where it does because of an answer to its request, or of its timeout. */
  ghost predicate Because(s: Protocol, steps: seq<Step>, i: nat, leader: nat, req: nat)
    requires i <= |steps|
  {
    || StandsAt(s, leader, Awaiting(req))
    || (GivenUp(s, leader, req) && Expired(steps, i, leader))
    || (GoesBy(s, leader, req, true) && AnsweredSo(steps, i, req, true))
    || (GoesBy(s, leader, req, false) && AnsweredSo(steps, i, req, false))
  }

  lemma ExpiredOnward(steps: seq<Step>, i: nat, leader: nat)
    requires 0 < i <= |steps|
    ensures Expired(steps, i - 1, leader) || steps[i - 1] == Expire(leader) ==> Expired(steps, i, leader)
  {
  }

  lemma AnsweredOnward(steps: seq<Step>, i: nat, req: nat, allow: bool)
    requires 0 < i <= |steps|
    ensures AnsweredSo(steps, i - 1, req, allow) || steps[i - 1] == Resolve(req, allow) ==> AnsweredSo(steps, i, req, allow)
  {
  }

  lemma AnswerOnward(s: Protocol, step: Step, leader: nat, req: nat, allow: bool)
    requires ProtocolOk(s) && Enabled(s, step) && TableKnown(s) && LeadersKnown(s) && OnTable(s)
    requires GoesBy(s, leader, req, allow)
    ensures if StandsAt(s, leader, Answered(req, allow)) && step == Expire(leader) then GivenUp(Next(s, step), leader, req)
            else GoesBy(Next(s, step), leader, req, allow)
  {
    if StandsAt(s, leader, Answered(req, allow)) {
      LeaderMoves(s, step, leader);
    } else {
      SettledStays(s, step, leader, Told(allow));
    }
  }

  lemma BecauseOnward(states: seq<Protocol>, steps: seq<Step>, i: nat, leader: nat, req: nat)
    requires IsRun(states, steps) && 0 < i < |states| && Because(states[i - 1], steps, i - 1, leader, req)
    ensures Because(states[i], steps, i, leader, req)
  {
    var s, step := states[i - 1], steps[i - 1];
    Reachable(states, steps, i - 1);
    WaitersAreOnTable(states, steps, i - 1);
    assert Moves(states, steps, i - 1);
    ExpiredOnward(steps, i, leader);
    AnsweredOnward(steps, i, req, true);
    AnsweredOnward(steps, i, req, false);
    if StandsAt(s, leader, Awaiting(req)) {
      LeaderMoves(s, step, leader);
    } else if GivenUp(s, leader, req) && Expired(steps, i - 1, leader) {
      GivenUpStays(s, step, leader, req);
    } else if GoesBy(s, leader, req, true) && AnsweredSo(steps, i - 1, req, true) {
      AnswerOnward(s, step, leader, req, true);
    } else {
      AnswerOnward(s, step, leader, req, false);
    }
  }

  lemma NewlyAsked(s: Protocol, step: Step, leader: nat, req: nat)
    requires ProtocolOk(s) && Enabled(s, step) && TableKnown(s) && LeadersKnown(s)
    requires Asked(Next(s, step), leader, req) && !Asked(s, leader, req)
    ensures StandsAt(Next(s, step), leader, Awaiting(req))
  {
    assert leader in s.desk.phases ==> PhaseOk(s.desk, leader);
  }

  lemma {:induction false} AskedForAReason(states: seq<Protocol>, steps: seq<Step>, i: nat, leader: nat, req: nat)
    requires IsRun(states, steps) && i < |states| && Asked(states[i], leader, req)
    ensures Because(states[i], steps, i, leader, req)
  {
    if i > 0 {
      Reachable(states, steps, i - 1);
      assert Moves(states, steps, i - 1);
      if Asked(states[i - 1], leader, req) {
        AskedForAReason(states, steps, i - 1, leader, req);
        BecauseOnward(states, steps, i, leader, req);
      } else {
        NewlyAsked(states[i - 1], steps[i - 1], leader, req);
      }
    }
  }

  ghost predicate OnlyAsked(s: Protocol, leader: nat, req: nat) {
    forall other :: Asked(s, other, req) ==> other == leader
  }

  /** A call that must be put before a person is: its leader waits for the answer to a request of its own. */
  lemma ForwardedCallWaits(states: seq<Protocol>, steps: seq<Step>, k: nat, leader: nat, call: HookCall)
    requires IsRun(states, steps) && k < |steps| && steps[k] == Decide(leader, call) && DecideOnce(call) == Forward
    ensures var req := states[k].desk.nextRequest;
            && Asked(states[k + 1], leader, req) && StandsAt(states[k + 1], leader, Awaiting(req))
            && OnlyAsked(states[k + 1], leader, req)
  {
    Reachable(states, steps, k);
    assert Moves(states, steps, k);
  }

  lemma {:induction false} AskedForGood(states: seq<Protocol>, steps: seq<Step>, k: nat, i: nat, leader: nat, req: nat)
    requires IsRun(states, steps) && k <= i < |states| && Asked(states[k], leader, req)
    ensures Asked(states[i], leader, req)
  {
    if k < i {
      AskedForGood(states, steps, k, i - 1, leader, req);
      Reachable(states, steps, i - 1);
      assert Moves(states, steps, i - 1);
      assert PhaseOk(states[i - 1].desk, leader);
    }
  }

  /** Over every run, whoever depends on a leader whose call was put before a person and has a reply: Allow and Deny
      come from an answer to that request, and Ask from its timeout. */
  lemma RepliesHaveReasons(states: seq<Protocol>, steps: seq<Step>, k: nat, i: nat, leader: nat, call: HookCall, r: nat)
    requires IsRun(states, steps) && k < i < |states|
    requires steps[k] == Decide(leader, call) && DecideOnce(call) == Forward
    requires r < |states[i].hooks.replies| && ToldBy(states[i], leader, r)
    ensures match states[i].hooks.replies[r].decision
            case Allow => AnsweredSo(steps, i, states[k].desk.nextRequest, true)
            case Deny => AnsweredSo(steps, i, states[k].desk.nextRequest, false)
            case Ask => Expired(steps, i, leader)
  {
    var s, req := states[i], states[k].desk.nextRequest;
    ForwardedCallWaits(states, steps, k, leader, call);
    AskedForGood(states, steps, k + 1, i, leader, req);
    AskedForAReason(states, steps, i, leader, req);
    Reachable(states, steps, i);
    assert ReplyOk(s.hooks, s.hooks.replies[r]) && VerdictOk(s.hooks, leader);
  }

  // ---------- Arrivals ----------

  /** The last caller that came to lead with this identity. */
  ghost function LastLeader(states: seq<Protocol>, steps: seq<Step>, i: nat, id: string): Option<nat>
    requires i <= |steps| < |states|
  {
    if i == 0 then None
    else if steps[i - 1].Arrive? && steps[i - 1].id == id && steps[i - 1].caller in states[i].hooks.leading
    then Some(steps[i - 1].caller)
    else LastLeader(states, steps, i - 1, id)
  }

  function CurrentOf(s: Protocol, id: string): Option<nat> {
    if id in s.hooks.current then Some(s.hooks.current[id]) else None
  }

  lemma CurrentOnward(s: Protocol, step: Step, id: string)
    requires ProtocolOk(s) && Enabled(s, step) && TableKnown(s) && LeadersKnown(s)
    ensures CurrentOf(Next(s, step), id)
         == if step.Arrive? && step.id == id && step.caller in Next(s, step).hooks.leading then Some(step.caller)
            else CurrentOf(s, id)
  {
    if step.Arrive? {
      assert LeaderOk(s.hooks, step.caller);
    }
  }

  lemma {:induction false} CurrentIsLastLeader(states: seq<Protocol>, steps: seq<Step>, i: nat, id: string)
    requires IsRun(states, steps) && i < |states|
    ensures CurrentOf(states[i], id) == LastLeader(states, steps, i, id)
  {
    if i > 0 {
      CurrentIsLastLeader(states, steps, i - 1, id);
      Reachable(states, steps, i - 1);
      assert Moves(states, steps, i - 1);
      CurrentOnward(states[i - 1], steps[i - 1], id);
    }
  }

  /** The leader's verdict, if it has finished: its decision, and when it finished. */
  ghost function Finished(states: seq<Protocol>, steps: seq<Step>, i: nat, leader: nat): Option<Verdict>
    requires i <= |steps| < |states|
  {
    if i == 0 then None
    else if steps[i - 1] == Finish(leader) && leader in states[i - 1].desk.phases
            && states[i - 1].desk.phases[leader].Ready?
    then Some(Verdict(states[i - 1].desk.phases[leader].decision, states[i - 1].now))
    else Finished(states, steps, i - 1, leader)
  }

  function VerdictOf(s: Protocol, leader: nat): Option<Verdict> {
    if leader in s.hooks.verdicts then Some(s.hooks.verdicts[leader]) else None
  }

  lemma {:induction false} VerdictIsFinished(states: seq<Protocol>, steps: seq<Step>, i: nat, leader: nat)
    requires IsRun(states, steps) && i < |states|
    ensures VerdictOf(states[i], leader) == Finished(states, steps, i, leader)
  {
    if i > 0 {
      VerdictIsFinished(states, steps, i - 1, leader);
      assert Moves(states, steps, i - 1);
    }
  }

  ghost predicate Led(after: Protocol, caller: nat) {
    caller in after.hooks.leading && StandsAt(after, caller, Deciding)
  }

  ghost predicate Followed(before: Protocol, after: Protocol, caller: nat, leader: nat) {
    && caller !in after.hooks.leading && after.hooks.replies == before.hooks.replies
    && caller in after.hooks.origin && after.hooks.origin[caller] == leader
  }

  ghost predicate Replayed(before: Protocol, after: Protocol, caller: nat, leader: nat, d: Decision) {
    && caller !in after.hooks.leading && after.hooks.replies == before.hooks.replies + [ReplySent(caller, d)]
    && caller in after.hooks.origin && after.hooks.origin[caller] == leader
  }

  lemma ArrivalIsExact(s: Protocol, caller: nat, id: string)
    requires ProtocolOk(s) && TableKnown(s) && caller !in s.hooks.identity
    ensures var t := Arriving(s, caller, id);
            var last := CurrentOf(s, id);
            if last.None? then Led(t, caller)
            else
              var v := VerdictOf(s, last.value);
              if v.None? then Followed(s, t, caller, last.value)
              else if s.now - v.value.at > 130 then Led(t, caller)
              else Replayed(s, t, caller, last.value, v.value.decision)
  {
    assert EntryOk(s.hooks, id, s.now) && LeaderOk(s.hooks, caller);
    if id in s.hooks.current {
      assert LeaderOk(s.hooks, s.hooks.current[id]) && CallerOk(s.hooks, s.hooks.current[id]);
    }
  }

  /** Over every run, for a caller that arrives: it leads if its identity never had a leader or the last one finished
      over 130 seconds ago; it follows the last one while that still runs; and it is told the last one's decision at
      once if that finished at most 130 seconds ago. */
  lemma ArrivalsAreExact(states: seq<Protocol>, steps: seq<Step>, i: nat)
    requires IsRun(states, steps) && i < |steps| && steps[i].Arrive?
    ensures var caller, now := steps[i].caller, states[i].now;
            var last := LastLeader(states, steps, i, steps[i].id);
            if last.None? then Led(states[i + 1], caller)
            else
              var v := Finished(states, steps, i, last.value);
              if v.None? then Followed(states[i], states[i + 1], caller, last.value)
              else if now - v.value.at > 130 then Led(states[i + 1], caller)
              else Replayed(states[i], states[i + 1], caller, last.value, v.value.decision)
  {
    Reachable(states, steps, i);
    assert Moves(states, steps, i);
    CurrentIsLastLeader(states, steps, i, steps[i].id);
    if CurrentOf(states[i], steps[i].id).Some? {
      VerdictIsFinished(states, steps, i, CurrentOf(states[i], steps[i].id).value);
    }
    ArrivalIsExact(states[i], steps[i].caller, steps[i].id);
  }
}
