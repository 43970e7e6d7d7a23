/** The hook's decision for one call that leads its identity: gate first, then the danger policy,
    then a human. The call resolves the automation mode three times, at three clock readings; the gate takes
    the session and the workspace from the payload in its own way. */
module HookPolicy {
  import opened GateTypes
  import opened ArtifactStore
  import opened GateController
  import GateLaws
  import GateRuns

  // ---------- Modes ----------

  datatype ScopeEntry = ScopeEntry(mode: Mode, expiresAt: Option<int>)

  datatype Config = Config(default: Mode, workspaces: map<string, ScopeEntry>, sessions: map<string, ScopeEntry>,
                           guardDangerous: bool)

  predicate EntryActive(e: ScopeEntry, now: int) {
    e.expiresAt.None? || e.expiresAt.value > now
  }

  function ResolveMode(c: Config, session: Option<string>, alias: string, now: int): Mode {
    if session.Some? && session.value in c.sessions && EntryActive(c.sessions[session.value], now)
    then c.sessions[session.value].mode
    else if alias in c.workspaces && EntryActive(c.workspaces[alias], now) then c.workspaces[alias].mode
    else c.default
  }

  ghost predicate ExpiresWithin(e: ScopeEntry, from: int, to: int) {
    e.expiresAt.Some? && from < e.expiresAt.value <= to
  }

  /** A mode read twice is the same mode unless an entry it depends on expired in between. */
  lemma ModeIsStable(c: Config, session: Option<string>, alias: string, from: int, to: int)
    requires from <= to
    requires session.Some? && session.value in c.sessions ==> !ExpiresWithin(c.sessions[session.value], from, to)
    requires alias in c.workspaces ==> !ExpiresWithin(c.workspaces[alias], from, to)
    ensures ResolveMode(c, session, alias, from) == ResolveMode(c, session, alias, to)
  {
  }

  // ---------- Two scopes for one payload ----------

  datatype Payload = Payload(session: Option<string>, cwd: Option<string>)

  function LastSlash(path: string): (n: nat)
    ensures n <= |path| && '/' !in path[n..] && (n > 0 ==> path[n - 1] == '/')
  {
    if path == "" then 0
    else if path[|path| - 1] == '/' then |path|
    else
      var n := LastSlash(path[..|path| - 1]);
      assert path[n..] == path[..|path| - 1][n..] + [path[|path| - 1]];
      n
  }

  /** The last component of a path, unless the path is empty, a root, or ends in `..`; separators and
      `.` components at the end do not count. */
  function FileName(path: string): Option<string> {
    if path == "" then None
    else if path[|path| - 1] == '/' then FileName(path[..|path| - 1])
    else
      var name := path[LastSlash(path)..];
      if name == "." then FileName(path[..|path| - 1])
      else if name == ".." then None
      else Some(name)
  }

  lemma LastSlashIs(dir: string, name: string)
    requires '/' !in name && (dir == "" || dir[|dir| - 1] == '/')
    ensures LastSlash(dir + name) == |dir| && (dir + name)[|dir|..] == name
  {
    var path, n := dir + name, LastSlash(dir + name);
    assert path[..|dir|] == dir && path[|dir|..] == name;
    assert forall i :: 0 <= i < |path| - n ==> path[n..][i] == path[n + i];
  }

  /** The name of a path is its last component: a slash after it does not count, nor does a `.`; after `..` there is
      none. */
  lemma FileNameIsLast(dir: string, name: string)
    requires '/' !in name && name != "" && (dir == "" || dir[|dir| - 1] == '/')
    ensures FileName(dir + name) == if name == "." then FileName(dir) else if name == ".." then None else Some(name)
    ensures FileName(dir + "/") == FileName(dir) && FileName("") == None
  {
    var path := dir + name;
    LastSlashIs(dir, name);
    assert path[|path| - 1] == name[|name| - 1];
    assert name[|name| - 1] in name;
    assert (dir + "/")[..|dir|] == dir;
    if name == "." {
      assert path[..|path| - 1] == dir;
    }
  }

  /** The hook: no session is no session, and a directory without a name is called by its whole path. */
  function HookAlias(p: Payload): string {
    var cwd := if p.cwd.Some? then p.cwd.value else "";
    if FileName(cwd).Some? then FileName(cwd).value else cwd
  }

  /** The gate: no session is a session of its own, and a directory without a name has an empty one. */
  function GateSession(p: Payload): string {
    if p.session.Some? then p.session.value else "unknown-session"
  }

  function GateAlias(p: Payload): string {
    var cwd := if p.cwd.Some? then p.cwd.value else ".";
    if FileName(cwd).Some? then FileName(cwd).value else ""
  }

  function HookMode(c: Config, p: Payload, now: int): Mode {
    ResolveMode(c, p.session, HookAlias(p), now)
  }

  function GateMode(c: Config, p: Payload, now: int): Mode {
    ResolveMode(c, Some(GateSession(p)), GateAlias(p), now)
  }

  /** Both name the same session and the same workspace. */
  predicate SameScope(p: Payload) {
    p.session.Some? && HookAlias(p) == GateAlias(p)
  }

  /** The workspaces are named alike unless the directory is given, not empty, and without a name. */
  lemma AliasesDifferExactly(p: Payload)
    ensures HookAlias(p) != GateAlias(p) <==> p.cwd.Some? && p.cwd.value != "" && FileName(p.cwd.value).None?
  {
    assert FileName(".") == None by {
      assert "."[LastSlash(".")..] == ".";
      assert FileName("") == None;
    }
  }

  lemma SameScopeResolvesAlike(c: Config, p: Payload, now: int)
    requires SameScope(p)
    ensures HookMode(c, p, now) == GateMode(c, p, now)
  {
  }

  // ---------- The decision ----------

  datatype Decision = Ask | Deny | Allow

  datatype Outcome = Final(decision: Decision) | Forward

  /** `entryMode` is the mode read on entry, `dangerMode` the one the danger policy reads; `gate` is
      the gate's reply, absent also when the gate failed; `reachable` says that a bot and at least
      one authorized chat exist. */
  datatype HookCall = HookCall(entryMode: Mode, dangerMode: Mode, gate: Option<Reply>, danger: bool,
                               guardDangerous: bool, reachable: bool)

  function AskHuman(call: HookCall): Outcome {
    if call.reachable then Forward else Final(Ask)
  }

  function DecideOnce(call: HookCall): Outcome {
    if call.gate.Some? then
      if call.gate.value.hook == HookAskUser then AskHuman(call) else Final(Decision.Deny)
    else if call.danger && call.dangerMode == Robot then Final(Decision.Deny)
    else if call.danger && call.guardDangerous && call.entryMode == Auto then Final(Decision.Deny)
    else if !call.danger then Final(Ask)
    else AskHuman(call)
  }

  /** No branch of the hook itself allows anything. */
  lemma NeverAllowsAlone(call: HookCall)
    ensures DecideOnce(call) != Final(Allow)
  {
  }

  /** Something says that a person must be asked: the gate, or danger that no policy answers for. */
  predicate MustAsk(call: HookCall) {
    if call.gate.Some? then call.gate.value.hook == HookAskUser
    else call.danger && call.dangerMode != Robot && !(call.guardDangerous && call.entryMode == Auto)
  }

  /** A call is put before a person exactly if one must be asked and can be reached; it is left to the local prompt
      exactly if one must be asked and cannot be reached, or neither gate nor danger has anything to say. */
  lemma OutcomesAreExact(call: HookCall)
    ensures DecideOnce(call) == Forward <==> MustAsk(call) && call.reachable
    ensures DecideOnce(call) == Final(Ask) <==> (MustAsk(call) && !call.reachable) || (call.gate.None? && !call.danger)
    ensures DecideOnce(call) == Final(Decision.Deny) <==> !MustAsk(call) && (call.gate.Some? || call.danger)
  {
  }

  /** No clock reading of the step is later than `now`. */
  predicate NotLater(s: GateRuns.Step, now: int) {
    match s
    case Pre(p) => p.now <= p.later <= now && p.probe.now <= now
    case Post(q) => q.now <= now && q.probe.now <= now
    case Probe(_, input) => input.now <= now
    case Supervise(_, t) => t <= now
    case Replan(_, t) => t <= now
    case Deliver(_) => true
    case Restart => true
  }

  /** A gate store that some run has reached by now. */
  ghost predicate Reached(r: GateRuns.Run, now: int) {
    GateRuns.IsRun(r) && forall k :: 0 <= k < |r.steps| ==> NotLater(r.steps[k], now)
  }

  /** The gate's reply for a call of this session, in this mode, at this time: what `pre_tool` answers on some store
      reached by then, or nothing if it failed. */
  ghost predicate GateReplies(reply: Option<Reply>, session: string, mode: Mode, now: int) {
    reply.None? || exists r: GateRuns.Run, p: PreInput :: GateReply(r, p, reply, session, mode, now)
  }

  ghost predicate GateReply(r: GateRuns.Run, p: PreInput, reply: Option<Reply>, session: string, mode: Mode, now: int) {
    && Reached(r, now) && p.session == session && p.mode == mode && p.now == now && p.later >= now
    && PreToolled(r.states[|r.steps|], p).reply == reply
  }

  lemma GateReplyModes(reply: Option<Reply>, session: string, mode: Mode, now: int)
    requires GateReplies(reply, session, mode, now)
    ensures mode == Manual ==> reply.None?
    ensures mode == Robot && reply.Some? ==> reply.value.hook == HookDeny
  {
    if reply.Some? {
      var r: GateRuns.Run, p: PreInput :| GateReply(r, p, reply, session, mode, now);
      GateRuns.ModesAndReplies(r.states[|r.steps|], p);
    }
  }

  /** Whatever the gate store holds, a call all of whose mode readings say Robot is decided without
      a human, and denied outright when it is dangerous. */
  lemma RobotIsAutonomous(call: HookCall, session: string, now: int)
    requires call.entryMode == Robot && call.dangerMode == Robot && GateReplies(call.gate, session, Robot, now)
    ensures DecideOnce(call) != Forward
    ensures call.danger ==> DecideOnce(call) == Final(Decision.Deny)
  {
    GateReplyModes(call.gate, session, Robot, now);
  }

  /** Under Manual the gate never decides: the outcome is the one without a gate. */
  lemma ManualIsNeverHeld(call: HookCall, session: string, now: int)
    requires GateReplies(call.gate, session, Manual, now)
    ensures DecideOnce(call) == DecideOnce(call.(gate := None))
    ensures call.entryMode == Manual && call.dangerMode == Manual ==>
              DecideOnce(call) == if !call.danger then Final(Ask) else AskHuman(call)
  {
    GateReplyModes(call.gate, session, Manual, now);
  }

  /** A dangerous call that entered as Robot reaches a human exactly when one is reachable and
      either the gate, no longer reading Robot, asked for one, or the gate was silent and the danger
      policy no longer reads Robot. */
  lemma RobotReachesHumanExactly(call: HookCall, session: string, gateMode: Mode, now: int)
    requires call.entryMode == Robot && call.danger && GateReplies(call.gate, session, gateMode, now)
    ensures DecideOnce(call) == Forward <==>
              call.reachable
              && if call.gate.Some? then call.gate.value.hook == HookAskUser else call.dangerMode != Robot
    ensures DecideOnce(call) == Forward ==> gateMode != Robot || call.dangerMode != Robot
  {
    GateReplyModes(call.gate, session, gateMode, now);
  }

  /** The readings of one call: on entry and in the danger policy the hook's, inside the gate the gate's. */
  function ReadCall(c: Config, p: Payload, t0: int, t2: int, gate: Option<Reply>, danger: bool,
                    reachable: bool): HookCall
  {
    HookCall(HookMode(c, p, t0), HookMode(c, p, t2), gate, danger, c.guardDangerous, reachable)
  }

  /** What the gate may reply to this payload at this time. */
  ghost predicate GateMayReply(gate: Option<Reply>, c: Config, p: Payload, now: int) {
    GateReplies(gate, GateSession(p), GateMode(c, p, now), now)
  }

  /** Whatever the gate store holds, a dangerous call is decided, and denied, without a human. */
  ghost predicate AlwaysDenied(c: Config, p: Payload, t0: int, t1: int, t2: int) {
    forall gate: Option<Reply>, reachable: bool :: GateMayReply(gate, c, p, t1) ==>
      DecideOnce(ReadCall(c, p, t0, t2, gate, true, reachable)) == Final(Decision.Deny)
  }

  /** For every configuration, payload and clock, and in whatever mode it entered: a dangerous call is always denied if
      and only if the gate does not read Auto, and either the danger policy reads Robot or the call entered as Auto
      under a guard. */
  lemma DangerIsDeniedExactly(c: Config, p: Payload, t0: int, t1: int, t2: int)
    ensures AlwaysDenied(c, p, t0, t1, t2)
       <==> GateMode(c, p, t1) != Auto && (HookMode(c, p, t2) == Robot || (c.guardDangerous && HookMode(c, p, t0) == Auto))
  {
    var denies := HookMode(c, p, t2) == Robot || (c.guardDangerous && HookMode(c, p, t0) == Auto);
    if GateMode(c, p, t1) != Auto && denies {
      forall gate: Option<Reply>, reachable: bool | GateMayReply(gate, c, p, t1)
        ensures DecideOnce(ReadCall(c, p, t0, t2, gate, true, reachable)) == Final(Decision.Deny)
      {
        GateReplyModes(gate, GateSession(p), GateMode(c, p, t1), t1);
      }
    } else if !denies {
      assert GateMayReply(None, c, p, t1);
      assert DecideOnce(ReadCall(c, p, t0, t2, None, true, true)) == Forward;
    } else {
      var reply := AutoGateCanAsk(GateSession(p), t1);
      assert GateMayReply(Some(reply), c, p, t1);
      assert DecideOnce(ReadCall(c, p, t0, t2, Some(reply), true, true)) == Forward;
    }
  }

  /** A dangerous call that entered as Robot is always denied if and only if the gate does not read Auto and the danger
      policy still reads Robot. */
  lemma RobotIsDeniedExactly(c: Config, p: Payload, t0: int, t1: int, t2: int)
    requires HookMode(c, p, t0) == Robot
    ensures AlwaysDenied(c, p, t0, t1, t2) <==> GateMode(c, p, t1) != Auto && HookMode(c, p, t2) == Robot
  {
    DangerIsDeniedExactly(c, p, t0, t1, t2);
  }

  /** Whatever the gate store holds, a call that is not dangerous is decided without a human. */
  ghost predicate NeverForwarded(c: Config, p: Payload, t0: int, t1: int, t2: int) {
    forall gate: Option<Reply>, reachable: bool :: GateMayReply(gate, c, p, t1) ==>
      DecideOnce(ReadCall(c, p, t0, t2, gate, false, reachable)) != Forward
  }

  /** For every configuration, payload and clock, and in whatever mode it entered: a call that is not dangerous is
      never put before a human if and only if the gate does not read Auto. */
  lemma HarmlessStaysLocalExactly(c: Config, p: Payload, t0: int, t1: int, t2: int)
    ensures NeverForwarded(c, p, t0, t1, t2) <==> GateMode(c, p, t1) != Auto
  {
    if GateMode(c, p, t1) != Auto {
      forall gate: Option<Reply>, reachable: bool | GateMayReply(gate, c, p, t1)
        ensures DecideOnce(ReadCall(c, p, t0, t2, gate, false, reachable)) != Forward
      {
        GateReplyModes(gate, GateSession(p), GateMode(c, p, t1), t1);
      }
    } else {
      var reply := AutoGateCanAsk(GateSession(p), t1);
      assert GateMayReply(Some(reply), c, p, t1);
      assert DecideOnce(ReadCall(c, p, t0, t2, Some(reply), false, true)) == Forward;
    }
  }

  /** An Auto call whose effect is unknown, at this time. */
  function UnclearCall(session: string, now: int): PreInput {
    PreInput(true, false, false, session, "t", Auto, ToolEffect.Unknown, Some("x"), "b", "n", "d", None, false, None,
             now, now, "", "", ProbeInput(Absent, now, ""))
  }

  /** The run in which such a call has opened its lease. */
  function OpenedRun(session: string, now: int): GateRuns.Run {
    var v, p := GateView([], map[], {}), UnclearCall(session, now);
    GateRuns.Run([v, PreToolled(v, p).after], [GateRuns.Pre(p)], [PreToolled(v, p).event], [PreToolled(v, p).reply])
  }

  /** At any time the gate can ask for a human in Auto: a lease of the session was opened 110 seconds before. */
  lemma AutoGateCanAsk(session: string, now: int) returns (reply: Reply)
    ensures GateReplies(Some(reply), session, Auto, now) && reply.hook == HookAskUser
  {
    var r, p := OpenedRun(session, now - 110), UnclearCall(session, now);
    reply := Reply(HookAskUser, AwaitingProof);
    assert GateRuns.Moves(r, 0);
    assert GateRuns.IsRun(r);
    FirstCallOpens(session, now - 110);
    GateRuns.ReachableStoresAreGood(r, 1);
    OldLeaseAsks(r.states[1], p);
    assert GateReply(r, p, Some(reply), session, Auto, now);
  }

  lemma FirstCallOpens(session: string, now: int)
    ensures var p := UnclearCall(session, now);
            var lease := GateForAction(PreToolled(GateView([], map[], {}), p).after.gates, LeaseKey(p));
            lease.Some? && lease.value.openedAt == now && lease.value.state == AwaitingProof
  {
    var v, p := GateView([], map[], {}), UnclearCall(session, now);
    assert PreToolled(v, p) == Evaluated(v, p, Missing, None, []);
  }

  lemma OldLeaseAsks(v: GateView, p: PreInput)
    requires GateLaws.Good(v.gates) && p.enabled && !p.controlPlane && !p.shadowed
    requires p.mode == Auto && p.effect == ToolEffect.Unknown && p.target.Some?
    requires var lease := GateForAction(v.gates, LeaseKey(p));
             lease.Some? && lease.value.state == AwaitingProof && p.later - lease.value.openedAt >= 110
    ensures PreToolled(v, p).reply == Some(Reply(HookAskUser, AwaitingProof))
  {
    GateLaws.SearchesAgree(v.gates, LeaseKey(p));
    assert PreToolled(v, p) == Evaluated(v, p, Missing, None, []);
  }

  /** If both scopes are the same and no entry of theirs expires while the call is decided, a dangerous Robot
      call is always denied. */
  lemma DangerousRobotIsDenied(c: Config, p: Payload, t0: int, t1: int, t2: int)
    requires t0 <= t1 <= t2 && HookMode(c, p, t0) == Robot && SameScope(p)
    requires p.session.value in c.sessions ==> !ExpiresWithin(c.sessions[p.session.value], t0, t2)
    requires HookAlias(p) in c.workspaces ==> !ExpiresWithin(c.workspaces[HookAlias(p)], t0, t2)
    ensures AlwaysDenied(c, p, t0, t1, t2)
  {
    ModeIsStable(c, p.session, HookAlias(p), t0, t1);
    ModeIsStable(c, p.session, HookAlias(p), t0, t2);
    SameScopeResolvesAlike(c, p, t1);
    RobotIsDeniedExactly(c, p, t0, t1, t2);
  }

  /** A session entry that expires between the readings sends a dangerous Robot call to a human. */
  lemma ExpiringRobotReachesHuman(t: int)
    ensures var c := Config(Manual, map[], map["s" := ScopeEntry(Robot, Some(t + 1))], true);
            var p := Payload(Some("s"), Some("/w"));
            && SameScope(p) && HookMode(c, p, t) == Robot
            && DecideOnce(ReadCall(c, p, t, t + 1, None, true, true)) == Forward
  {
    AliasesDifferExactly(Payload(Some("s"), Some("/w")));
    assert "/w"[LastSlash("/w")..] == "w";
  }

  /** At the root directory nothing need expire: the workspace entry that makes the hook Robot is not the one the
      gate looks up, and an Auto gate can send the dangerous call to a human. */
  lemma RootRobotReachesHuman(t: int)
    ensures var c := Config(Auto, map["/" := ScopeEntry(Robot, None)], map[], true);
            var p := Payload(Some("s"), Some("/"));
            && HookMode(c, p, t) == Robot && GateMode(c, p, t) == Auto && !AlwaysDenied(c, p, t, t, t)
  {
    var c := Config(Auto, map["/" := ScopeEntry(Robot, None)], map[], true);
    var p := Payload(Some("s"), Some("/"));
    RootHasNoName();
    RobotIsDeniedExactly(c, p, t, t, t);
  }

  lemma RootHasNoName()
    ensures FileName("/") == None
  {
    assert "/"[..0] == "";
  }

  /** Nor without a session, when an entry is kept for the session the gate makes up. */
  lemma NamelessRobotReachesHuman(t: int)
    ensures var c := Config(Robot, map[], map["unknown-session" := ScopeEntry(Auto, None)], true);
            var p := Payload(None, Some("/w"));
            && HookMode(c, p, t) == Robot && GateMode(c, p, t) == Auto && !AlwaysDenied(c, p, t, t, t)
  {
    var c := Config(Robot, map[], map["unknown-session" := ScopeEntry(Auto, None)], true);
    RobotIsDeniedExactly(c, Payload(None, Some("/w")), t, t, t);
  }
}
