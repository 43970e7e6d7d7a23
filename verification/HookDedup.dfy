/** Leader and follower de-duplication of hook calls.

    One identity may arrive many times. The first caller leads and decides; the others wait for it
    or replay its decision, until the decision is forgotten. Each step below is one critical section
    under the table's lock, and steps interleave freely. */
module HookDedup {
  import opened GateTypes
  import opened HookPolicy

  const REPLAY_SECS := 130

  datatype DedupState = Pending(waiters: seq<nat>) | Complete(decision: Decision, at: int)

  type Table = map<string, DedupState>

  datatype Arrival = Replay(decision: Decision) | Follow | Lead

  predicate Forgotten(entry: DedupState, now: int) {
    entry.Complete? && now - entry.at > REPLAY_SECS
  }

  function Retained(table: Table, now: int): Table {
    map id | id in table && !Forgotten(table[id], now) :: table[id]
  }

  /** What a caller finds once the forgotten entries are gone. */
  function ArrivalOf(kept: Table, id: string): Arrival {
    if id !in kept then Lead
    else match kept[id] case Complete(decision, _) => Replay(decision) case Pending(_) => Follow
  }

  function Joined(kept: Table, id: string, caller: nat): Table {
    if id !in kept then kept[id := Pending([])]
    else match kept[id] case Complete(_, _) => kept case Pending(waiters) => kept[id := Pending(waiters + [caller])]
  }

  function WaitersOf(table: Table, id: string): seq<nat> {
    if id in table && table[id].Pending? then table[id].waiters else []
  }

  class HookDedup {
    var table: Table

    constructor ()
      ensures table == map[]
    {
      table := map[];
    }

    method Arrive(id: string, caller: nat, now: int) returns (arrival: Arrival)
      modifies this
      ensures arrival == ArrivalOf(Retained(old(table), now), id)
      ensures table == Joined(Retained(old(table), now), id, caller)
    {
      table := Retained(table, now);
      if id in table {
        match table[id] {
          case Complete(decision, _) =>
            return Replay(decision);
          case Pending(waiters) =>
            table := table[id := Pending(waiters + [caller])];
            return Follow;
        }
      }
      table := table[id := Pending([])];
      return Lead;
    }

    method Finish(id: string, decision: Decision, now: int) returns (waiters: seq<nat>)
      modifies this
      ensures waiters == WaitersOf(old(table), id)
      ensures table == old(table)[id := Complete(decision, now)]
    {
      waiters := [];
      if id in table && table[id].Pending? {
        waiters := table[id].waiters;
      }
      table := table - {id};
      table := table[id := Complete(decision, now)];
    }
  }

  // ---------- The machine ----------

  datatype Verdict = Verdict(decision: Decision, at: int)

  datatype ReplySent = ReplySent(caller: nat, decision: Decision)

  /** The table, the callers now leading, and a record of what happened: the identity each caller
      came with, the leader it depends on, the latest leader of each identity, the finished leaders'
      verdicts, and every reply sent. */
  datatype Sys = Sys(
    table: Table,
    leading: set<nat>,
    identity: map<nat, string>,
    origin: map<nat, nat>,
    current: map<string, nat>,
    verdicts: map<nat, Verdict>,
    replies: seq<ReplySent>)

  const Start := Sys(map[], {}, map[], map[], map[], map[], [])

  function Answers(waiters: seq<nat>, decision: Decision): seq<ReplySent> {
    seq(|waiters|, i requires 0 <= i < |waiters| => ReplySent(waiters[i], decision))
  }

  function Forgets(s: Sys, now: int): Sys {
    s.(table := Retained(s.table, now))
  }

  function Leads(s: Sys, caller: nat, id: string): Sys {
    s.(table := s.table[id := Pending([])], leading := s.leading + {caller},
       identity := s.identity[caller := id], origin := s.origin[caller := caller], current := s.current[id := caller])
  }

  function Follows(s: Sys, caller: nat, id: string): Sys
    requires id in s.current
  {
    s.(table := Joined(s.table, id, caller), identity := s.identity[caller := id],
       origin := s.origin[caller := s.current[id]])
  }

  function Replays(s: Sys, caller: nat, id: string, decision: Decision): Sys
    requires id in s.current
  {
    s.(identity := s.identity[caller := id], origin := s.origin[caller := s.current[id]],
       replies := s.replies + [ReplySent(caller, decision)])
  }

  /** One arrival: forget, then lead, follow or replay. The table moves as `HookDedup.Arrive` moves it. */
  function Arrives(s: Sys, caller: nat, id: string, now: int): Sys
    requires forall id :: id in s.table ==> id in s.current
    ensures Arrives(s, caller, id, now).table == Joined(Retained(s.table, now), id, caller)
  {
    var t := Forgets(s, now);
    match ArrivalOf(t.table, id)
    case Lead => Leads(t, caller, id)
    case Follow => Follows(t, caller, id)
    case Replay(decision) => Replays(t, caller, id, decision)
  }

  function Finishes(s: Sys, caller: nat, decision: Decision, now: int): Sys
    requires caller in s.identity
  {
    var id := s.identity[caller];
    s.(table := s.table[id := Complete(decision, now)],
       leading := s.leading - {caller},
       verdicts := s.verdicts[caller := Verdict(decision, now)],
       replies := s.replies + Answers(WaitersOf(s.table, id), decision) + [ReplySent(caller, decision)])
  }

  // ---------- The invariant ----------

  /** A running leader is the one its identity waits on. */
  ghost predicate LeaderOk(s: Sys, l: nat) {
    l in s.leading ==>
      && l in s.identity && l in s.origin && s.origin[l] == l && l !in s.verdicts
      && s.identity[l] in s.table && s.table[s.identity[l]].Pending?
      && s.identity[l] in s.current && s.current[s.identity[l]] == l
  }

  ghost predicate VerdictOk(s: Sys, l: nat) {
    l in s.verdicts ==> l in s.origin && s.origin[l] == l && l !in s.leading
  }

  /** An entry waits on a running leader or remembers a finished one; a forgotten identity's last
      leader finished long ago. */
  ghost predicate EntryOk(s: Sys, id: string, now: int) {
    && (id in s.table ==> id in s.current)
    && (id in s.current ==>
          var l := s.current[id];
          && l in s.identity && s.identity[l] == id && l in s.origin && s.origin[l] == l
          && (id in s.table && s.table[id].Pending? ==> l in s.leading && l !in s.verdicts)
          && (id in s.table && s.table[id].Complete? ==>
                l in s.verdicts && s.verdicts[l] == Verdict(s.table[id].decision, s.table[id].at))
          && (id !in s.table ==> l in s.verdicts && now - s.verdicts[l].at > REPLAY_SECS))
  }

  /** Every caller depends on a leader of its own identity, running or finished. */
  ghost predicate CallerOk(s: Sys, c: nat) {
    && (c in s.identity <==> c in s.origin)
    && (c in s.origin ==>
          var l := s.origin[c];
          && l in s.identity && s.identity[l] == s.identity[c] && l in s.origin && s.origin[l] == l
          && (l in s.leading || l in s.verdicts)
          && (l in s.leading && c != l ==> c in WaitersOf(s.table, s.identity[c])))
  }

  /** Waiters are distinct followers of the running leader. */
  ghost predicate WaitersOk(s: Sys, id: string) {
    var waiters := WaitersOf(s.table, id);
    && NoDuplicates(waiters)
    && forall w :: w in waiters ==>
         w in s.identity && s.identity[w] == id && w in s.origin && w != s.origin[w]
         && id in s.current && s.origin[w] == s.current[id]
  }

  ghost predicate RepliedTo(s: Sys, c: nat) {
    exists i :: 0 <= i < |s.replies| && s.replies[i].caller == c
  }

  ghost predicate ReplyOk(s: Sys, r: ReplySent) {
    r.caller in s.origin && s.origin[r.caller] in s.verdicts && r.decision == s.verdicts[s.origin[r.caller]].decision
  }

  /** Replies go to distinct callers, each carries its leader's verdict, and no verdict leaves a
      dependent without one. */
  ghost predicate RepliesOk(s: Sys) {
    && (forall i, j :: 0 <= i < j < |s.replies| ==> s.replies[i].caller != s.replies[j].caller)
    && (forall i :: 0 <= i < |s.replies| ==> ReplyOk(s, s.replies[i]))
    && (forall c :: c in s.origin && s.origin[c] in s.verdicts ==> RepliedTo(s, c))
  }

  ghost predicate Inv(s: Sys, now: int) {
    && (forall l :: LeaderOk(s, l))
    && (forall l :: VerdictOk(s, l))
    && (forall id :: EntryOk(s, id, now))
    && (forall c :: CallerOk(s, c))
    && (forall id :: WaitersOk(s, id))
    && RepliesOk(s)
  }

  // ---------- Arrivals keep it ----------

  lemma SameReplies(s: Sys, t: Sys)
    requires RepliesOk(s) && t.replies == s.replies && t.origin == s.origin && t.verdicts == s.verdicts
    ensures RepliesOk(t)
  {
    forall i | 0 <= i < |t.replies| ensures ReplyOk(t, t.replies[i]) { assert ReplyOk(s, s.replies[i]); }
    forall c | c in t.origin && t.origin[c] in t.verdicts ensures RepliedTo(t, c) { assert RepliedTo(s, c); }
  }

  lemma TimePasses(s: Sys, now: int, later: int)
    requires Inv(s, now) && now <= later
    ensures Inv(s, later)
  {
    forall id ensures EntryOk(s, id, later) { assert EntryOk(s, id, now); }
  }

  lemma ForgetsKeeps(s: Sys, now: int)
    requires Inv(s, now)
    ensures Inv(Forgets(s, now), now)
  {
    var t := Forgets(s, now);
    forall l ensures LeaderOk(t, l) { assert LeaderOk(s, l); }
    forall l ensures VerdictOk(t, l) { assert VerdictOk(s, l); }
    forall i ensures EntryOk(t, i, now) { assert EntryOk(s, i, now); }
    forall c ensures CallerOk(t, c) { assert CallerOk(s, c); }
    forall i ensures WaitersOk(t, i) { assert WaitersOk(s, i); }
    SameReplies(s, t);
  }

  lemma LeadsKeeps(s: Sys, caller: nat, id: string, now: int)
    requires Inv(s, now) && caller !in s.identity && id !in s.table
    ensures Inv(Leads(s, caller, id), now)
  {
    var t := Leads(s, caller, id);
    assert CallerOk(s, caller) && VerdictOk(s, caller) && EntryOk(s, id, now);
    forall l ensures LeaderOk(t, l) { assert LeaderOk(s, l); }
    forall l ensures VerdictOk(t, l) { assert VerdictOk(s, l); }
    forall i ensures EntryOk(t, i, now) { assert EntryOk(s, i, now); }
    forall c ensures CallerOk(t, c) { assert CallerOk(s, c); }
    forall i ensures WaitersOk(t, i) { assert WaitersOk(s, i); }
    forall i | 0 <= i < |t.replies| ensures ReplyOk(t, t.replies[i]) { assert ReplyOk(s, s.replies[i]); }
    forall c | c in t.origin && t.origin[c] in t.verdicts ensures RepliedTo(t, c) { assert RepliedTo(s, c); }
  }

  lemma FollowsKeeps(s: Sys, caller: nat, id: string, now: int)
    requires Inv(s, now) && caller !in s.identity && id in s.table && s.table[id].Pending? && id in s.current
    ensures Inv(Follows(s, caller, id), now)
  {
    var t := Follows(s, caller, id);
    assert CallerOk(s, caller) && VerdictOk(s, caller) && EntryOk(s, id, now) && WaitersOk(s, id);
    forall l ensures LeaderOk(t, l) { assert LeaderOk(s, l); }
    forall l ensures VerdictOk(t, l) { assert VerdictOk(s, l); }
    forall i ensures EntryOk(t, i, now) { assert EntryOk(s, i, now); }
    forall c ensures CallerOk(t, c) { assert CallerOk(s, c); FollowerWaits(s, caller, id, c); }
    forall i ensures WaitersOk(t, i) { assert WaitersOk(s, i); FollowerIsNew(s, caller, id, i); }
    forall i | 0 <= i < |t.replies| ensures ReplyOk(t, t.replies[i]) { assert ReplyOk(s, s.replies[i]); }
    forall c | c in t.origin && t.origin[c] in t.verdicts ensures RepliedTo(t, c) { assert RepliedTo(s, c); }
  }

  lemma FollowerWaits(s: Sys, caller: nat, id: string, c: nat)
    requires id in s.table && s.table[id].Pending?
    ensures WaitersOf(Joined(s.table, id, caller), id) == WaitersOf(s.table, id) + [caller]
    ensures c in s.identity ==> (c in WaitersOf(s.table, s.identity[c]) ==> c in WaitersOf(Joined(s.table, id, caller), s.identity[c]))
    ensures caller in WaitersOf(Joined(s.table, id, caller), id)
  {
    assert (WaitersOf(s.table, id) + [caller])[|WaitersOf(s.table, id)|] == caller;
  }

  lemma FollowerIsNew(s: Sys, caller: nat, id: string, other: string)
    requires caller !in s.identity && id in s.table && s.table[id].Pending? && id in s.current
    requires WaitersOk(s, other) && s.current[id] in s.identity
    ensures WaitersOk(Follows(s, caller, id), other)
  {
    var t := Follows(s, caller, id);
    if other == id {
      assert WaitersOf(t.table, id) == WaitersOf(s.table, id) + [caller];
    } else {
      assert WaitersOf(t.table, other) == WaitersOf(s.table, other);
    }
  }

  lemma ReplaysKeeps(s: Sys, caller: nat, id: string, now: int)
    requires Inv(s, now) && caller !in s.identity && id in s.table && s.table[id].Complete? && id in s.current
    ensures Inv(Replays(s, caller, id, s.table[id].decision), now)
  {
    var t := Replays(s, caller, id, s.table[id].decision);
    assert CallerOk(s, caller) && VerdictOk(s, caller) && EntryOk(s, id, now) && VerdictOk(s, s.current[id]);
    forall l ensures LeaderOk(t, l) { assert LeaderOk(s, l); }
    forall l ensures VerdictOk(t, l) { assert VerdictOk(s, l); }
    forall i ensures EntryOk(t, i, now) { assert EntryOk(s, i, now); }
    forall c ensures CallerOk(t, c) { assert CallerOk(s, c); }
    forall i ensures WaitersOk(t, i) { assert WaitersOk(s, i); }
    forall i | 0 <= i < |t.replies| ensures ReplyOk(t, t.replies[i]) { assert i < |s.replies| ==> ReplyOk(s, s.replies[i]); }
    forall i, j | 0 <= i < j < |t.replies| ensures t.replies[i].caller != t.replies[j].caller {
      assert ReplyOk(s, s.replies[i]);
    }
    forall c | c in t.origin && t.origin[c] in t.verdicts ensures RepliedTo(t, c) {
      if c == caller {
        assert t.replies[|s.replies|].caller == c;
      } else {
        assert RepliedTo(s, c);
        var i :| 0 <= i < |s.replies| && s.replies[i].caller == c;
        assert t.replies[i].caller == c;
      }
    }
  }

  lemma ArrivesKeeps(s: Sys, caller: nat, id: string, now: int)
    requires Inv(s, now) && caller !in s.identity
    ensures (forall i :: i in s.table ==> i in s.current) && Inv(Arrives(s, caller, id, now), now)
  {
    forall i | i in s.table ensures i in s.current { assert EntryOk(s, i, now); }
    var t := Forgets(s, now);
    ForgetsKeeps(s, now);
    assert EntryOk(t, id, now);
    match ArrivalOf(t.table, id)
    case Lead => LeadsKeeps(t, caller, id, now);
    case Follow => FollowsKeeps(t, caller, id, now);
    case Replay(_) => ReplaysKeeps(t, caller, id, now);
  }

  // ---------- Finishing keeps it ----------

  lemma FinishSends(s: Sys, caller: nat, decision: Decision, now: int)
    requires caller in s.leading && LeaderOk(s, caller) && WaitersOk(s, s.identity[caller]) && RepliesOk(s)
    requires forall c :: CallerOk(s, c)
    ensures RepliesOk(Finishes(s, caller, decision, now))
  {
    var t := Finishes(s, caller, decision, now);
    var waiters := WaitersOf(s.table, s.identity[caller]);
    var n := |s.replies|;
    forall i | 0 <= i < |t.replies|
      ensures ReplyOk(t, t.replies[i])
      ensures i < n ==> s.origin[t.replies[i].caller] in s.verdicts
      ensures i >= n ==> s.origin[t.replies[i].caller] == caller
    {
      if i < n {
        assert ReplyOk(s, s.replies[i]);
      } else if i < n + |waiters| {
        assert waiters[i - n] in waiters;
      }
    }
    forall i, j | 0 <= i < j < |t.replies|
      ensures t.replies[i].caller != t.replies[j].caller
    {
      if n <= i && j < n + |waiters| {
        assert waiters[i - n] != waiters[j - n];
      } else if n <= i {
        assert waiters[i - n] in waiters;
      }
    }
    forall c | c in t.origin && t.origin[c] in t.verdicts
      ensures RepliedTo(t, c)
    {
      assert CallerOk(s, c);
      if s.origin[c] in s.verdicts {
        assert RepliedTo(s, c);
        var i :| 0 <= i < n && s.replies[i].caller == c;
        assert t.replies[i].caller == c;
      } else if c == caller {
        assert t.replies[n + |waiters|].caller == c;
      } else {
        var k :| 0 <= k < |waiters| && waiters[k] == c;
        assert t.replies[n + k].caller == c;
      }
    }
  }

  lemma FinishesKeeps(s: Sys, caller: nat, decision: Decision, now: int)
    requires Inv(s, now) && caller in s.leading
    ensures caller in s.identity && Inv(Finishes(s, caller, decision, now), now)
  {
    assert LeaderOk(s, caller) && WaitersOk(s, s.identity[caller]);
    var t := Finishes(s, caller, decision, now);
    forall l ensures LeaderOk(t, l) { assert LeaderOk(s, l); }
    forall l ensures VerdictOk(t, l) { assert VerdictOk(s, l); }
    forall i ensures EntryOk(t, i, now) { assert EntryOk(s, i, now); }
    forall c ensures CallerOk(t, c) {
      assert CallerOk(s, c) && (c in s.origin ==> LeaderOk(s, s.origin[c]));
    }
    forall i ensures WaitersOk(t, i) { assert WaitersOk(s, i); }
    FinishSends(s, caller, decision, now);
  }

  // ---------- What the invariant says ----------

  ghost predicate SingleLeaders(s: Sys) {
    && (forall l :: l in s.leading ==> l in s.identity)
    && (forall l, m :: l in s.leading && m in s.leading && l != m ==> s.identity[l] != s.identity[m])
  }

  lemma OneLeaderPerIdentity(s: Sys, now: int)
    requires Inv(s, now)
    ensures SingleLeaders(s)
  {
    forall l | l in s.leading
      ensures l in s.identity && s.identity[l] in s.current && s.current[s.identity[l]] == l
    {
      assert LeaderOk(s, l);
    }
  }

  ghost function RepliesTo(s: Sys, caller: nat): set<int> {
    set i | 0 <= i < |s.replies| && s.replies[i].caller == caller
  }

  /** Every caller that has arrived depends on one leader of its own identity. While that leader runs
      the caller has no reply; once it has finished the caller has exactly one, the leader's verdict. */
  ghost predicate Served(s: Sys, caller: nat)
    requires caller in s.identity
  {
    && caller in s.origin
    && var leader := s.origin[caller];
    && leader in s.identity && s.identity[leader] == s.identity[caller]
    && (leader in s.leading <==> leader !in s.verdicts)
    && (leader in s.leading ==> RepliesTo(s, caller) == {})
    && (leader in s.verdicts ==>
          exists r :: 0 <= r < |s.replies| && RepliesTo(s, caller) == {r}
                      && s.replies[r] == ReplySent(caller, s.verdicts[leader].decision))
  }

  lemma CallerIsServed(s: Sys, now: int, caller: nat)
    requires Inv(s, now) && caller in s.identity
    ensures Served(s, caller)
  {
    assert CallerOk(s, caller);
    var leader := s.origin[caller];
    assert LeaderOk(s, leader) && CallerOk(s, leader);
    if leader in s.verdicts {
      assert RepliedTo(s, caller);
      var r :| 0 <= r < |s.replies| && s.replies[r].caller == caller;
      assert ReplyOk(s, s.replies[r]);
      assert RepliesTo(s, caller) == {r};
    } else {
      forall r | 0 <= r < |s.replies| ensures s.replies[r].caller != caller { assert ReplyOk(s, s.replies[r]); }
      assert RepliesTo(s, caller) == {};
    }
  }

  ghost predicate AllServed(s: Sys) {
    forall caller :: caller in s.identity ==> Served(s, caller)
  }

  lemma EveryCallerIsServed(s: Sys, now: int)
    requires Inv(s, now)
    ensures AllServed(s)
  {
    forall caller | caller in s.identity ensures Served(s, caller) { CallerIsServed(s, now, caller); }
  }

  /** A caller that comes to lead finds its identity new, or its last leader finished more than 130
      seconds ago. */
  lemma NewLeaderAfterForgetting(s: Sys, now: int, caller: nat, id: string)
    requires Inv(s, now) && caller !in s.identity
    requires forall i :: i in s.table ==> i in s.current
    requires caller in Arrives(s, caller, id, now).leading
    ensures id in s.current ==>
              s.current[id] in s.verdicts && now - s.verdicts[s.current[id]].at > 130
  {
    assert LeaderOk(s, caller) && EntryOk(s, id, now);
  }
}
