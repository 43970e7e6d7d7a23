/** Links from a session to the one it continues, and the hop-limited search that guards against cycles. */
module Continuations {
  import opened GateTypes
  import opened StepText

  const HOPS := 32

  type Links = map<string, string>

  datatype LinkResult = Linked | Unlinked | NotLinked | Usage | ParentMissing | NoLedger | Cycle

  predicate SafeChar(c: char) {
    'a' <= c <= 'z' || 'A' <= c <= 'Z' || '0' <= c <= '9' || c == '-' || c == '_' || c == '.'
  }

  /** A session id as it is stored. */
  function SafeId(id: string): string {
    var t := Trim(id);
    seq(|t|, i requires 0 <= i < |t| => if SafeChar(t[i]) then t[i] else '_')
  }

  /** Whether a walk of so many looks, starting at `cursor`, sees the child. */
  predicate Sees(links: Links, cursor: string, child: string, looks: nat)
    decreases looks
  {
    looks > 0
    && (cursor == child || (cursor in links && Sees(links, links[cursor], child, looks - 1)))
  }

  /** The parent's dossier: absent, without a ledger, or with one. */
  function LinkOutcome(links: Links, child: string, parent: string, ledger: Option<bool>): LinkResult {
    if child == "" || parent == "" || child == parent then Usage
    else if ledger.None? then ParentMissing
    else if !ledger.value then NoLedger
    else if Sees(links, parent, child, HOPS) then Cycle
    else Linked
  }

  function AfterLink(links: Links, child: string, parent: string, ledger: Option<bool>): Links {
    if LinkOutcome(links, child, parent, ledger).Linked? then links[child := parent] else links
  }

  function AfterUnlink(links: Links, child: string): Links {
    if child == "" then links else links - {child}
  }

  class ContinuationStore {
    var links: Links

    constructor ()
      ensures links == map[]
    {
      links := map[];
    }

    method Link(childId: string, parentId: string, ledger: Option<bool>) returns (result: LinkResult)
      modifies this
      ensures result == LinkOutcome(old(links), SafeId(childId), SafeId(parentId), ledger)
      ensures links == AfterLink(old(links), SafeId(childId), SafeId(parentId), ledger)
    {
      var child, parent := SafeId(childId), SafeId(parentId);
      if child == "" || parent == "" || child == parent {
        return Usage;
      }
      if ledger.None? {
        return ParentMissing;
      }
      if !ledger.value {
        return NoLedger;
      }
      var cursor := parent;
      for hop := 0 to HOPS
        invariant links == old(links)
        invariant Sees(links, parent, child, HOPS) == Sees(links, cursor, child, HOPS - hop)
      {
        if cursor == child {
          return Cycle;
        }
        if cursor !in links {
          break;
        }
        cursor := links[cursor];
      }
      links := links[child := parent];
      result := Linked;
    }

    method Unlink(childId: string) returns (result: LinkResult)
      modifies this
      ensures links == AfterUnlink(old(links), SafeId(childId))
      ensures result == if SafeId(childId) == "" then Usage
                        else if SafeId(childId) in old(links) then Unlinked
                        else NotLinked
    {
      var child := SafeId(childId);
      if child == "" {
        return Usage;
      }
      result := if child in links then Unlinked else NotLinked;
      links := links - {child};
    }
  }

  // ---------- Walks ----------

  function Ancestor(links: Links, id: string, k: nat): Option<string> {
    if k == 0 then Some(id)
    else
      var p := Ancestor(links, id, k - 1);
      if p.Some? && p.value in links then Some(links[p.value]) else None
  }

  lemma {:induction false} WalkOn(links: Links, id: string, i: nat, j: nat)
    ensures Ancestor(links, id, i + j)
         == if Ancestor(links, id, i).Some? then Ancestor(links, Ancestor(links, id, i).value, j) else None
  {
    if j > 0 {
      WalkOn(links, id, i, j - 1);
    }
  }

  lemma {:induction false} ReachedIsSeen(links: Links, cursor: string, child: string, looks: nat, k: nat)
    requires k < looks && Ancestor(links, cursor, k) == Some(child)
    ensures Sees(links, cursor, child, looks)
    decreases looks
  {
    if k > 0 && cursor != child {
      WalkOn(links, cursor, 1, k - 1);
      assert Ancestor(links, cursor, 1).Some?;
      ReachedIsSeen(links, links[cursor], child, looks - 1, k - 1);
    }
  }

  lemma {:induction false} SeenIsReached(links: Links, cursor: string, child: string, looks: nat) returns (k: nat)
    requires Sees(links, cursor, child, looks)
    ensures k < looks && Ancestor(links, cursor, k) == Some(child)
    decreases looks
  {
    if cursor == child {
      k := 0;
    } else {
      var j := SeenIsReached(links, links[cursor], child, looks - 1);
      k := 1 + j;
      WalkOn(links, cursor, 1, j);
      assert Ancestor(links, cursor, 1) == Some(links[cursor]);
    }
  }

  /** The child is among the first so many members of the walk. */
  ghost predicate Near(links: Links, cursor: string, child: string, looks: nat) {
    exists k: nat :: k < looks && Ancestor(links, cursor, k) == Some(child)
  }

  /** The search sees exactly the first so many members of the walk. */
  lemma SeesIsReach(links: Links, cursor: string, child: string, looks: nat)
    ensures Sees(links, cursor, child, looks) <==> Near(links, cursor, child, looks)
  {
    if Sees(links, cursor, child, looks) {
      var k := SeenIsReached(links, cursor, child, looks);
    }
    if k: nat :| k < looks && Ancestor(links, cursor, k) == Some(child) {
      ReachedIsSeen(links, cursor, child, looks, k);
    }
  }

  /** A link is made exactly if it names two different sessions, the parent's dossier has a ledger, and the child is not
      near; each refusal says which of these fails first, and changes nothing. */
  lemma LinksAreExact(links: Links, child: string, parent: string, ledger: Option<bool>)
    ensures var outcome := LinkOutcome(links, child, parent, ledger);
            var named := child != "" && parent != "" && child != parent;
            && (outcome == Usage <==> !named)
            && (outcome == ParentMissing <==> named && ledger == None)
            && (outcome == NoLedger <==> named && ledger == Some(false))
            && (outcome == Cycle <==> named && ledger == Some(true) && Near(links, parent, child, 32))
            && (outcome == Linked <==> named && ledger == Some(true) && !Near(links, parent, child, 32))
            && AfterLink(links, child, parent, ledger) == if outcome == Linked then links[child := parent] else links
  {
    SeesIsReach(links, parent, child, HOPS);
  }

  /** Unlinking takes away the child's own link, if it names a child, and no other. */
  lemma UnlinksAreExact(links: Links, child: string, id: string)
    ensures id in AfterUnlink(links, child) <==> id in links && (id != child || child == "")
    ensures id in AfterUnlink(links, child) ==> AfterUnlink(links, child)[id] == links[id]
  {
  }

  /** Ids are stored trimmed, with every character that is no letter, digit, dash, dot or underscore replaced by an
      underscore. */
  lemma SafeIdIsExact(id: string, i: nat)
    ensures |SafeId(id)| == |Trim(id)|
    ensures i < |Trim(id)| ==> SafeId(id)[i] == if Kept(Trim(id)[i] as int) then Trim(id)[i] else '_'
  {
  }

  predicate Kept(code: int) {
    97 <= code <= 122 || 65 <= code <= 90 || 48 <= code <= 57 || code == 45 || code == 46 || code == 95
  }

  ghost predicate NoShortCycle(links: Links, longest: nat) {
    forall id, k: nat :: 0 < k <= longest ==> Ancestor(links, id, k) != Some(id)
  }

  ghost predicate Acyclic(links: Links) {
    forall id, k: nat :: 0 < k ==> Ancestor(links, id, k) != Some(id)
  }

  ghost predicate Reaches(links: Links, from: string, to: string) {
    exists k: nat :: Ancestor(links, from, k) == Some(to)
  }

  /** Up to its first visit to the child, a walk does not notice where the child is linked to. */
  lemma {:induction false} SameUntil(links: Links, next: Links, child: string, parent: string, id: string, k: nat)
    requires next == links[child := parent]
    requires forall i: nat :: i < k ==> Ancestor(next, id, i) != Some(child)
    ensures Ancestor(next, id, k) == Ancestor(links, id, k)
  {
    if k > 0 {
      SameUntil(links, next, child, parent, id, k - 1);
      assert Ancestor(next, id, k - 1) != Some(child);
    }
  }

  lemma {:induction false} FirstVisit(links: Links, from: string, to: string, k: nat) returns (first: nat)
    requires Ancestor(links, from, k) == Some(to)
    ensures first <= k && Ancestor(links, from, first) == Some(to)
    ensures forall i: nat :: i < first ==> Ancestor(links, from, i) != Some(to)
  {
    first := k;
    if i: nat :| i < k && Ancestor(links, from, i) == Some(to) {
      first := FirstVisit(links, from, to, i);
    }
  }

  /** Turning a cycle so that it starts at another of its members. */
  lemma Rotate(links: Links, id: string, k: nat, i: nat, member: string)
    requires Ancestor(links, id, k) == Some(id) && Ancestor(links, id, i) == Some(member)
    ensures Ancestor(links, member, k) == Some(member)
  {
    WalkOn(links, id, i, k);
    WalkOn(links, id, k, i);
    assert i + k == k + i;
  }

  /** A cycle through the new link is a walk that already led from the parent to the child. */
  lemma CycleWasWalk(links: Links, child: string, parent: string, id: string, k: nat, i: nat) returns (j: nat)
    requires k > 0 && Ancestor(links[child := parent], id, k) == Some(id)
    requires i < k && Ancestor(links[child := parent], id, i) == Some(child)
    ensures j < k && Ancestor(links, parent, j) == Some(child)
  {
    var next := links[child := parent];
    Rotate(next, id, k, i, child);
    WalkOn(next, child, 1, k - 1);
    assert Ancestor(next, child, 1) == Some(parent);
    j := FirstVisit(next, parent, child, k - 1);
    SameUntil(links, next, child, parent, parent, j);
  }

  // ---------- What every store keeps ----------

  lemma LinkKeepsShortCyclesOut(links: Links, child: string, parent: string, ledger: Option<bool>)
    requires NoShortCycle(links, HOPS)
    ensures NoShortCycle(AfterLink(links, child, parent, ledger), HOPS)
  {
    var next := AfterLink(links, child, parent, ledger);
    if LinkOutcome(links, child, parent, ledger).Linked? {
      SeesIsReach(links, parent, child, HOPS);
      forall id, k: nat | 0 < k <= HOPS ensures Ancestor(next, id, k) != Some(id) {
        if Ancestor(next, id, k) == Some(id) {
          if i: nat :| i < k && Ancestor(next, id, i) == Some(child) {
            var j := CycleWasWalk(links, child, parent, id, k, i);
            assert false;
          } else {
            SameUntil(links, next, child, parent, id, k);
            assert false;
          }
        }
      }
    }
  }

  lemma {:induction false} FewerLinks(links: Links, child: string, id: string, k: nat)
    requires Ancestor(links - {child}, id, k).Some?
    ensures Ancestor(links - {child}, id, k) == Ancestor(links, id, k)
  {
    if k > 0 {
      FewerLinks(links, child, id, k - 1);
    }
  }

  lemma UnlinkKeepsShortCyclesOut(links: Links, child: string)
    requires NoShortCycle(links, HOPS)
    ensures NoShortCycle(AfterUnlink(links, child), HOPS)
  {
    forall id, k: nat | 0 < k <= HOPS ensures Ancestor(links - {child}, id, k) != Some(id) {
      if Ancestor(links - {child}, id, k).Some? {
        FewerLinks(links, child, id, k);
      }
    }
  }

  datatype Call = LinkCall(child: string, parent: string, ledger: Option<bool>) | UnlinkCall(child: string)

  /** The links after these calls, on a store that started with none. */
  function After(calls: seq<Call>): Links {
    if calls == [] then map[]
    else
      var links := After(calls[..|calls| - 1]);
      match calls[|calls| - 1]
      case LinkCall(child, parent, ledger) => AfterLink(links, SafeId(child), SafeId(parent), ledger)
      case UnlinkCall(child) => AfterUnlink(links, SafeId(child))
  }

  /** No store that can be reached has a cycle of 32 or fewer links. */
  lemma {:induction false} NoShortCycles(calls: seq<Call>)
    ensures NoShortCycle(After(calls), 32)
  {
    if calls == [] {
      forall id, k: nat | 0 < k <= HOPS ensures Ancestor(map[], id, k) != Some(id) {
        WalkOn(map[], id, 1, k - 1);
      }
    } else {
      NoShortCycles(calls[..|calls| - 1]);
      var links := After(calls[..|calls| - 1]);
      match calls[|calls| - 1] {
        case LinkCall(child, parent, ledger) => LinkKeepsShortCyclesOut(links, SafeId(child), SafeId(parent), ledger);
        case UnlinkCall(child) => UnlinkKeepsShortCyclesOut(links, SafeId(child));
      }
    }
  }

  lemma {:induction false} Pigeons(s: seq<string>, holes: set<string>) returns (i: nat, j: nat)
    requires |s| > |holes| && forall k :: 0 <= k < |s| ==> s[k] in holes
    ensures i < j < |s| && s[i] == s[j]
  {
    var last := s[|s| - 1];
    if k: nat :| k < |s| - 1 && s[k] == last {
      i, j := k, |s| - 1;
    } else {
      forall k | 0 <= k < |s| - 1 ensures s[k] in holes - {last} {
        assert s[k] in holes;
      }
      i, j := Pigeons(s[..|s| - 1], holes - {last});
    }
  }

  lemma {:induction false} WalkedThroughLinks(links: Links, id: string, k: nat, i: nat)
    requires Ancestor(links, id, k).Some? && i < k
    ensures Ancestor(links, id, i).Some? && Ancestor(links, id, i).value in links
  {
    if i < k - 1 {
      WalkedThroughLinks(links, id, k - 1, i);
    }
  }

  /** A walk longer than the number of links has closed a cycle no longer than that. */
  lemma LongWalkHasCycle(links: Links, id: string, k: nat) returns (member: string, length: nat)
    requires k > |links| && Ancestor(links, id, k).Some?
    ensures 0 < length <= |links| && Ancestor(links, member, length) == Some(member)
  {
    forall i | 0 <= i < k ensures Ancestor(links, id, i).Some? && Ancestor(links, id, i).value in links {
      WalkedThroughLinks(links, id, k, i);
    }
    var n := |links| + 1;
    var walk := seq(n, i requires 0 <= i < n => Ancestor(links, id, i).value);
    assert |links.Keys| == |links|;
    var i, j := Pigeons(walk, links.Keys);
    member, length := walk[i], j - i;
    WalkOn(links, id, i, j - i);
  }

  /** With at most 32 links every parent walk ends, within as many steps as there are links. */
  lemma FewLinksWalksEnd(calls: seq<Call>, id: string, k: nat)
    requires |After(calls)| <= 32 && k > |After(calls)|
    ensures Ancestor(After(calls), id, k).None?
  {
    if Ancestor(After(calls), id, k).Some? {
      NoShortCycles(calls);
      var member, length := LongWalkHasCycle(After(calls), id, k);
      assert false;
    }
  }

  // ---------- What the search misses ----------

  /** A link that was let in closes a cycle exactly when its parent already reached the child, which then was
      32 or more steps away. */
  lemma CyclesExactlyWhenFar(links: Links, child: string, parent: string, ledger: Option<bool>)
    requires Acyclic(links) && LinkOutcome(links, child, parent, ledger).Linked?
    ensures !Acyclic(AfterLink(links, child, parent, ledger)) <==> Reaches(links, parent, child)
    ensures forall k: nat :: Ancestor(links, parent, k) == Some(child) ==> k >= 32
  {
    var next := AfterLink(links, child, parent, ledger);
    SeesIsReach(links, parent, child, HOPS);
    if Reaches(links, parent, child) {
      var k: nat :| Ancestor(links, parent, k) == Some(child);
      var first := FirstVisit(links, parent, child, k);
      StillThere(links, child, parent, first);
      WalkOn(next, child, 1, first);
      assert Ancestor(next, child, 1) == Some(parent);
      assert Ancestor(next, child, 1 + first) == Some(child);
    }
    if !Acyclic(next) {
      var id, k: nat :| 0 < k && Ancestor(next, id, k) == Some(id);
      if i: nat :| i < k && Ancestor(next, id, i) == Some(child) {
        var j := CycleWasWalk(links, child, parent, id, k, i);
      } else {
        SameUntil(links, next, child, parent, id, k);
        assert false;
      }
    }
  }

  lemma {:induction false} StillThere(links: Links, child: string, parent: string, k: nat)
    requires forall i: nat :: i < k ==> Ancestor(links, parent, i) != Some(child)
    ensures Ancestor(links[child := parent], parent, k) == Ancestor(links, parent, k)
  {
    if k > 0 {
      StillThere(links, child, parent, k - 1);
      assert Ancestor(links, parent, k - 1) != Some(child);
    }
  }

  function Name(i: nat): (name: string)
    ensures |name| == i + 1
  {
    if i == 0 then "s" else Name(i - 1) + "s"
  }

  lemma {:induction false} NamesAreSafe(i: nat)
    ensures SafeId(Name(i)) == Name(i)
  {
    AllS(i);
    assert TrimStart(Name(i)) == Name(i);
    assert TrimEnd(Name(i)) == Name(i);
  }

  lemma {:induction false} AllS(i: nat)
    ensures forall j :: 0 <= j <= i ==> Name(i)[j] == 's'
  {
    if i > 0 {
      AllS(i - 1);
    }
  }

  /** Each of the first sessions continues the next. */
  ghost predicate IsChain(links: Links, n: nat) {
    && (forall i: nat :: i < n ==> Name(i) in links && links[Name(i)] == Name(i + 1))
    && (forall id :: id in links ==> |id| <= n)
  }

  lemma NextInChain(links: Links, n: nat)
    requires IsChain(links, n)
    ensures AfterLink(links, Name(n), Name(n + 1), Some(true)) == links[Name(n) := Name(n + 1)]
    ensures IsChain(links[Name(n) := Name(n + 1)], n + 1)
  {
    assert !Sees(links, Name(n + 1), Name(n), HOPS);
  }

  lemma OneCallMore(calls: seq<Call>, child: string, parent: string)
    requires SafeId(child) == child && SafeId(parent) == parent
    ensures After(calls + [LinkCall(child, parent, Some(true))])
         == AfterLink(After(calls), child, parent, Some(true))
  {
    assert (calls + [LinkCall(child, parent, Some(true))])[..|calls|] == calls;
  }

  lemma ChainGrows(calls: seq<Call>, n: nat)
    requires IsChain(After(calls), n)
    ensures IsChain(After(calls + [LinkCall(Name(n), Name(n + 1), Some(true))]), n + 1)
  {
    NamesAreSafe(n);
    NamesAreSafe(n + 1);
    OneCallMore(calls, Name(n), Name(n + 1));
    NextInChain(After(calls), n);
  }

  lemma {:induction false} ChainLinks(n: nat) returns (calls: seq<Call>)
    ensures IsChain(After(calls), n)
  {
    if n == 0 {
      calls := [];
    } else {
      calls := ChainLinks(n - 1);
      ChainGrows(calls, n - 1);
      calls := calls + [LinkCall(Name(n - 1), Name(n), Some(true))];
    }
  }

  lemma {:induction false} ChainWalk(links: Links, n: nat, k: nat)
    requires IsChain(links, n) && k <= n
    ensures Ancestor(links, Name(0), k) == Some(Name(k))
  {
    if k > 0 {
      ChainWalk(links, n, k - 1);
    }
  }

  /** A cycle of 33 links passes the check. */
  lemma LongCycleIsReachable() returns (calls: seq<Call>)
    ensures Ancestor(After(calls), Name(0), 33) == Some(Name(0))
  {
    var before := ChainLinks(HOPS);
    var links := After(before);
    calls := before + [LinkCall(Name(HOPS), Name(0), Some(true))];
    NamesAreSafe(HOPS);
    NamesAreSafe(0);
    OneCallMore(before, Name(HOPS), Name(0));
    SeesIsReach(links, Name(0), Name(HOPS), HOPS);
    forall k: nat | k < HOPS ensures Ancestor(links, Name(0), k) != Some(Name(HOPS)) {
      ChainWalk(links, HOPS, k);
    }
    ChainWalk(links, HOPS, HOPS);
    StillThere(links, Name(HOPS), Name(0), HOPS);
  }
}
