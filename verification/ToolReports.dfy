/** What the reducer returns of its open tool calls: how many there are, the first that is no question, and the first
    question with its id. The map itself stays inside. */
module ToolReports {
  import opened GateTypes
  import opened Lines
  import opened LineCounter
  import opened OpenTools
  import opened ReductionCache

  // ---------- The order of the map ----------

  predicate NotAfter(s: string, t: string) {
    s == "" || (t != "" && (s[0] < t[0] || (s[0] == t[0] && NotAfter(s[1..], t[1..]))))
  }

  lemma {:induction false} NotAfterItself(s: string)
    ensures NotAfter(s, s)
  {
    if s != "" {
      NotAfterItself(s[1..]);
    }
  }

  lemma {:induction false} NotAfterEitherWay(s: string, t: string)
    ensures NotAfter(s, t) || NotAfter(t, s)
  {
    if s != "" && t != "" && s[0] == t[0] {
      NotAfterEitherWay(s[1..], t[1..]);
    }
  }

  lemma {:induction false} NotAfterOnward(s: string, t: string, u: string)
    requires NotAfter(s, t) && NotAfter(t, u)
    ensures NotAfter(s, u)
  {
    if s != "" && s[0] == t[0] && t[0] == u[0] {
      NotAfterOnward(s[1..], t[1..], u[1..]);
    }
  }

  lemma {:induction false} NotAfterBothWays(s: string, t: string)
    requires NotAfter(s, t) && NotAfter(t, s)
    ensures s == t
  {
    if s != "" {
      NotAfterBothWays(s[1..], t[1..]);
      assert s == [s[0]] + s[1..] && t == [t[0]] + t[1..];
    }
  }

  ghost predicate IsFirst(keys: set<string>, id: string) {
    id in keys && forall other :: other in keys ==> NotAfter(id, other)
  }

  lemma {:induction false} SomeIsFirst(keys: set<string>) returns (id: string)
    requires keys != {}
    ensures IsFirst(keys, id)
  {
    var x :| x in keys;
    NotAfterItself(x);
    if keys == {x} {
      id := x;
    } else {
      var y := SomeIsFirst(keys - {x});
      NotAfterEitherWay(x, y);
      id := if NotAfter(x, y) then x else y;
      forall other | other in keys ensures NotAfter(id, other) {
        if other != x && id == x {
          NotAfterOnward(x, y, other);
        }
      }
    }
  }

  ghost function First(keys: set<string>): (id: string)
    requires keys != {}
    ensures IsFirst(keys, id)
  {
    assert exists id :: IsFirst(keys, id) by {
      var id := SomeIsFirst(keys);
    }
    var id :| IsFirst(keys, id);
    id
  }

  lemma FirstIs(keys: set<string>, id: string)
    requires IsFirst(keys, id)
    ensures First(keys) == id
  {
    NotAfterBothWays(First(keys), id);
  }

  // ---------- The report ----------

  /** `FromRest`: the state follows from the rest of the reducer and from whether any call is open. */
  datatype State = PendingQuestion(questions: seq<string>, id: string) | Working(openTools: nat) | FromRest

  datatype Pending = Pending(tool: string, target: Option<string>)

  datatype Report<R> = Report(openToolCount: nat, pending: Option<Pending>, state: State, rest: R)

  function Questions(open: map<string, OpenTool>): set<string> {
    set id | id in open && open[id].name == "AskUserQuestion"
  }

  function OtherTools(open: map<string, OpenTool>): set<string> {
    set id | id in open && open[id].name != "AskUserQuestion"
  }

  ghost function PendingOf(open: map<string, OpenTool>): Option<Pending> {
    if OtherTools(open) == {} then None
    else
      var tool := open[First(OtherTools(open))];
      Some(Pending(tool.name, tool.target))
  }

  /** A question without questions to ask shows no id. */
  ghost function StateOf(open: map<string, OpenTool>): State {
    if Questions(open) == {} then FromRest
    else
      var id := First(Questions(open));
      if open[id].questions != [] then PendingQuestion(open[id].questions, id) else Working(Min(|open|, 0xFFFF))
  }

  ghost function ReportOf<R>(c: Core<R>): Report<R> {
    Report(|c.open|, PendingOf(c.open), StateOf(c.open), c.rest)
  }

  // ---------- Made-up names, renamed ----------

  /** A name made up at line `j` becomes the one made up as many lines later as there were early reductions. */
  ghost function Rename(early: seq<bool>, id: string): string {
    if exists j: nat, b: nat :: j < |early| && id == MadeUp(j, b) then
      var j: nat, b: nat :| j < |early| && id == MadeUp(j, b);
      MadeUp(j + Earlies(early, j), b)
    else id
  }

  lemma RenameMadeUp(early: seq<bool>, j: nat, b: nat)
    requires j < |early|
    ensures Rename(early, MadeUp(j, b)) == MadeUp(j + Earlies(early, j), b)
  {
    var id := MadeUp(j, b);
    assert exists i: nat, c: nat :: i < |early| && id == MadeUp(i, c);
    var i: nat, c: nat :| i < |early| && id == MadeUp(i, c) && Rename(early, id) == MadeUp(i + Earlies(early, i), c);
    MadeUpIsInjective(j, b, i, c);
  }

  lemma RenameGenuine(early: seq<bool>, id: string)
    requires Genuine(id)
    ensures Rename(early, id) == id
  {
    forall j: nat, b: nat ensures id != MadeUp(j, b) {
      MadeUpIsNotGenuine(j, b);
    }
  }

  ghost predicate Named(id: string, line: nat) {
    Genuine(id) || MadeUpBefore(id, line)
  }

  lemma {:induction false} EarliesGrow(early: seq<bool>, i: nat, j: nat)
    requires i <= j <= |early|
    ensures Earlies(early, i) <= Earlies(early, j)
  {
    if i < j {
      EarliesGrow(early, i, j - 1);
    }
  }

  lemma RenameKeepsKind(early: seq<bool>, id: string)
    requires Named(id, |early|)
    ensures Genuine(Rename(early, id)) <==> Genuine(id)
  {
    if Genuine(id) {
      RenameGenuine(early, id);
    } else {
      var j: nat, b: nat :| j < |early| && id == MadeUp(j, b);
      RenameMadeUp(early, j, b);
      MadeUpIsNotGenuine(j + Earlies(early, j), b);
    }
  }

  lemma RenamedLines(early: seq<bool>, i: nat, b: nat, j: nat, c: nat)
    requires i < |early| && j < |early|
    requires MadeUp(i + Earlies(early, i), b) == MadeUp(j + Earlies(early, j), c)
    ensures i == j && b == c
  {
    MadeUpIsInjective(i + Earlies(early, i), b, j + Earlies(early, j), c);
    if i <= j {
      EarliesGrow(early, i, j);
    } else {
      EarliesGrow(early, j, i);
    }
  }

  lemma RenameIsInjective(early: seq<bool>, x: string, y: string)
    requires Named(x, |early|) && Named(y, |early|) && Rename(early, x) == Rename(early, y)
    ensures x == y
  {
    RenameKeepsKind(early, x);
    RenameKeepsKind(early, y);
    if Genuine(x) {
      RenameGenuine(early, x);
      RenameGenuine(early, y);
    } else {
      var i: nat, b: nat :| i < |early| && x == MadeUp(i, b);
      var j: nat, c: nat :| j < |early| && y == MadeUp(j, c);
      RenameMadeUp(early, i, b);
      RenameMadeUp(early, j, c);
      RenamedLines(early, i, b, j, c);
    }
  }

  ghost function Renamed(early: seq<bool>, ids: set<string>): set<string> {
    set id | id in ids :: Rename(early, id)
  }

  /** The same calls, each under its new name. */
  ghost predicate IsRenaming(early: seq<bool>, plain: map<string, OpenTool>, fed: map<string, OpenTool>) {
    && fed.Keys == Renamed(early, plain.Keys)
    && forall id :: id in plain ==> Rename(early, id) in fed && fed[Rename(early, id)] == plain[id]
  }

  lemma InsertRenamed(early: seq<bool>, plain: map<string, OpenTool>, fed: map<string, OpenTool>, id: string,
                      tool: OpenTool)
    requires IsRenaming(early, plain, fed) && NamedBefore(plain, |early|) && Named(id, |early|)
    ensures IsRenaming(early, plain[id := tool], fed[Rename(early, id) := tool])
  {
    forall x | x in plain[id := tool]
      ensures Rename(early, x) in fed[Rename(early, id) := tool]
      ensures fed[Rename(early, id) := tool][Rename(early, x)] == plain[id := tool][x]
    {
      if x != id && Rename(early, x) == Rename(early, id) {
        RenameIsInjective(early, x, id);
      }
    }
    assert plain[id := tool].Keys == plain.Keys + {id};
    assert Renamed(early, plain.Keys + {id}) == Renamed(early, plain.Keys) + {Rename(early, id)};
  }

  lemma RemoveRenamed(early: seq<bool>, plain: map<string, OpenTool>, fed: map<string, OpenTool>, id: string)
    requires IsRenaming(early, plain, fed) && NamedBefore(plain, |early|) && Genuine(id)
    ensures IsRenaming(early, plain - {id}, fed - {id})
  {
    RenameGenuine(early, id);
    forall x | x in plain && x != id ensures Rename(early, x) != id {
      if Rename(early, x) == id {
        RenameIsInjective(early, x, id);
      }
    }
    assert (plain - {id}).Keys == plain.Keys - {id} && (fed - {id}).Keys == fed.Keys - {id};
    assert Renamed(early, plain.Keys - {id}) == Renamed(early, plain.Keys) - {id};
  }

  lemma OpenedAreNamed(open: map<string, OpenTool>, line: nat, blocks: seq<Block>, n: nat)
    requires NamedBefore(open, line) && GenuineIds(Calls(blocks)) && n <= |blocks|
    ensures NamedBefore(Opened(open, line, blocks, n), line + 1)
  {
    forall id | id in Opened(open, line, blocks, n) ensures Named(id, line + 1) {
      OpenedNames(open, line, blocks, n, id);
    }
  }

  lemma NamedLater(open: map<string, OpenTool>, line: nat, later: nat)
    requires NamedBefore(open, line) && line <= later
    ensures NamedBefore(open, later)
  {
    forall id | id in open ensures Named(id, later) {
      assert Named(id, line);
    }
  }

  lemma BlockRenamed(early: seq<bool>, plain: map<string, OpenTool>, fed: map<string, OpenTool>, b: Block, k: nat,
                     n: nat)
    requires k < |early| && IsRenaming(early, plain, fed) && NamedBefore(plain, |early|)
    requires b.Use? && (Anonymous(b) || Genuine(b.id.value))
    ensures IsRenaming(early, plain[NameOf(b, k, n) := b.tool], fed[NameOf(b, k + Earlies(early, k), n) := b.tool])
  {
    var id, id' := NameOf(b, k, n), NameOf(b, k + Earlies(early, k), n);
    assert Named(id, |early|) && id' == Rename(early, id) by {
      NameRenamed(early, b, k, n);
    }
    InsertRenamed(early, plain, fed, id, b.tool);
  }

  lemma BlockOpensRenamed(early: seq<bool>, open: map<string, OpenTool>, plain: map<string, OpenTool>,
                          fed: map<string, OpenTool>, k: nat, blocks: seq<Block>, n: nat)
    requires k < |early| && n < |blocks| && blocks[n].Use? && GenuineIds(Calls(blocks))
    requires NamedBefore(open, k) && plain == Opened(open, k, blocks, n) && IsRenaming(early, plain, fed)
    ensures IsRenaming(early, plain[NameOf(blocks[n], k, n) := blocks[n].tool],
                       fed[NameOf(blocks[n], k + Earlies(early, k), n) := blocks[n].tool])
  {
    OpenedAreNamed(open, k, blocks, n);
    NamedLater(plain, k + 1, |early|);
    BlockRenamed(early, plain, fed, blocks[n], k, n);
  }

  lemma {:induction false} OpenedRenamed(early: seq<bool>, plain: map<string, OpenTool>, fed: map<string, OpenTool>,
                                         k: nat, blocks: seq<Block>, n: nat)
    requires k < |early| && IsRenaming(early, plain, fed) && NamedBefore(plain, k)
    requires GenuineIds(Calls(blocks)) && n <= |blocks|
    ensures IsRenaming(early, Opened(plain, k, blocks, n), Opened(fed, k + Earlies(early, k), blocks, n))
  {
    if n > 0 {
      OpenedRenamed(early, plain, fed, k, blocks, n - 1);
      if blocks[n - 1].Use? {
        BlockOpensRenamed(early, plain, Opened(plain, k, blocks, n - 1), Opened(fed, k + Earlies(early, k), blocks, n - 1),
                          k, blocks, n - 1);
      }
    }
  }

  lemma NameRenamed(early: seq<bool>, b: Block, k: nat, n: nat)
    requires k < |early| && b.Use? && (Anonymous(b) || Genuine(b.id.value))
    ensures Rename(early, NameOf(b, k, n)) == NameOf(b, k + Earlies(early, k), n)
    ensures Named(NameOf(b, k, n), |early|)
  {
    if Anonymous(b) {
      RenameMadeUp(early, k, n);
      assert MadeUpBefore(MadeUp(k, n), |early|);
    } else {
      RenameGenuine(early, b.id.value);
    }
  }

  ghost predicate GenuineResults(record: Record) {
    record.Results? ==> forall i :: 0 <= i < |record.ids| && record.ids[i].Some? ==> Genuine(record.ids[i].value)
  }

  lemma {:induction false} ClosedRenamed(early: seq<bool>, plain: map<string, OpenTool>, fed: map<string, OpenTool>,
                                         ids: seq<Option<string>>, n: nat)
    requires IsRenaming(early, plain, fed) && NamedBefore(plain, |early|) && GenuineResults(Results(ids)) && n <= |ids|
    ensures IsRenaming(early, Closed(plain, ids, n), Closed(fed, ids, n))
    ensures NamedBefore(Closed(plain, ids, n), |early|)
  {
    if n > 0 {
      ClosedRenamed(early, plain, fed, ids, n - 1);
      if ids[n - 1].Some? {
        RemoveRenamed(early, Closed(plain, ids, n - 1), Closed(fed, ids, n - 1), ids[n - 1].value);
      }
    }
  }

  lemma RecordRenamed(early: seq<bool>, plain: map<string, OpenTool>, fed: map<string, OpenTool>, k: nat,
                      record: Record)
    requires k < |early| && IsRenaming(early, plain, fed) && NamedBefore(plain, k)
    requires GenuineIds(record) && GenuineResults(record)
    ensures IsRenaming(early, OpenAfter(plain, k, record), OpenAfter(fed, k + Earlies(early, k), record))
  {
    match record
    case Calls(blocks) => OpenedRenamed(early, plain, fed, k, blocks, |blocks|);
    case Results(ids) => NamedLater(plain, k, |early|); ClosedRenamed(early, plain, fed, ids, |ids|);
    case NoTools =>
  }

  // ---------- Whole transcripts ----------

  /** Neither calls nor results carry ids that could pass for made-up names. */
  ghost predicate NoForgery<R>(m: Reading<R>, records: seq<Bytes>) {
    AllGenuine(m, records) && forall k :: 0 <= k < |records| ==> GenuineResults(m.parse(records[k]))
  }

  /** The same calls under new names, and the same rest. */
  ghost predicate CoreRenamed<R>(early: seq<bool>, plain: Core<R>, fed: Core<R>) {
    IsRenaming(early, plain.open, fed.open) && fed.rest == plain.rest
  }

  lemma TakenRenamed<R>(m: Reading<R>, early: seq<bool>, plain: Core<R>, fed: Core<R>, k: nat, text: Bytes)
    requires k < |early| && CoreRenamed(early, plain, fed) && NamedBefore(plain.open, k)
    requires GenuineIds(m.parse(text)) && GenuineResults(m.parse(text))
    ensures CoreRenamed(early, Taken(m, plain, k, text), Taken(m, fed, k + Earlies(early, k), text))
  {
    RecordRenamed(early, plain.open, fed.open, k, m.parse(text));
  }

  lemma Onward<R>(m: Reading<R>, records: seq<Bytes>, early: seq<bool>, k: nat)
    requires k < |records| == |early|
    ensures Plainly(EffectsOf(m), records, k + 1) == Taken(m, Plainly(EffectsOf(m), records, k), k, records[k])
    ensures Shifted(EffectsOf(m), records, early, k + 1)
         == Taken(m, Shifted(EffectsOf(m), records, early, k), k + Earlies(early, k), records[k])
  {
  }

  lemma CoreOnward<R>(m: Reading<R>, records: seq<Bytes>, early: seq<bool>, k: nat, plain: Core<R>, fed: Core<R>)
    requires k < |records| == |early| && CoreRenamed(early, plain, fed) && NamedBefore(plain.open, k)
    requires GenuineIds(m.parse(records[k])) && GenuineResults(m.parse(records[k]))
    requires plain == Plainly(EffectsOf(m), records, k) && fed == Shifted(EffectsOf(m), records, early, k)
    ensures CoreRenamed(early, Plainly(EffectsOf(m), records, k + 1), Shifted(EffectsOf(m), records, early, k + 1))
  {
    TakenRenamed(m, early, plain, fed, k, records[k]);
    Onward(m, records, early, k);
  }

  /** After each of the first `k` records. */
  ghost predicate RenamedThrough<R>(m: Reading<R>, records: seq<Bytes>, early: seq<bool>, k: nat)
    requires k <= |records| == |early|
  {
    && CoreRenamed(early, Plainly(EffectsOf(m), records, k), Shifted(EffectsOf(m), records, early, k))
    && (k > 0 ==> RenamedThrough(m, records, early, k - 1))
  }

  lemma RenamedOnward<R>(m: Reading<R>, records: seq<Bytes>, early: seq<bool>, k: nat)
    requires NoForgery(m, records) && k < |records| == |early| && RenamedThrough(m, records, early, k)
    ensures RenamedThrough(m, records, early, k + 1)
  {
    PlainNames(m, records, k);
    CoreOnward(m, records, early, k, Plainly(EffectsOf(m), records, k), Shifted(EffectsOf(m), records, early, k));
  }

  lemma {:induction false} CoreIsRenamed<R>(m: Reading<R>, records: seq<Bytes>, early: seq<bool>, k: nat)
    requires NoForgery(m, records) && k <= |records| == |early|
    ensures RenamedThrough(m, records, early, k)
  {
    if k > 0 {
      CoreIsRenamed(m, records, early, k - 1);
      RenamedOnward(m, records, early, k - 1);
    }
  }

  /** What the incremental reduction and one pass hold after the first `k` records. */
  function FedCore<R>(m: Reading<R>, records: seq<Bytes>, early: seq<bool>, k: nat): Core<R>
    requires k <= |records| == |early|
  {
    Fed(EffectsOf(m), records, early, k).reducer.core
  }

  function PassCore<R>(m: Reading<R>, records: seq<Bytes>, k: nat): Core<R>
    requires k <= |records|
  {
    Reduction(CountedReader(EffectsOf(m)), Unlines(records[..k])).core
  }

  /** For any transcript without forged ids, any early reductions and any call: the incremental reduction holds the
      same open calls as one pass, with each made-up name moved by the early reductions before its line. */
  lemma FedIsRenaming<R(!new)>(m: Reading<R>, records: seq<Bytes>, early: seq<bool>, k: nat)
    requires Json(EffectsOf(m)) && AllPlain(EffectsOf(m), records) && NoForgery(m, records)
    requires k <= |records| == |early|
    ensures IsRenaming(early, PassCore(m, records, k).open, FedCore(m, records, early, k).open)
    ensures FedCore(m, records, early, k).rest == PassCore(m, records, k).rest
    ensures NamedBefore(PassCore(m, records, k).open, |early|)
  {
    CoresAgree(EffectsOf(m), records, early, k);
    CoreIsRenamed(m, records, early, k);
    PlainNames(m, records, k);
    NamedLater(PassCore(m, records, k).open, k, |early|);
  }

  // ---------- What of it shows ----------

  lemma {:induction false} RenamedCount(early: seq<bool>, ids: set<string>)
    requires forall id :: id in ids ==> Named(id, |early|)
    ensures |Renamed(early, ids)| == |ids|
  {
    if ids == {} {
      assert Renamed(early, ids) == {};
    } else {
      var x :| x in ids;
      RenamedCount(early, ids - {x});
      if Rename(early, x) in Renamed(early, ids - {x}) {
        var y :| y in ids - {x} && Rename(early, y) == Rename(early, x);
        RenameIsInjective(early, y, x);
        assert false;
      }
      assert Renamed(early, ids) == Renamed(early, ids - {x}) + {Rename(early, x)};
    }
  }

  lemma RenamingCounts(early: seq<bool>, plain: map<string, OpenTool>, fed: map<string, OpenTool>)
    requires IsRenaming(early, plain, fed) && NamedBefore(plain, |early|)
    ensures |fed| == |plain|
  {
    forall id | id in plain.Keys ensures Named(id, |early|) {
    }
    RenamedCount(early, plain.Keys);
    assert |fed.Keys| == |fed| && |plain.Keys| == |plain|;
  }

  /** The renaming moves no name past another. */
  ghost predicate OrderKept(early: seq<bool>, ids: set<string>) {
    forall x, y :: x in ids && y in ids && NotAfter(x, y) ==> NotAfter(Rename(early, x), Rename(early, y))
  }

  lemma FirstRenamed(early: seq<bool>, ids: set<string>, all: set<string>)
    requires ids != {} && ids <= all && OrderKept(early, all)
    ensures Renamed(early, ids) != {} && First(Renamed(early, ids)) == Rename(early, First(ids))
  {
    var id := First(ids);
    assert Rename(early, id) in Renamed(early, ids);
    forall other | other in Renamed(early, ids) ensures NotAfter(Rename(early, id), other) {
      var x :| x in ids && Rename(early, x) == other;
      assert NotAfter(id, x);
    }
    FirstIs(Renamed(early, ids), Rename(early, id));
  }

  lemma ToolsRenamed(early: seq<bool>, plain: map<string, OpenTool>, fed: map<string, OpenTool>)
    requires IsRenaming(early, plain, fed)
    ensures Questions(fed) == Renamed(early, Questions(plain))
    ensures OtherTools(fed) == Renamed(early, OtherTools(plain))
  {
    forall id | id in fed
      ensures id in Questions(fed) <==> id in Renamed(early, Questions(plain))
      ensures id in OtherTools(fed) <==> id in Renamed(early, OtherTools(plain))
    {
      assert id in Renamed(early, plain.Keys);
      var x :| x in plain && Rename(early, x) == id;
      assert fed[id] == plain[x];
    }
    forall x | x in plain ensures Rename(early, x) in fed {
    }
  }

  ghost predicate Late(early: seq<bool>, id: string) {
    exists j: nat, b: nat :: j < |early| && id == MadeUp(j, b) && Earlies(early, j) > 0
  }

  lemma MadeUpIsLateExactly(early: seq<bool>, j: nat, b: nat)
    requires j < |early|
    ensures Late(early, MadeUp(j, b)) <==> Earlies(early, j) > 0
  {
    forall i: nat, c: nat | MadeUp(j, b) == MadeUp(i, c) ensures i == j {
      MadeUpIsInjective(j, b, i, c);
    }
  }

  lemma MovedExactly(j: nat, late: nat, b: nat)
    ensures MadeUp(j + late, b) == MadeUp(j, b) <==> late == 0
  {
    if MadeUp(j + late, b) == MadeUp(j, b) {
      MadeUpIsInjective(j + late, b, j, b);
    }
  }

  lemma RenameMovesLate(early: seq<bool>, id: string)
    requires Named(id, |early|)
    ensures Rename(early, id) == id <==> !Late(early, id)
  {
    if Genuine(id) {
      RenameGenuine(early, id);
      forall j: nat, b: nat ensures id != MadeUp(j, b) {
        MadeUpIsNotGenuine(j, b);
      }
    } else {
      var j: nat, b: nat :| j < |early| && id == MadeUp(j, b);
      RenameMadeUp(early, j, b);
      MadeUpIsLateExactly(early, j, b);
      MovedExactly(j, Earlies(early, j), b);
    }
  }

  /** The question shown was asked without an id after an early reduction. */
  ghost predicate LateQuestion(early: seq<bool>, open: map<string, OpenTool>) {
    StateOf(open).PendingQuestion? && Late(early, StateOf(open).id)
  }

  lemma StatesAgreeExactly(early: seq<bool>, plain: map<string, OpenTool>, fed: map<string, OpenTool>)
    requires IsRenaming(early, plain, fed) && NamedBefore(plain, |early|) && OrderKept(early, plain.Keys)
    ensures StateOf(fed) == StateOf(plain) <==> !LateQuestion(early, plain)
  {
    ToolsRenamed(early, plain, fed);
    RenamingCounts(early, plain, fed);
    if Questions(plain) != {} {
      FirstRenamed(early, Questions(plain), plain.Keys);
      RenameMovesLate(early, First(Questions(plain)));
    }
  }

  lemma PendingAgrees(early: seq<bool>, plain: map<string, OpenTool>, fed: map<string, OpenTool>)
    requires IsRenaming(early, plain, fed) && OrderKept(early, plain.Keys)
    ensures PendingOf(fed) == PendingOf(plain)
  {
    ToolsRenamed(early, plain, fed);
    if OtherTools(plain) != {} {
      FirstRenamed(early, OtherTools(plain), plain.Keys);
    }
  }

  lemma PrefixGrows(id: string, prefix: string)
    requires id != "" && prefix != "" && id[0] == prefix[0] && prefix[1..] <= id[1..]
    ensures prefix <= id
  {
    assert id == [id[0]] + id[1..] && prefix == [prefix[0]] + prefix[1..];
  }

  /** Names that are not made up stand where they stood among names that are. */
  lemma {:induction false} PrefixOrder(id: string, prefix: string, s: string, t: string)
    requires !(prefix <= id)
    ensures NotAfter(id, prefix + s) <==> NotAfter(id, prefix + t)
    ensures NotAfter(prefix + s, id) <==> NotAfter(prefix + t, id)
  {
    if id != "" && id[0] == prefix[0] {
      assert !(prefix[1..] <= id[1..]) by {
        if prefix[1..] <= id[1..] { PrefixGrows(id, prefix); }
      }
      PrefixOrder(id[1..], prefix[1..], s, t);
      assert (prefix + s)[1..] == prefix[1..] + s && (prefix + t)[1..] == prefix[1..] + t;
    }
  }

  ghost predicate OneMadeUp(ids: set<string>) {
    forall x, y :: x in ids && y in ids && !Genuine(x) && !Genuine(y) ==> x == y
  }

  lemma OneMadeUpKeepsOrder(early: seq<bool>, ids: set<string>)
    requires OneMadeUp(ids) && forall id :: id in ids ==> Named(id, |early|)
    ensures OrderKept(early, ids)
  {
    forall x, y | x in ids && y in ids && NotAfter(x, y) ensures NotAfter(Rename(early, x), Rename(early, y)) {
      if x == y {
        NotAfterItself(Rename(early, x));
      } else if Genuine(x) && Genuine(y) {
        RenameGenuine(early, x);
        RenameGenuine(early, y);
      } else if Genuine(x) {
        GenuineAmongMadeUp(early, x, y);
      } else {
        assert Genuine(y);
        GenuineAmongMadeUp(early, y, x);
      }
    }
  }

  lemma GenuineAmongMadeUp(early: seq<bool>, id: string, name: string)
    requires Genuine(id) && MadeUpBefore(name, |early|)
    ensures Rename(early, id) == id
    ensures NotAfter(id, Rename(early, name)) <==> NotAfter(id, name)
    ensures NotAfter(Rename(early, name), id) <==> NotAfter(name, id)
  {
    var j: nat, b: nat :| j < |early| && name == MadeUp(j, b);
    RenameGenuine(early, id);
    RenameMadeUp(early, j, b);
    PrefixOrder(id, "missing:", name[8..], Rename(early, name)[8..]);
    assert "missing:" + name[8..] == name && "missing:" + Rename(early, name)[8..] == Rename(early, name);
  }

  // ---------- Reports of whole transcripts ----------

  /** However many calls were made without an id, and whenever: both always report the same number of open calls. */
  lemma CountsAgree<R(!new)>(m: Reading<R>, records: seq<Bytes>, early: seq<bool>, k: nat)
    requires Json(EffectsOf(m)) && AllPlain(EffectsOf(m), records) && NoForgery(m, records)
    requires k <= |records| == |early|
    ensures ReportOf(FedCore(m, records, early, k)).openToolCount == ReportOf(PassCore(m, records, k)).openToolCount
  {
    FedIsRenaming(m, records, early, k);
    RenamingCounts(early, PassCore(m, records, k).open, FedCore(m, records, early, k).open);
  }

  /** While the made-up names keep their places in the map, the incremental reduction returns what one pass returns
      if and only if the question shown, if any, was not asked without an id after an early reduction. */
  lemma ReportsAgreeInOrder<R(!new)>(m: Reading<R>, records: seq<Bytes>, early: seq<bool>, k: nat)
    requires Json(EffectsOf(m)) && AllPlain(EffectsOf(m), records) && NoForgery(m, records)
    requires k <= |records| == |early| && OrderKept(early, PassCore(m, records, k).open.Keys)
    ensures ReportOf(FedCore(m, records, early, k)) == ReportOf(PassCore(m, records, k))
       <==> !LateQuestion(early, PassCore(m, records, k).open)
  {
    var plain, fed := PassCore(m, records, k).open, FedCore(m, records, early, k).open;
    FedIsRenaming(m, records, early, k);
    RenamingCounts(early, plain, fed);
    PendingAgrees(early, plain, fed);
    StatesAgreeExactly(early, plain, fed);
  }

  /** So it is whenever at most one call without an id is open. */
  lemma ReportsAgreeExactly<R(!new)>(m: Reading<R>, records: seq<Bytes>, early: seq<bool>, k: nat)
    requires Json(EffectsOf(m)) && AllPlain(EffectsOf(m), records) && NoForgery(m, records)
    requires k <= |records| == |early| && OneMadeUp(PassCore(m, records, k).open.Keys)
    ensures ReportOf(FedCore(m, records, early, k)) == ReportOf(PassCore(m, records, k))
       <==> !LateQuestion(early, PassCore(m, records, k).open)
  {
    FedIsRenaming(m, records, early, k);
    OneMadeUpKeepsOrder(early, PassCore(m, records, k).open.Keys);
    ReportsAgreeInOrder(m, records, early, k);
  }

  /** If no call without an id follows an early reduction, everything returned is what one pass returns. */
  lemma NoLateAnonymousIsTransparent<R(!new)>(m: Reading<R>, records: seq<Bytes>, early: seq<bool>, k: nat)
    requires Json(EffectsOf(m)) && AllPlain(EffectsOf(m), records) && AllGenuine(m, records)
    requires k <= |records| == |early| && NoLateAnonymous(m, records, early)
    ensures ReportOf(FedCore(m, records, early, k)) == ReportOf(PassCore(m, records, k))
  {
    ToolsAgreeExactly(m, records, early);
    assert AgreesAt(EffectsOf(m), records, early, k);
  }

  // ---------- Examples ----------

  lemma OneCallOpens(line: nat, tool: OpenTool)
    ensures OpenAfter(map[], line, Calls([Use(None, tool)])) == map[MadeUp(line, 0) := tool]
  {
    assert Opened(map[], line, [Use(None, tool)], 0) == map[];
  }

  lemma {:induction false} QuietStart<R>(m: Reading<R>, records: seq<Bytes>, early: seq<bool>, k: nat)
    requires k <= |records| == |early| && forall i :: 0 <= i < k ==> m.parse(records[i]) == NoTools
    ensures Plainly(EffectsOf(m), records, k).open == map[] == Shifted(EffectsOf(m), records, early, k).open
  {
    if k > 0 {
      QuietStart(m, records, early, k - 1);
    }
  }

  /** A silent record, an early reduction, and one call without an id. */
  lemma SecondCall<R(!new)>(m: Reading<R>, a: Bytes, b: Bytes, tool: OpenTool)
    requires Json(EffectsOf(m)) && Plain(EffectsOf(m), a) && Plain(EffectsOf(m), b)
    requires m.parse(a) == NoTools && m.parse(b) == Calls([Use(None, tool)])
    ensures FedCore(m, [a, b], [true, false], 2).open == map[MadeUp(2, 0) := tool]
    ensures PassCore(m, [a, b], 2).open == map[MadeUp(1, 0) := tool]
    ensures FedCore(m, [a, b], [true, false], 2).rest == PassCore(m, [a, b], 2).rest
  {
    var e := EffectsOf(m);
    CoresAgree(e, [a, b], [true, false], 2);
    QuietStart(m, [a, b], [true, false], 1);
    OneCallOpens(1, tool);
    OneCallOpens(2, tool);
    assert Earlies([true, false], 1) == 1;
    SameRest(m, [a, b], [true, false], 2);
  }

  lemma {:induction false} SameRest<R>(m: Reading<R>, records: seq<Bytes>, early: seq<bool>, k: nat)
    requires k <= |records| == |early|
    ensures Shifted(EffectsOf(m), records, early, k).rest == Plainly(EffectsOf(m), records, k).rest
  {
    if k > 0 {
      SameRest(m, records, early, k - 1);
    }
  }

  lemma OnlyOneIsFirst(open: map<string, OpenTool>, id: string, tool: OpenTool)
    requires open == map[id := tool]
    ensures tool.name == "AskUserQuestion" ==> Questions(open) == {id} && OtherTools(open) == {} && First({id}) == id
    ensures tool.name != "AskUserQuestion" ==> Questions(open) == {} && OtherTools(open) == {id} && First({id}) == id
  {
    NotAfterItself(id);
    FirstIs({id}, id);
  }

  lemma MadeUpNames()
    ensures MadeUp(1, 0) == "missing:1:0" && MadeUp(2, 0) == "missing:2:0"
  {
  }

  /** A question asked without an id after an early reduction is shown under another id than in one pass. */
  lemma QuestionIsRenamed<R(!new)>(m: Reading<R>, a: Bytes, b: Bytes, question: OpenTool)
    requires Json(EffectsOf(m)) && Plain(EffectsOf(m), a) && Plain(EffectsOf(m), b)
    requires m.parse(a) == NoTools && m.parse(b) == Calls([Use(None, question)])
    requires question.name == "AskUserQuestion" && question.questions != []
    ensures ReportOf(FedCore(m, [a, b], [true, false], 2)).state == PendingQuestion(question.questions, "missing:2:0")
    ensures ReportOf(PassCore(m, [a, b], 2)).state == PendingQuestion(question.questions, "missing:1:0")
  {
    SecondCall(m, a, b, question);
    OnlyOneIsFirst(FedCore(m, [a, b], [true, false], 2).open, MadeUp(2, 0), question);
    OnlyOneIsFirst(PassCore(m, [a, b], 2).open, MadeUp(1, 0), question);
    MadeUpNames();
  }

  /** A question with nothing to ask shows no id, wherever it is asked. */
  lemma EmptyQuestionIsWork<R(!new)>(m: Reading<R>, a: Bytes, b: Bytes, question: OpenTool)
    requires Json(EffectsOf(m)) && Plain(EffectsOf(m), a) && Plain(EffectsOf(m), b)
    requires m.parse(a) == NoTools && m.parse(b) == Calls([Use(None, question)])
    requires question.name == "AskUserQuestion" && question.questions == []
    ensures ReportOf(FedCore(m, [a, b], [true, false], 2)).state == Working(1)
    ensures ReportOf(PassCore(m, [a, b], 2)).state == Working(1)
  {
    SecondCall(m, a, b, question);
    OnlyOneIsFirst(FedCore(m, [a, b], [true, false], 2).open, MadeUp(2, 0), question);
    OnlyOneIsFirst(PassCore(m, [a, b], 2).open, MadeUp(1, 0), question);
  }

  /** Any other call made so is held under another name, and reported alike. */
  lemma ToolIsReportedAlike<R(!new)>(m: Reading<R>, a: Bytes, b: Bytes, tool: OpenTool)
    requires Json(EffectsOf(m)) && Plain(EffectsOf(m), a) && Plain(EffectsOf(m), b)
    requires m.parse(a) == NoTools && m.parse(b) == Calls([Use(None, tool)]) && tool.name != "AskUserQuestion"
    ensures FedCore(m, [a, b], [true, false], 2) != PassCore(m, [a, b], 2)
    ensures ReportOf(FedCore(m, [a, b], [true, false], 2)) == ReportOf(PassCore(m, [a, b], 2))
  {
    SecondCall(m, a, b, tool);
    OnlyOneIsFirst(FedCore(m, [a, b], [true, false], 2).open, MadeUp(2, 0), tool);
    OnlyOneIsFirst(PassCore(m, [a, b], 2).open, MadeUp(1, 0), tool);
    MadeUpNames();
    assert MadeUp(1, 0) !in map[MadeUp(2, 0) := tool];
  }

  lemma {:induction false} SamePrefix(prefix: string, s: string, t: string)
    ensures NotAfter(prefix + s, prefix + t) <==> NotAfter(s, t)
  {
    if prefix == "" {
      assert prefix + s == s && prefix + t == t;
    } else {
      SamePrefix(prefix[1..], s, t);
      assert (prefix + s)[1..] == prefix[1..] + s && (prefix + t)[1..] == prefix[1..] + t;
    }
  }

  lemma TenBeforeNine(n: nat)
    requires n == 9
    ensures NotAfter(MadeUp(n + 1, 0), MadeUp(n, 0)) && NotAfter(MadeUp(n + 1, 0), MadeUp(n + 2, 0))
    ensures MadeUp(n, 0) != MadeUp(n + 1, 0) && MadeUp(n + 1, 0) != MadeUp(n + 2, 0)
  {
    assert MadeUp(9, 0) == "missing:" + "9:0" && MadeUp(10, 0) == "missing:" + "10:0" && MadeUp(11, 0) == "missing:" + "11:0";
    SamePrefix("missing:", "10:0", "9:0");
    SamePrefix("missing:", "10:0", "11:0");
    assert "10:0"[1..] == "0:0" && "11:0"[1..] == "1:0";
    if MadeUp(10, 0) == MadeUp(9, 0) {
      MadeUpIsInjective(10, 0, 9, 0);
    }
    if MadeUp(10, 0) == MadeUp(11, 0) {
      MadeUpIsInjective(10, 0, 11, 0);
    }
  }

  lemma FirstOfTwo(open: map<string, OpenTool>, first: string, other: string, x: OpenTool, y: OpenTool)
    requires open == map[first := x, other := y] && first != other && NotAfter(first, other)
    requires x.name != "AskUserQuestion" && y.name != "AskUserQuestion"
    ensures PendingOf(open) == Some(Pending(x.name, x.target))
  {
    NotAfterItself(first);
    assert OtherTools(open) == {first, other};
    FirstIs({first, other}, first);
  }

  lemma PendingOfTwo<R>(c: Core<R>, first: string, other: string, x: OpenTool, y: OpenTool)
    requires c.open == map[first := x, other := y] && first != other && NotAfter(first, other)
    requires x.name != "AskUserQuestion" && y.name != "AskUserQuestion"
    ensures ReportOf(c).pending == Some(Pending(x.name, x.target))
  {
    FirstOfTwo(c.open, first, other, x, y);
  }

  lemma TwoCallsOpen(line: nat, x: OpenTool, y: OpenTool)
    requires MadeUp(line, 0) != MadeUp(line + 1, 0)
    ensures OpenAfter(map[MadeUp(line, 0) := x], line + 1, Calls([Use(None, y)]))
         == map[MadeUp(line, 0) := x, MadeUp(line + 1, 0) := y]
  {
    assert Opened(map[MadeUp(line, 0) := x], line + 1, [Use(None, y)], 0) == map[MadeUp(line, 0) := x];
  }

  /** The first of `n` records is reduced early, and no other. */
  function OneEarly(n: nat): seq<bool> {
    seq(n, i => i == 0)
  }

  lemma {:induction false} OneEarlyCounts(n: nat, k: nat)
    requires k <= n
    ensures Earlies(OneEarly(n), k) == if k == 0 then 0 else 1
  {
    if k > 0 {
      OneEarlyCounts(n, k - 1);
    }
  }

  /** `n` silent records, the first reduced early, and two calls without an id. */
  ghost predicate TwoLateCalls<R>(m: Reading<R>, records: seq<Bytes>, n: nat, x: OpenTool, y: OpenTool) {
    && 0 < n && |records| == n + 2 && (forall i :: 0 <= i < n ==> m.parse(records[i]) == NoTools)
    && m.parse(records[n]) == Calls([Use(None, x)]) && m.parse(records[n + 1]) == Calls([Use(None, y)])
  }

  lemma FirstCallOpens<R>(m: Reading<R>, records: seq<Bytes>, n: nat, x: OpenTool, y: OpenTool)
    requires TwoLateCalls(m, records, n, x, y)
    ensures Plainly(EffectsOf(m), records, n + 1).open == map[MadeUp(n, 0) := x]
    ensures Shifted(EffectsOf(m), records, OneEarly(n + 2), n + 1).open == map[MadeUp(n + 1, 0) := x]
  {
    QuietStart(m, records, OneEarly(n + 2), n);
    Onward(m, records, OneEarly(n + 2), n);
    OneEarlyCounts(n + 2, n);
    OneCallOpens(n, x);
    OneCallOpens(n + 1, x);
  }

  lemma SecondCallOpens<R>(m: Reading<R>, records: seq<Bytes>, n: nat, x: OpenTool, y: OpenTool)
    requires TwoLateCalls(m, records, n, x, y)
    requires MadeUp(n, 0) != MadeUp(n + 1, 0) && MadeUp(n + 1, 0) != MadeUp(n + 2, 0)
    ensures Plainly(EffectsOf(m), records, n + 2).open == map[MadeUp(n, 0) := x, MadeUp(n + 1, 0) := y]
    ensures Shifted(EffectsOf(m), records, OneEarly(n + 2), n + 2).open
         == map[MadeUp(n + 1, 0) := x, MadeUp(n + 2, 0) := y]
  {
    FirstCallOpens(m, records, n, x, y);
    Onward(m, records, OneEarly(n + 2), n + 1);
    OneEarlyCounts(n + 2, n + 1);
    TwoCallsOpen(n, x, y);
    TwoCallsOpen(n + 1, x, y);
  }

  lemma TwoCoresOpen<R(!new)>(m: Reading<R>, records: seq<Bytes>, n: nat, x: OpenTool, y: OpenTool)
    requires Json(EffectsOf(m)) && AllPlain(EffectsOf(m), records) && TwoLateCalls(m, records, n, x, y)
    requires MadeUp(n, 0) != MadeUp(n + 1, 0) && MadeUp(n + 1, 0) != MadeUp(n + 2, 0)
    ensures PassCore(m, records, n + 2).open == map[MadeUp(n, 0) := x, MadeUp(n + 1, 0) := y]
    ensures FedCore(m, records, OneEarly(n + 2), n + 2).open == map[MadeUp(n + 1, 0) := x, MadeUp(n + 2, 0) := y]
  {
    CoresAgree(EffectsOf(m), records, OneEarly(n + 2), n + 2);
    SecondCallOpens(m, records, n, x, y);
  }

  /** One pass reports the later call, if its name sorts before the other's. */
  lemma LaterIsPending<R(!new)>(m: Reading<R>, records: seq<Bytes>, n: nat, x: OpenTool, y: OpenTool)
    requires Json(EffectsOf(m)) && AllPlain(EffectsOf(m), records) && TwoLateCalls(m, records, n, x, y)
    requires MadeUp(n, 0) != MadeUp(n + 1, 0) && MadeUp(n + 1, 0) != MadeUp(n + 2, 0)
    requires NotAfter(MadeUp(n + 1, 0), MadeUp(n, 0)) && x.name != "AskUserQuestion" && y.name != "AskUserQuestion"
    ensures ReportOf(PassCore(m, records, n + 2)).pending == Some(Pending(y.name, y.target))
  {
    TwoCoresOpen(m, records, n, x, y);
    assert map[MadeUp(n, 0) := x, MadeUp(n + 1, 0) := y] == map[MadeUp(n + 1, 0) := y, MadeUp(n, 0) := x];
    PendingOfTwo(PassCore(m, records, n + 2), MadeUp(n + 1, 0), MadeUp(n, 0), y, x);
  }

  /** The incremental reduction reports the earlier call, if its moved name sorts before the other's. */
  lemma EarlierIsPending<R(!new)>(m: Reading<R>, records: seq<Bytes>, n: nat, x: OpenTool, y: OpenTool)
    requires Json(EffectsOf(m)) && AllPlain(EffectsOf(m), records) && TwoLateCalls(m, records, n, x, y)
    requires MadeUp(n, 0) != MadeUp(n + 1, 0) && MadeUp(n + 1, 0) != MadeUp(n + 2, 0)
    requires NotAfter(MadeUp(n + 1, 0), MadeUp(n + 2, 0)) && x.name != "AskUserQuestion" && y.name != "AskUserQuestion"
    ensures ReportOf(FedCore(m, records, OneEarly(n + 2), n + 2)).pending == Some(Pending(x.name, x.target))
  {
    TwoCoresOpen(m, records, n, x, y);
    PendingOfTwo(FedCore(m, records, OneEarly(n + 2), n + 2), MadeUp(n + 1, 0), MadeUp(n + 2, 0), x, y);
  }

  /** With two calls without an id open, at the tenth and eleventh lines, one early reduction before them changes which
      of the two tools is reported: the map puts `10` before `9`, but not before `11`. */
  lemma OrderChanges<R(!new)>(m: Reading<R>, records: seq<Bytes>, n: nat, x: OpenTool, y: OpenTool)
    requires Json(EffectsOf(m)) && AllPlain(EffectsOf(m), records) && TwoLateCalls(m, records, n, x, y) && n == 9
    requires x.name != "AskUserQuestion" && y.name != "AskUserQuestion"
    ensures ReportOf(FedCore(m, records, OneEarly(n + 2), n + 2)).pending == Some(Pending(x.name, x.target))
    ensures ReportOf(PassCore(m, records, n + 2)).pending == Some(Pending(y.name, y.target))
  {
    TenBeforeNine(n);
    LaterIsPending(m, records, n, x, y);
    EarlierIsPending(m, records, n, x, y);
  }
}
