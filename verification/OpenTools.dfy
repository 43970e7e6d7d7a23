/** The transcript reducer's map of open tool calls, the one part of it that uses the line count: a call that
    carries no id is named by its line and block. */
module OpenTools {
  import opened Decimals
  import opened GateTypes
  import opened Lines
  import opened LineCounter
  import opened ReductionCache

  datatype OpenTool = OpenTool(name: string, target: Option<string>, questions: seq<string>)

  /** `Use` is a tool call; an absent and an empty id are the same. */
  datatype Block = Use(id: Option<string>, tool: OpenTool) | NoUse

  /** What a line says about tools: calls that open, or results that close the calls they name. */
  datatype Record = Calls(blocks: seq<Block>) | Results(ids: seq<Option<string>>) | NoTools

  /** The open calls, and everything else the reducer holds. */
  datatype Core<R> = Core(open: map<string, OpenTool>, rest: R)

  function MadeUp(line: nat, block: nat): string {
    "missing:" + (Decimal(line) + (":" + Decimal(block)))
  }

  predicate Anonymous(b: Block) {
    b.Use? && (b.id.None? || b.id.value == "")
  }

  function NameOf(b: Block, line: nat, block: nat): string
    requires b.Use?
  {
    if Anonymous(b) then MadeUp(line, block) else b.id.value
  }

  function Opened(open: map<string, OpenTool>, line: nat, blocks: seq<Block>, n: nat): map<string, OpenTool>
    requires n <= |blocks|
  {
    if n == 0 then open
    else
      var before := Opened(open, line, blocks, n - 1);
      if blocks[n - 1].Use? then before[NameOf(blocks[n - 1], line, n - 1) := blocks[n - 1].tool] else before
  }

  function Closed(open: map<string, OpenTool>, ids: seq<Option<string>>, n: nat): map<string, OpenTool>
    requires n <= |ids|
  {
    if n == 0 then open
    else if ids[n - 1].Some? then Closed(open, ids, n - 1) - {ids[n - 1].value}
    else Closed(open, ids, n - 1)
  }

  function OpenAfter(open: map<string, OpenTool>, line: nat, record: Record): map<string, OpenTool> {
    match record
    case Calls(blocks) => Opened(open, line, blocks, |blocks|)
    case Results(ids) => Closed(open, ids, |ids|)
    case NoTools => open
  }

  /** How lines are read: what each says about tools, and its effect on the rest, which never uses the count. */
  datatype Reading<!R> = Reading(parse: Bytes -> Record, others: (R, Bytes) -> R, rest0: R,
                                 complete: Bytes -> bool, utf8: Bytes -> bool)

  function Taken<R>(m: Reading<R>, c: Core<R>, line: nat, text: Bytes): Core<R> {
    Core(OpenAfter(c.open, line, m.parse(text)), m.others(c.rest, text))
  }

  function EffectsOf<R>(m: Reading<R>): Effects<Core<R>> {
    Effects(Core(map[], m.rest0), (c, line, text) => Taken(m, c, line, text), m.complete, m.utf8)
  }

  // ---------- Names ----------

  ghost predicate Genuine(id: string) {
    !("missing:" <= id)
  }

  lemma MadeUpIsNotGenuine(line: nat, block: nat)
    ensures !Genuine(MadeUp(line, block))
  {
    assert MadeUp(line, block)[..8] == "missing:";
  }

  lemma MadeUpIsInjective(i: nat, b: nat, j: nat, c: nat)
    requires MadeUp(i, b) == MadeUp(j, c)
    ensures i == j && b == c
  {
    var s, t := Decimal(i) + (":" + Decimal(b)), Decimal(j) + (":" + Decimal(c));
    assert MadeUp(i, b)[8..] == s && MadeUp(j, c)[8..] == t;
    DecimalHasNo(i, ':');
    DecimalHasNo(j, ':');
    SplitAtColon(Decimal(i), Decimal(b), Decimal(j), Decimal(c));
    DecimalIsInjective(i, j);
    DecimalIsInjective(b, c);
  }

  function BeforeColon(s: string): string {
    if s == "" || s[0] == ':' then "" else [s[0]] + BeforeColon(s[1..])
  }

  lemma {:induction false} ColonEnds(a: string, b: string)
    requires ':' !in a
    ensures BeforeColon(a + (":" + b)) == a
  {
    if a != "" {
      assert a[0] in a;
      ColonEnds(a[1..], b);
      assert (a + (":" + b))[1..] == a[1..] + (":" + b);
    }
  }

  lemma SplitAtColon(a: string, b: string, c: string, d: string)
    requires a + (":" + b) == c + (":" + d) && ':' !in a && ':' !in c
    ensures a == c && b == d
  {
    ColonEnds(a, b);
    ColonEnds(c, d);
    assert (a + (":" + b))[|a| + 1..] == b && (c + (":" + d))[|c| + 1..] == d;
  }

  /** No call of the record has an id that could pass for a made-up name. */
  ghost predicate GenuineIds(record: Record) {
    record.Calls? ==> forall b :: 0 <= b < |record.blocks| ==>
      record.blocks[b].Use? && !Anonymous(record.blocks[b]) ==> Genuine(record.blocks[b].id.value)
  }

  predicate HasAnonymous(record: Record) {
    record.Calls? && exists b :: 0 <= b < |record.blocks| && Anonymous(record.blocks[b])
  }

  // ---------- One record at two counts ----------

  /** The names in the map are ids or made up from earlier lines. */
  ghost predicate NamedBefore(open: map<string, OpenTool>, line: nat) {
    forall id :: id in open ==> Genuine(id) || MadeUpBefore(id, line)
  }

  ghost predicate MadeUpBefore(id: string, line: nat) {
    exists j: nat, c: nat :: j < line && id == MadeUp(j, c)
  }

  lemma {:induction false} OpenedNames(open: map<string, OpenTool>, line: nat, blocks: seq<Block>, n: nat, id: string)
    requires n <= |blocks| && GenuineIds(Calls(blocks)) && id in Opened(open, line, blocks, n)
    ensures id in open || Genuine(id) || exists c: nat :: c < n && id == MadeUp(line, c)
  {
    if n > 0 && id in Opened(open, line, blocks, n - 1) {
      OpenedNames(open, line, blocks, n - 1, id);
    }
  }

  lemma {:induction false} AnonymousIsOpen(open: map<string, OpenTool>, line: nat, blocks: seq<Block>, n: nat, b: nat)
    requires b < n <= |blocks| && Anonymous(blocks[b])
    ensures MadeUp(line, b) in Opened(open, line, blocks, n)
  {
    if b < n - 1 {
      AnonymousIsOpen(open, line, blocks, n - 1, b);
    }
  }

  lemma {:induction false} NamedAnywhere(open: map<string, OpenTool>, line: nat, later: nat, blocks: seq<Block>, n: nat)
    requires n <= |blocks| && forall b :: 0 <= b < |blocks| ==> !Anonymous(blocks[b])
    ensures Opened(open, line, blocks, n) == Opened(open, later, blocks, n)
  {
    if n > 0 {
      NamedAnywhere(open, line, later, blocks, n - 1);
    }
  }

  lemma AnonymousMoves(open: map<string, OpenTool>, line: nat, later: nat, blocks: seq<Block>, b: nat)
    requires NamedBefore(open, line) && GenuineIds(Calls(blocks)) && line < later
    requires b < |blocks| && Anonymous(blocks[b])
    ensures Opened(open, line, blocks, |blocks|) != Opened(open, later, blocks, |blocks|)
  {
    var id := MadeUp(line, b);
    AnonymousIsOpen(open, line, blocks, |blocks|, b);
    MadeUpIsNotGenuine(line, b);
    if id in Opened(open, later, blocks, |blocks|) {
      OpenedNames(open, later, blocks, |blocks|, id);
      if id in open {
        var j: nat, c: nat :| j < line && id == MadeUp(j, c);
        MadeUpIsInjective(line, b, j, c);
        assert false;
      } else {
        var c: nat :| c < |blocks| && id == MadeUp(later, c);
        MadeUpIsInjective(line, b, later, c);
        assert false;
      }
    }
  }

  lemma RecordMovesExactly(open: map<string, OpenTool>, line: nat, late: nat, record: Record)
    requires NamedBefore(open, line) && GenuineIds(record)
    ensures OpenAfter(open, line + late, record) == OpenAfter(open, line, record)
       <==> late == 0 || !HasAnonymous(record)
  {
    if record.Calls? {
      if HasAnonymous(record) {
        var b :| 0 <= b < |record.blocks| && Anonymous(record.blocks[b]);
        if late > 0 {
          AnonymousMoves(open, line, line + late, record.blocks, b);
        }
      } else {
        NamedAnywhere(open, line, line + late, record.blocks, |record.blocks|);
      }
    }
  }

  lemma {:induction false} ClosedNames(open: map<string, OpenTool>, ids: seq<Option<string>>, n: nat)
    requires n <= |ids|
    ensures Closed(open, ids, n).Keys <= open.Keys
  {
    if n > 0 {
      ClosedNames(open, ids, n - 1);
    }
  }

  lemma NamesOnward(open: map<string, OpenTool>, line: nat, record: Record)
    requires NamedBefore(open, line) && GenuineIds(record)
    ensures NamedBefore(OpenAfter(open, line, record), line + 1)
  {
    forall id | id in OpenAfter(open, line, record) ensures Genuine(id) || MadeUpBefore(id, line + 1) {
      match record
      case Calls(blocks) => OpenedNames(open, line, blocks, |blocks|, id);
      case Results(ids) => ClosedNames(open, ids, |ids|);
      case NoTools =>
    }
  }

  // ---------- What is open ----------

  function Lookup(open: map<string, OpenTool>, id: string): Option<OpenTool> {
    if id in open then Some(open[id]) else None
  }

  /** The last of these blocks that calls a tool under this name. */
  function LastCall(blocks: seq<Block>, n: nat, line: nat, id: string): Option<OpenTool>
    requires n <= |blocks|
  {
    if n == 0 then None
    else if blocks[n - 1].Use? && NameOf(blocks[n - 1], line, n - 1) == id then Some(blocks[n - 1].tool)
    else LastCall(blocks, n - 1, line, id)
  }

  lemma {:induction false} OpenedLookup(open: map<string, OpenTool>, line: nat, blocks: seq<Block>, n: nat, id: string)
    requires n <= |blocks|
    ensures Lookup(Opened(open, line, blocks, n), id)
         == if LastCall(blocks, n, line, id).Some? then LastCall(blocks, n, line, id) else Lookup(open, id)
  {
    if n > 0 {
      OpenedLookup(open, line, blocks, n - 1, id);
    }
  }

  lemma {:induction false} ClosedLookup(open: map<string, OpenTool>, ids: seq<Option<string>>, n: nat, id: string)
    requires n <= |ids|
    ensures Lookup(Closed(open, ids, n), id) == if Some(id) in ids[..n] then None else Lookup(open, id)
  {
    if n > 0 {
      ClosedLookup(open, ids, n - 1, id);
      assert ids[..n] == ids[..n - 1] + [ids[n - 1]];
    }
  }

  /** What is open under a name once a record has been taken. */
  function TakenCall(before: Option<OpenTool>, line: nat, record: Record, id: string): Option<OpenTool> {
    match record
    case Calls(blocks) => if LastCall(blocks, |blocks|, line, id).Some? then LastCall(blocks, |blocks|, line, id) else before
    case Results(ids) => if Some(id) in ids then None else before
    case NoTools => before
  }

  /** What is open under a name after the first `k` records: its last call, unless a result for it came later. */
  function OpenCall<R>(m: Reading<R>, records: seq<Bytes>, k: nat, id: string): Option<OpenTool>
    requires k <= |records|
  {
    if k == 0 then None else TakenCall(OpenCall(m, records, k - 1, id), k - 1, m.parse(records[k - 1]), id)
  }

  lemma RecordLookup(open: map<string, OpenTool>, line: nat, record: Record, id: string)
    ensures Lookup(OpenAfter(open, line, record), id) == TakenCall(Lookup(open, id), line, record, id)
  {
    match record
    case Calls(blocks) => OpenedLookup(open, line, blocks, |blocks|, id);
    case Results(ids) => ClosedLookup(open, ids, |ids|, id); assert ids[..|ids|] == ids;
    case NoTools =>
  }

  /** For any transcript: the map of one pass holds under each name its last call that no later result closes. */
  lemma {:induction false} OpenExactly<R>(m: Reading<R>, records: seq<Bytes>, k: nat, id: string)
    requires k <= |records|
    ensures Lookup(Plainly(EffectsOf(m), records, k).open, id) == OpenCall(m, records, k, id)
  {
    if k > 0 {
      OpenExactly(m, records, k - 1, id);
      RecordLookup(Plainly(EffectsOf(m), records, k - 1).open, k - 1, m.parse(records[k - 1]), id);
    }
  }

  // ---------- Whole transcripts ----------

  ghost predicate AllGenuine<R>(m: Reading<R>, records: seq<Bytes>) {
    forall k :: 0 <= k < |records| ==> GenuineIds(m.parse(records[k]))
  }

  lemma {:induction false} PlainNames<R>(m: Reading<R>, records: seq<Bytes>, k: nat)
    requires AllGenuine(m, records) && k <= |records|
    ensures NamedBefore(Plainly(EffectsOf(m), records, k).open, k)
  {
    if k > 0 {
      PlainNames(m, records, k - 1);
      NamesOnward(Plainly(EffectsOf(m), records, k - 1).open, k - 1, m.parse(records[k - 1]));
    }
  }

  /** No call without an id comes after an early reduction. */
  ghost predicate NoLateAnonymous<R>(m: Reading<R>, records: seq<Bytes>, early: seq<bool>)
    requires |early| == |records|
  {
    forall j, k :: 0 <= j < k < |records| && early[j] ==> !HasAnonymous(m.parse(records[k]))
  }

  lemma {:induction false} SomeEarly(early: seq<bool>, k: nat)
    requires k <= |early|
    ensures Earlies(early, k) > 0 <==> exists j :: 0 <= j < k && early[j]
  {
    if k > 0 {
      SomeEarly(early, k - 1);
    }
  }

  lemma UnmovedExactly<R>(m: Reading<R>, records: seq<Bytes>, k: nat, late: nat)
    requires AllGenuine(m, records) && k < |records|
    ensures Unmoved(EffectsOf(m), records, k, late) <==> late == 0 || !HasAnonymous(m.parse(records[k]))
  {
    PlainNames(m, records, k);
    RecordMovesExactly(Plainly(EffectsOf(m), records, k).open, k, late, m.parse(records[k]));
  }

  lemma MovedExactlyWhenLate<R>(m: Reading<R>, records: seq<Bytes>, early: seq<bool>)
    requires AllGenuine(m, records) && |early| == |records|
    ensures UnmovedThroughout(EffectsOf(m), records, early) <==> NoLateAnonymous(m, records, early)
  {
    if UnmovedThroughout(EffectsOf(m), records, early) {
      forall j, k | 0 <= j < k < |records| && early[j] ensures !HasAnonymous(m.parse(records[k])) {
        assert Unmoved(EffectsOf(m), records, k, Earlies(early, k));
        UnmovedExactly(m, records, k, Earlies(early, k));
        SomeEarly(early, k);
      }
    }
    if NoLateAnonymous(m, records, early) {
      forall k: nat | k < |records| ensures Unmoved(EffectsOf(m), records, k, Earlies(early, k)) {
        UnmovedExactly(m, records, k, Earlies(early, k));
        SomeEarly(early, k);
      }
    }
  }

  /** For any transcript whose calls carry genuine ids or none, and any early reductions: after every incremental
      call the map held is that of one pass if and only if no call without an id follows an early reduction. */
  lemma ToolsAgreeExactly<R(!new)>(m: Reading<R>, records: seq<Bytes>, early: seq<bool>)
    requires Json(EffectsOf(m)) && AllPlain(EffectsOf(m), records) && AllGenuine(m, records)
    requires |early| == |records|
    ensures AgreesThroughout(EffectsOf(m), records, early) <==> NoLateAnonymous(m, records, early)
  {
    AgreesExactlyWhenUnmoved(EffectsOf(m), records, early);
    MovedExactlyWhenLate(m, records, early);
  }
}
