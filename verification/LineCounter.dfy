/** The transcript reducer counts the lines it is given, blank ones too, and uses the count to name
    tool calls that carry no id. An early reduction gives it one more (blank) line than the file has,
    so the incremental reduction is transparent exactly as far as no record's effect depends on the
    count. */
module LineCounter {
  import opened Lines
  import opened ReductionCache

  /** What the reducer holds, and `next_line_idx`. */
  datatype Counted<C> = Counted(core: C, nextLine: nat)

  /** The reducer's ingredients: the effect of a trimmed line at an index, the JSON test and the UTF-8
      test. */
  datatype Effects<!C> = Effects(core0: C, step: (C, nat, Bytes) -> C, complete: Bytes -> bool, utf8: Bytes -> bool)

  function TrimEnd(line: Bytes): Bytes {
    if line != [] && BlankByte(line[|line| - 1]) then TrimEnd(line[..|line| - 1]) else line
  }

  function PushLine<C>(e: Effects<C>, s: Counted<C>, line: Bytes): Counted<C> {
    if !e.utf8(line) then s
    else if TrimEnd(line) == [] then Counted(s.core, s.nextLine + 1)
    else Counted(e.step(s.core, s.nextLine, TrimEnd(line)), s.nextLine + 1)
  }

  function CountedReader<C>(e: Effects<C>): Reader<Counted<C>> {
    Reader(Counted(e.core0, 0), (s, line) => PushLine(e, s, line), e.complete)
  }

  /** The reducer without the count: every line is taken at index 0. */
  function CoreReader<C>(e: Effects<C>): Reader<C> {
    Reader(e.core0, (c, line) => PushLine(e, Counted(c, 0), line).core, e.complete)
  }

  /** What JSON and UTF-8 guarantee: blanks are text but no value, and blanks after a value change
      nothing. */
  ghost predicate Json<C>(e: Effects<C>) {
    && (forall w :: Blank(w) ==> e.utf8(w) && !e.complete(w))
    && (forall p, w :: Blank(w) && e.complete(p) ==> e.complete(p + w))
    && (forall p, w :: Blank(w) ==> e.utf8(p + w) == e.utf8(p))
  }

  ghost predicate IndexFree<C(!new)>(e: Effects<C>) {
    forall c, i, line :: e.step(c, i, line) == e.step(c, 0, line)
  }

  lemma {:induction false} TrimBlank(p: Bytes, w: Bytes)
    requires Blank(w)
    ensures TrimEnd(p + w) == TrimEnd(p)
  {
    if w == [] {
      assert p + w == p;
    } else {
      assert (p + w)[..|p + w| - 1] == p + w[..|w| - 1];
      TrimBlank(p, w[..|w| - 1]);
    }
  }

  /** A reducer whose records never use the count meets everything the cache asks for. */
  lemma IndexFreeIsTransparent<C(!new)>(e: Effects<C>)
    requires Json(e) && IndexFree(e)
    ensures Simulates(CountedReader(e), CoreReader(e), (s: Counted<C>) => s.core)
    ensures Tolerant(CoreReader(e))
  {
    var q := CoreReader(e);
    forall v, w | Blank(w) ensures q.push(v, w) == v {
      TrimBlank([], w);
      assert [] + w == w;
    }
    forall v, p, w | q.complete(p) && Blank(w) ensures q.push(v, p + w) == q.push(v, p) {
      TrimBlank(p, w);
    }
  }

  // ---------- When the count matters ----------

  /** A plain record line: text that parses, with no newline and no trailing blank. */
  ghost predicate Plain<C>(e: Effects<C>, line: Bytes) {
    line != [] && OneLine(line) && TrimEnd(line) == line && e.utf8(line) && e.complete(line)
  }

  lemma {:induction false} ScanOneLine<S>(r: Reader<S>, at: Cursor<S>, line: Bytes)
    requires OneLine(line)
    ensures Scan(r, at, line) == Cursor(at.reducer, at.pending + line)
  {
    if line == [] {
      assert at.pending + line == at.pending;
    } else {
      var front, b := line[..|line| - 1], line[|line| - 1];
      assert b in line;
      ScanOneLine(r, at, front);
      assert at.pending + line == (at.pending + front) + [b];
    }
  }

  lemma ScanLine<S>(r: Reader<S>, at: Cursor<S>, line: Bytes)
    requires OneLine(line) && at.pending == []
    ensures Scan(r, at, line + [NEWLINE]) == Cursor(r.push(at.reducer, line), [])
  {
    ScanOneLine(r, at, line);
    assert [] + line == line;
    assert (line + [NEWLINE])[..|line|] == line;
  }

  /** The incremental state once the first `k` records are read; `early` says after which of them a call
      ended before their newline had been written. */
  function Fed<C>(e: Effects<C>, records: seq<Bytes>, early: seq<bool>, k: nat): Cursor<Counted<C>>
    requires k <= |records| == |early|
  {
    var r := CountedReader(e);
    if k == 0 then Fresh(r)
    else
      var read := Scan(r, Fed(e, records, early, k - 1), records[k - 1]);
      Scan(r, if early[k - 1] then Flush(r, read) else read, [NEWLINE])
  }

  function Earlies(early: seq<bool>, k: nat): nat
    requires k <= |early|
  {
    if k == 0 then 0 else Earlies(early, k - 1) + if early[k - 1] then 1 else 0
  }

  /** Each record takes effect at its own position, later by one for every early reduction before it. */
  function Shifted<C>(e: Effects<C>, records: seq<Bytes>, early: seq<bool>, k: nat): C
    requires k <= |records| == |early|
  {
    if k == 0 then e.core0
    else e.step(Shifted(e, records, early, k - 1), k - 1 + Earlies(early, k - 1), records[k - 1])
  }

  /** What one pass makes of the first `k` records: each takes effect at its own position. */
  function Plainly<C>(e: Effects<C>, records: seq<Bytes>, k: nat): C
    requires k <= |records|
  {
    if k == 0 then e.core0 else e.step(Plainly(e, records, k - 1), k - 1, records[k - 1])
  }

  ghost predicate AllPlain<C>(e: Effects<C>, records: seq<Bytes>) {
    forall i :: 0 <= i < |records| ==> Plain(e, records[i])
  }

  lemma LateRead<C>(e: Effects<C>, c: Counted<C>, line: Bytes)
    requires Plain(e, line)
    ensures Scan(CountedReader(e), Scan(CountedReader(e), Cursor(c, []), line), [NEWLINE])
         == Cursor(Counted(e.step(c.core, c.nextLine, line), c.nextLine + 1), [])
  {
    var r := CountedReader(e);
    ScanConcat(r, Cursor(c, []), line, [NEWLINE]);
    ScanLine(r, Cursor(c, []), line);
  }

  lemma EarlyRead<C>(e: Effects<C>, c: Counted<C>, line: Bytes)
    requires Plain(e, line)
    ensures Flush(CountedReader(e), Scan(CountedReader(e), Cursor(c, []), line))
         == Cursor(Counted(e.step(c.core, c.nextLine, line), c.nextLine + 1), [])
  {
    ScanOneLine(CountedReader(e), Cursor(c, []), line);
    assert [] + line == line;
  }

  lemma BlankRead<C>(e: Effects<C>, c: Counted<C>)
    requires Json(e)
    ensures Scan(CountedReader(e), Cursor(c, []), [NEWLINE]) == Cursor(Counted(c.core, c.nextLine + 1), [])
  {
    ScanLine(CountedReader(e), Cursor(c, []), []);
    assert [] + [NEWLINE] == [NEWLINE];
    assert Blank([]) && TrimEnd([]) == [];
  }

  lemma OneRecord<C>(e: Effects<C>, c: Counted<C>, line: Bytes, early: bool)
    requires Json(e) && Plain(e, line)
    ensures Scan(CountedReader(e),
                 if early then Flush(CountedReader(e), Scan(CountedReader(e), Cursor(c, []), line))
                 else Scan(CountedReader(e), Cursor(c, []), line),
                 [NEWLINE])
         == Cursor(Counted(e.step(c.core, c.nextLine, line), c.nextLine + if early then 2 else 1), [])
  {
    if early {
      EarlyRead(e, c, line);
      BlankRead(e, Counted(e.step(c.core, c.nextLine, line), c.nextLine + 1));
    } else {
      LateRead(e, c, line);
    }
  }

  lemma FedOnward<C>(e: Effects<C>, records: seq<Bytes>, early: seq<bool>, k: nat, c: Counted<C>)
    requires Json(e) && 0 < k <= |records| == |early| && Plain(e, records[k - 1])
    requires Fed(e, records, early, k - 1) == Cursor(c, [])
    ensures Fed(e, records, early, k)
         == Cursor(Counted(e.step(c.core, c.nextLine, records[k - 1]), c.nextLine + if early[k - 1] then 2 else 1), [])
  {
    OneRecord(e, c, records[k - 1], early[k - 1]);
  }

  lemma {:induction false} FedIsShifted<C>(e: Effects<C>, records: seq<Bytes>, early: seq<bool>, k: nat)
    requires Json(e) && AllPlain(e, records) && k <= |records| == |early|
    ensures Fed(e, records, early, k) == Cursor(Counted(Shifted(e, records, early, k), k + Earlies(early, k)), [])
  {
    if k > 0 {
      FedIsShifted(e, records, early, k - 1);
      var c := Counted(Shifted(e, records, early, k - 1), k - 1 + Earlies(early, k - 1));
      FedOnward(e, records, early, k, c);
    }
  }

  lemma {:induction false} OnePass<C>(e: Effects<C>, records: seq<Bytes>, k: nat)
    requires AllPlain(e, records) && k <= |records|
    ensures Fold(CountedReader(e), records[..k]) == Counted(Plainly(e, records, k), k)
  {
    if k > 0 {
      OnePass(e, records, k - 1);
      assert records[..k][..k - 1] == records[..k - 1];
      assert Plain(e, records[k - 1]);
    }
  }

  lemma OnePassCore<C>(e: Effects<C>, records: seq<Bytes>, k: nat)
    requires AllPlain(e, records) && k <= |records|
    ensures Reduction(CountedReader(e), Unlines(records[..k])).core == Plainly(e, records, k)
  {
    OnePass(e, records, k);
    SplitOfUnlines(records[..k]);
  }

  /** After every call the incremental core is the core of one pass over what the file then holds. */
  ghost predicate Transparent<C(!new)>(e: Effects<C>) {
    forall records, early, k: nat :: ReadSoFar(e, records, early, k) ==>
      Fed(e, records, early, k).reducer.core == Reduction(CountedReader(e), Unlines(records[..k])).core
  }

  ghost predicate ReadSoFar<C>(e: Effects<C>, records: seq<Bytes>, early: seq<bool>, k: nat) {
    AllPlain(e, records) && k <= |records| == |early|
  }

  /** A record has the same effect at its own position as at any later one, up to twice as far. */
  ghost predicate Steady<C(!new)>(e: Effects<C>) {
    forall records, k: nat, late: nat :: Delayed(e, records, k, late) ==>
      e.step(Plainly(e, records, k), k + late, records[k]) == e.step(Plainly(e, records, k), k, records[k])
  }

  ghost predicate Delayed<C>(e: Effects<C>, records: seq<Bytes>, k: nat, late: nat) {
    AllPlain(e, records) && late <= k < |records|
  }

  lemma {:induction false} FewEarlies(early: seq<bool>, k: nat)
    requires k <= |early|
    ensures Earlies(early, k) <= k
  {
    if k > 0 {
      FewEarlies(early, k - 1);
    }
  }

  lemma {:induction false} SteadyKeepsCore<C(!new)>(e: Effects<C>, records: seq<Bytes>, early: seq<bool>, k: nat)
    requires Steady(e) && ReadSoFar(e, records, early, k)
    ensures Shifted(e, records, early, k) == Plainly(e, records, k)
  {
    if k > 0 {
      SteadyKeepsCore(e, records, early, k - 1);
      FewEarlies(early, k - 1);
      assert Delayed(e, records, k - 1, Earlies(early, k - 1));
    }
  }

  /** The first `late` of `n` records are reduced early. */
  function First(n: nat, late: nat): seq<bool> {
    seq(n, i => i < late)
  }

  lemma {:induction false} FirstCounts(n: nat, late: nat, k: nat)
    requires k <= n
    ensures Earlies(First(n, late), k) == if late <= k then late else k
  {
    if k > 0 {
      FirstCounts(n, late, k - 1);
    }
  }

  lemma CoresAgree<C(!new)>(e: Effects<C>, records: seq<Bytes>, early: seq<bool>, k: nat)
    requires Json(e) && ReadSoFar(e, records, early, k)
    ensures Fed(e, records, early, k).reducer.core == Shifted(e, records, early, k)
    ensures Reduction(CountedReader(e), Unlines(records[..k])).core == Plainly(e, records, k)
  {
    FedIsShifted(e, records, early, k);
    OnePassCore(e, records, k);
  }

  lemma TransparentCores<C(!new)>(e: Effects<C>, records: seq<Bytes>, early: seq<bool>, k: nat)
    requires Json(e) && Transparent(e) && ReadSoFar(e, records, early, k)
    ensures Shifted(e, records, early, k) == Plainly(e, records, k)
  {
    CoresAgree(e, records, early, k);
  }

  lemma LateRecord<C(!new)>(e: Effects<C>, records: seq<Bytes>, k: nat, late: nat)
    requires Json(e) && Transparent(e) && Delayed(e, records, k, late)
    ensures e.step(Plainly(e, records, k), k + late, records[k]) == e.step(Plainly(e, records, k), k, records[k])
  {
    var early := First(|records|, late);
    FirstCounts(|records|, late, k);
    TransparentCores(e, records, early, k);
    TransparentCores(e, records, early, k + 1);
  }

  /** For every reducer: the incremental reduction is transparent on all records and all calls that end at
      records exactly when no record's effect changes with a count up to twice its position. */
  lemma TransparentExactlyWhenSteady<C(!new)>(e: Effects<C>)
    requires Json(e)
    ensures Transparent(e) <==> Steady(e)
  {
    if Transparent(e) {
      forall records, k: nat, late: nat | Delayed(e, records, k, late)
        ensures e.step(Plainly(e, records, k), k + late, records[k]) == e.step(Plainly(e, records, k), k, records[k])
      {
        LateRecord(e, records, k, late);
      }
    }
    if Steady(e) {
      forall records, early, k: nat | ReadSoFar(e, records, early, k)
        ensures Fed(e, records, early, k).reducer.core == Reduction(CountedReader(e), Unlines(records[..k])).core
      {
        SteadyKeepsCore(e, records, early, k);
        CoresAgree(e, records, early, k);
      }
    }
  }

  // ---------- One transcript ----------

  ghost predicate AgreesAt<C>(e: Effects<C>, records: seq<Bytes>, early: seq<bool>, k: nat)
    requires k <= |records| == |early|
  {
    Fed(e, records, early, k).reducer.core == Reduction(CountedReader(e), Unlines(records[..k])).core
  }

  /** The `k`-th record has the same effect at a count so much later. */
  ghost predicate Unmoved<C>(e: Effects<C>, records: seq<Bytes>, k: nat, late: nat)
    requires k < |records|
  {
    e.step(Plainly(e, records, k), k + late, records[k]) == e.step(Plainly(e, records, k), k, records[k])
  }

  lemma {:induction false} UnmovedKeepsCore<C(!new)>(e: Effects<C>, records: seq<Bytes>, early: seq<bool>, k: nat)
    requires k <= |records| == |early|
    requires forall j: nat :: j < k ==> Unmoved(e, records, j, Earlies(early, j))
    ensures Shifted(e, records, early, k) == Plainly(e, records, k)
  {
    if k > 0 {
      UnmovedKeepsCore(e, records, early, k - 1);
      assert Unmoved(e, records, k - 1, Earlies(early, k - 1));
    }
  }

  /** After every call the incremental core is that of one pass. */
  ghost predicate AgreesThroughout<C>(e: Effects<C>, records: seq<Bytes>, early: seq<bool>)
    requires |records| == |early|
  {
    forall k: nat :: k <= |records| ==> AgreesAt(e, records, early, k)
  }

  /** Each record has, at the count it is given, the effect it has at its own position. */
  ghost predicate UnmovedThroughout<C>(e: Effects<C>, records: seq<Bytes>, early: seq<bool>)
    requires |records| == |early|
  {
    forall k: nat :: k < |records| ==> Unmoved(e, records, k, Earlies(early, k))
  }

  lemma AgreementIsUnmoved<C(!new)>(e: Effects<C>, records: seq<Bytes>, early: seq<bool>, k: nat)
    requires Json(e) && AllPlain(e, records) && k < |records| == |early| && AgreesThroughout(e, records, early)
    ensures Unmoved(e, records, k, Earlies(early, k))
  {
    assert AgreesAt(e, records, early, k) && AgreesAt(e, records, early, k + 1);
    CoresAgree(e, records, early, k);
    CoresAgree(e, records, early, k + 1);
  }

  lemma UnmovedAgrees<C(!new)>(e: Effects<C>, records: seq<Bytes>, early: seq<bool>, k: nat)
    requires Json(e) && AllPlain(e, records) && k <= |records| == |early| && UnmovedThroughout(e, records, early)
    ensures AgreesAt(e, records, early, k)
  {
    UnmovedKeepsCore(e, records, early, k);
    CoresAgree(e, records, early, k);
  }

  /** For any one transcript and any early reductions of it: every call agrees with one pass if and only if no
      record's effect is moved by the count it is given. */
  lemma AgreesExactlyWhenUnmoved<C(!new)>(e: Effects<C>, records: seq<Bytes>, early: seq<bool>)
    requires Json(e) && AllPlain(e, records) && |early| == |records|
    ensures AgreesThroughout(e, records, early) <==> UnmovedThroughout(e, records, early)
  {
    if AgreesThroughout(e, records, early) {
      forall k: nat | k < |records| ensures Unmoved(e, records, k, Earlies(early, k)) {
        AgreementIsUnmoved(e, records, early, k);
      }
    }
    if UnmovedThroughout(e, records, early) {
      forall k: nat | k <= |records| ensures AgreesAt(e, records, early, k) {
        UnmovedAgrees(e, records, early, k);
      }
    }
  }
}
