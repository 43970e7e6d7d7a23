/** The rotating log: what the shift of its generations keeps, and what a reader of all files finds. */
module RotatingLog {
  import opened GateTypes
  import opened Lines

  const MAX_U64 := 0xFFFF_FFFF_FFFF_FFFF

  /** The files by generation, the live one first; the index range is the range of generations. */
  type Files = f: seq<Option<Bytes>> | |f| > 0 witness [None]

  function Saturated(n: nat): nat {
    if n > MAX_U64 then MAX_U64 else n
  }

  function Content(file: Option<Bytes>): Bytes {
    if file.Some? then file.value else []
  }

  // ---------- Rotation ----------

  /** What the shift leaves at a numbered generation: the next younger file where there is one; the
      oldest generation stays in place when nothing is moved onto it. */
  function Moved(f: Files, n: nat): Option<Bytes>
    requires n < |f|
  {
    if n > 0 && f[n - 1].Some? then f[n - 1] else if n < |f| - 1 then None else f[n]
  }

  function Reopened(f: Files): Files {
    f[0 := Some(Content(f[0]))]
  }

  function Rotated(f: Files): Files {
    Reopened(seq(|f|, n requires 0 <= n < |f| => Moved(f, n)))
  }

  function Appended(f: Files, buf: Bytes, rotateBytes: nat): Files {
    var grown := f[0 := Some(Content(f[0]) + buf)];
    if |grown[0].value| >= rotateBytes then Rotated(grown) else grown
  }

  class Log {
    var files: Files
    var written: nat
    const rotateBytes: nat

    ghost predicate Valid()
      reads this
    {
      files[0].Some? && written == Saturated(|files[0].value|) && rotateBytes <= MAX_U64 && |files| <= 256
    }

    constructor (existing: Files, rotateBytes: nat)
      requires rotateBytes <= MAX_U64 && |existing| <= 256
      ensures Valid() && files == Reopened(existing) && this.rotateBytes == rotateBytes
    {
      this.rotateBytes := rotateBytes;
      files := existing;
      written := 0;
      new;
      Reopen();
    }

    method Reopen()
      modifies this
      ensures files == Reopened(old(files)) && written == Saturated(|Content(files[0])|)
    {
      if files[0].None? {
        files := files[0 := Some([])];
      }
      written := Saturated(|files[0].value|);
    }

    method Rotate()
      requires Valid()
      modifies this
      ensures Valid() && files == Rotated(old(files))
    {
      var n := |files| - 1;
      while n >= 1
        invariant 0 <= n < |files| == old(|files|)
        invariant forall k :: 0 <= k < n ==> files[k] == old(files)[k]
        invariant forall k :: n < k < |files| ==> files[k] == Moved(old(files), k)
        invariant files[n] == if n < |files| - 1 then None else old(files)[n]
      {
        if files[n - 1].Some? {
          files := files[n := files[n - 1]][n - 1 := None];
        }
        n := n - 1;
      }
      Reopen();
    }

    /** Always reports the whole buffer as taken. */
    method Write(buf: Bytes) returns (taken: nat)
      requires Valid()
      modifies this
      ensures Valid() && taken == |buf|
      ensures files == Appended(old(files), buf, rotateBytes)
    {
      files := files[0 := Some(files[0].value + buf)];
      written := Saturated(written + |buf|);
      if written >= rotateBytes {
        Rotate();
      }
      taken := |buf|;
    }
  }

  // ---------- Reading back ----------

  /** All bytes of the files from generation `n` down to the live one, oldest first. */
  function Readback(f: Files, n: nat): Bytes
    requires n < |f|
  {
    Content(f[n]) + if n == 0 then [] else Readback(f, n - 1)
  }

  function ReadAll(f: Files): Bytes {
    Readback(f, |f| - 1)
  }

  lemma {:induction false} ShiftKeepsOrder(f: Files, n: nat)
    requires 1 <= n < |f| && (n < |f| - 1 || f[n - 1].Some?)
    ensures Readback(Rotated(f), n) == Readback(f, n - 1)
  {
    if n == 1 {
      assert Readback(Rotated(f), 0) == [];
    } else {
      ShiftKeepsOrder(f, n - 1);
    }
  }

  /** Whichever generations exist, a rotation loses exactly the oldest one, and that only when a younger
      file takes its place; nothing else is lost, repeated or reordered. */
  lemma RotationLosesOldestOnly(f: Files)
    requires |f| > 1 && f[0].Some?
    ensures ReadAll(f) == (if f[|f| - 2].Some? then Content(f[|f| - 1]) else []) + ReadAll(Rotated(f))
  {
    var g := |f| - 1;
    assert Rotated(f)[g] == Moved(f, g);
    assert ReadAll(f) == Content(f[g]) + Readback(f, g - 1);
    if f[g - 1].Some? {
      ShiftKeepsOrder(f, g);
    } else {
      ShiftKeepsOrder(f, g - 1);
      assert Readback(f, g - 1) == Readback(f, g - 2);
    }
  }

  // ---------- A whole history ----------

  /** All the bytes of these records. */
  function Joined(records: seq<Bytes>): Bytes {
    if records == [] then [] else Joined(records[..|records| - 1]) + records[|records| - 1]
  }

  /** The files after writing these records to a log that started with none. */
  function Logged(records: seq<Bytes>, rotateBytes: nat, generations: nat): (f: Files)
    ensures |f| == generations + 1
  {
    if records == [] then Reopened(seq(generations + 1, _ => None))
    else Appended(Logged(records[..|records| - 1], rotateBytes, generations), records[|records| - 1], rotateBytes)
  }

  function NextCuts(cuts: seq<nat>, total: nat, rotateBytes: nat): seq<nat>
    requires cuts != []
  {
    if total - cuts[|cuts| - 1] >= rotateBytes then cuts + [total] else cuts
  }

  /** How many bytes had been written each time a new live file was started. */
  function Cuts(records: seq<Bytes>, rotateBytes: nat): (cuts: seq<nat>)
    ensures cuts != []
  {
    if records == [] then [0]
    else NextCuts(Cuts(records[..|records| - 1], rotateBytes), |Joined(records)|, rotateBytes)
  }

  /** From its first byte on, each cut is at least a full file after the one before, and less than a full
      file and one record; the live file is not full. */
  ghost predicate Spaced(cuts: seq<nat>, total: nat, rotateBytes: nat, longest: nat) {
    && cuts != []
    && cuts[0] == 0
    && cuts[|cuts| - 1] <= total
    && (rotateBytes > 0 ==> total - cuts[|cuts| - 1] < rotateBytes)
    && (forall i :: 0 < i < |cuts| ==> cuts[i - 1] + rotateBytes <= cuts[i])
    && (rotateBytes > 0 ==> forall i :: 0 < i < |cuts| ==> cuts[i] < cuts[i - 1] + rotateBytes + longest)
  }

  lemma NextIsSpaced(cuts: seq<nat>, total: nat, more: nat, rotateBytes: nat, longest: nat)
    requires Spaced(cuts, total, rotateBytes, longest) && total <= more <= total + longest && longest > 0
    ensures Spaced(NextCuts(cuts, more, rotateBytes), more, rotateBytes, longest)
  {
  }

  lemma {:induction false} CutsAreSpaced(records: seq<Bytes>, rotateBytes: nat, longest: nat)
    requires longest > 0 && forall i :: 0 <= i < |records| ==> |records[i]| <= longest
    ensures Spaced(Cuts(records, rotateBytes), |Joined(records)|, rotateBytes, longest)
  {
    if records != [] {
      var front := records[..|records| - 1];
      CutsAreSpaced(front, rotateBytes, longest);
      NextIsSpaced(Cuts(front, rotateBytes), |Joined(front)|, |Joined(records)|, rotateBytes, longest);
    }
  }

  lemma {:induction false} Longest(records: seq<Bytes>) returns (longest: nat)
    ensures longest > 0 && forall i :: 0 <= i < |records| ==> |records[i]| <= longest
  {
    if records == [] {
      longest := 1;
    } else {
      longest := Longest(records[..|records| - 1]);
      if longest < |records[|records| - 1]| {
        longest := |records[|records| - 1]|;
      }
    }
  }

  ghost predicate Boundary(records: seq<Bytes>, j: nat, at: nat) {
    j <= |records| && at == |Joined(records[..j])|
  }

  /** Every cut falls between two records. */
  lemma {:induction false} CutsAreBoundaries(records: seq<Bytes>, rotateBytes: nat, k: nat) returns (j: nat)
    requires k < |Cuts(records, rotateBytes)|
    ensures Boundary(records, j, Cuts(records, rotateBytes)[k])
  {
    if records == [] {
      j := 0;
    } else {
      var front := records[..|records| - 1];
      if k < |Cuts(front, rotateBytes)| {
        j := CutsAreBoundaries(front, rotateBytes, k);
        assert front[..j] == records[..j];
      } else {
        j := |records|;
        assert records[..j] == records;
      }
    }
  }

  /** Where generation `n` starts and ends among all written bytes. */
  function From(cuts: seq<nat>, n: nat): nat {
    if n < |cuts| then cuts[|cuts| - 1 - n] else 0
  }

  function Upto(cuts: seq<nat>, n: nat, total: nat): nat {
    if n == 0 then total else From(cuts, n - 1)
  }

  ghost predicate FileIs(file: Option<Bytes>, written: Bytes, from: nat, upto: nat) {
    from <= upto <= |written| && Content(file) == written[from..upto]
  }

  ghost predicate FilesHold(f: Files, written: Bytes, cuts: seq<nat>) {
    forall n: nat :: n < |f| ==>
      && (f[n].Some? <==> n < |cuts|)
      && FileIs(f[n], written, From(cuts, n), Upto(cuts, n, |written|))
  }

  lemma FileGrows(file: Option<Bytes>, written: Bytes, from: nat, record: Bytes)
    requires FileIs(file, written, from, |written|)
    ensures FileIs(Some(Content(file) + record), written + record, from, |written + record|)
  {
  }

  lemma FileStays(file: Option<Bytes>, written: Bytes, from: nat, upto: nat, record: Bytes)
    requires FileIs(file, written, from, upto)
    ensures FileIs(file, written + record, from, upto)
  {
    assert (written + record)[from..upto] == written[from..upto];
  }

  lemma AppendKeepsFiles(f: Files, written: Bytes, cuts: seq<nat>, record: Bytes)
    requires cuts != [] && FilesHold(f, written, cuts)
    ensures FilesHold(f[0 := Some(Content(f[0]) + record)], written + record, cuts)
  {
    FileGrows(f[0], written, From(cuts, 0), record);
    forall n: nat | 0 < n < |f|
      ensures FileIs(f[n], written + record, From(cuts, n), Upto(cuts, n, |written|))
    {
      FileStays(f[n], written, From(cuts, n), Upto(cuts, n, |written|), record);
    }
  }

  lemma CutsShift(cuts: seq<nat>, total: nat, n: nat)
    requires n > 0
    ensures From(cuts + [total], n) == From(cuts, n - 1)
    ensures Upto(cuts + [total], n, total) == Upto(cuts, n - 1, total)
    ensures From(cuts + [total], 0) == total
  {
  }

  /** Each generation takes over the interval of the next younger one. */
  lemma RotationMovesFile(f: Files, written: Bytes, cuts: seq<nat>, n: nat)
    requires 0 < n < |f| && cuts != [] && cuts[0] == 0
    requires FileIs(f[n - 1], written, From(cuts, n - 1), Upto(cuts, n - 1, |written|))
    requires FileIs(f[n], written, From(cuts, n), Upto(cuts, n, |written|))
    requires (f[n - 1].Some? <==> n - 1 < |cuts|) && (f[n].Some? <==> n < |cuts|)
    ensures Rotated(f)[n].Some? <==> n < |cuts| + 1
    ensures FileIs(Rotated(f)[n], written, From(cuts, n - 1), Upto(cuts, n - 1, |written|))
  {
    assert Rotated(f)[n] == Moved(f, n);
  }

  lemma RotationKeepsFiles(f: Files, written: Bytes, cuts: seq<nat>)
    requires |f| > 1 && cuts != [] && cuts[0] == 0 && FilesHold(f, written, cuts)
    ensures FilesHold(Rotated(f), written, cuts + [|written|])
  {
    forall n: nat | n < |f|
      ensures Rotated(f)[n].Some? <==> n < |cuts + [|written|]|
      ensures FileIs(Rotated(f)[n], written, From(cuts + [|written|], n), Upto(cuts + [|written|], n, |written|))
    {
      if n > 0 {
        CutsShift(cuts, |written|, n);
        RotationMovesFile(f, written, cuts, n);
      } else {
        CutsShift(cuts, |written|, 1);
        assert Rotated(f)[0] == Some([]);
      }
    }
  }

  lemma LiveSize(f: Files, written: Bytes, cuts: seq<nat>)
    requires cuts != [] && FilesHold(f, written, cuts)
    ensures cuts[|cuts| - 1] <= |written| && |Content(f[0])| == |written| - cuts[|cuts| - 1]
  {
    assert FileIs(f[0], written, From(cuts, 0), |written|);
  }

  lemma {:induction false} CutsStartAtZero(records: seq<Bytes>, rotateBytes: nat)
    ensures Cuts(records, rotateBytes)[0] == 0
  {
    if records != [] {
      CutsStartAtZero(records[..|records| - 1], rotateBytes);
    }
  }

  /** Each file holds one interval of everything that was written. */
  lemma {:induction false} FilesAreIntervals(records: seq<Bytes>, rotateBytes: nat, generations: nat)
    requires generations >= 1
    ensures FilesHold(Logged(records, rotateBytes, generations), Joined(records), Cuts(records, rotateBytes))
  {
    if records == [] {
    } else {
      var front, last := records[..|records| - 1], records[|records| - 1];
      var f, cuts := Logged(front, rotateBytes, generations), Cuts(front, rotateBytes);
      FilesAreIntervals(front, rotateBytes, generations);
      AppendKeepsFiles(f, Joined(front), cuts, last);
      var grown := f[0 := Some(Content(f[0]) + last)];
      CutsStartAtZero(front, rotateBytes);
      LiveSize(grown, Joined(records), cuts);
      if |grown[0].value| >= rotateBytes {
        RotationKeepsFiles(grown, Joined(records), cuts);
      }
    }
  }

  // ---------- Reading it back ----------

  lemma SuffixStep(written: Bytes, from: nat, upto: nat)
    requires from <= upto <= |written|
    ensures written[from..upto] + written[upto..] == written[from..]
  {
  }

  lemma ReadbackStep(f: Files, written: Bytes, n: nat, from: nat, upto: nat)
    requires 0 < n < |f| && FileIs(f[n], written, from, upto) && Readback(f, n - 1) == written[upto..]
    ensures Readback(f, n) == written[from..]
  {
    SuffixStep(written, from, upto);
  }

  /** The same of the `n` youngest generations, one at a time. */
  ghost predicate YoungestHold(f: Files, written: Bytes, cuts: seq<nat>, n: nat)
    requires n < |f|
  {
    && FileIs(f[n], written, From(cuts, n), Upto(cuts, n, |written|))
    && (n > 0 ==> YoungestHold(f, written, cuts, n - 1))
  }

  lemma {:induction false} HoldEach(f: Files, written: Bytes, cuts: seq<nat>, n: nat)
    requires n < |f| && FilesHold(f, written, cuts)
    ensures YoungestHold(f, written, cuts, n)
  {
    if n > 0 {
      HoldEach(f, written, cuts, n - 1);
    }
  }

  ghost predicate ReadsSuffix(f: Files, n: nat, written: Bytes, from: nat)
    requires n < |f|
  {
    from <= |written| && Readback(f, n) == written[from..]
  }

  lemma {:induction false} ReadbackIsSuffix(f: Files, written: Bytes, cuts: seq<nat>, n: nat)
    requires n < |f| && YoungestHold(f, written, cuts, n)
    ensures ReadsSuffix(f, n, written, From(cuts, n))
  {
    if n == 0 {
      assert written[From(cuts, 0)..|written|] == written[From(cuts, 0)..];
    } else {
      ReadbackIsSuffix(f, written, cuts, n - 1);
      ReadbackStep(f, written, n, From(cuts, n), From(cuts, n - 1));
    }
  }

  /** How many of the oldest bytes are gone. */
  function Dropped(records: seq<Bytes>, rotateBytes: nat, generations: nat): nat {
    if generations == 0 then 0 else From(Cuts(records, rotateBytes), generations)
  }

  lemma {:induction false} UnrotatedKeepsAll(records: seq<Bytes>, rotateBytes: nat)
    ensures Logged(records, rotateBytes, 0) == [Some(Joined(records))]
  {
    if records != [] {
      UnrotatedKeepsAll(records[..|records| - 1], rotateBytes);
    }
  }

  /** Reading the generations oldest first gives a suffix of everything that was ever written. */
  lemma RotationKeepsSuffix(records: seq<Bytes>, rotateBytes: nat, generations: nat)
    ensures ReadsSuffix(Logged(records, rotateBytes, generations), generations, Joined(records),
                        Dropped(records, rotateBytes, generations))
  {
    if generations == 0 {
      UnrotatedKeepsAll(records, rotateBytes);
    } else {
      FilesAreIntervals(records, rotateBytes, generations);
      var f, cuts := Logged(records, rotateBytes, generations), Cuts(records, rotateBytes);
      HoldEach(f, Joined(records), cuts, generations);
      ReadbackIsSuffix(f, Joined(records), cuts, generations);
    }
  }

  lemma {:induction false} SpacedApart(cuts: seq<nat>, total: nat, rotateBytes: nat, longest: nat, k: nat)
    requires Spaced(cuts, total, rotateBytes, longest) && k < |cuts|
    ensures k * rotateBytes <= total - cuts[|cuts| - 1 - k]
  {
    if k > 0 {
      SpacedApart(cuts, total, rotateBytes, longest, k - 1);
      assert k * rotateBytes == (k - 1) * rotateBytes + rotateBytes;
    }
  }

  /** It starts between two records, and unless nothing is gone it is at least
      `generations * rotateBytes` long. */
  lemma SuffixIsLongAndWhole(records: seq<Bytes>, rotateBytes: nat, generations: nat) returns (j: nat)
    ensures Boundary(records, j, Dropped(records, rotateBytes, generations))
    ensures Dropped(records, rotateBytes, generations) > 0 ==>
              |Joined(records)| - Dropped(records, rotateBytes, generations) >= generations * rotateBytes
  {
    var cuts := Cuts(records, rotateBytes);
    if 0 < generations < |cuts| {
      j := CutsAreBoundaries(records, rotateBytes, |cuts| - 1 - generations);
      var longest := Longest(records);
      CutsAreSpaced(records, rotateBytes, longest);
      SpacedApart(cuts, |Joined(records)|, rotateBytes, longest, generations);
    } else {
      j := 0;
    }
  }

  /** No file outgrows the limit by more than one record. */
  lemma FilesStaySmall(records: seq<Bytes>, rotateBytes: nat, generations: nat, longest: nat, n: nat)
    requires generations >= 1 && rotateBytes > 0 && n <= generations && longest > 0
    requires forall i :: 0 <= i < |records| ==> |records[i]| <= longest
    ensures |Content(Logged(records, rotateBytes, generations)[n])| < rotateBytes + longest
  {
    FilesAreIntervals(records, rotateBytes, generations);
    CutsAreSpaced(records, rotateBytes, longest);
    var cuts := Cuts(records, rotateBytes);
    assert FileIs(Logged(records, rotateBytes, generations)[n], Joined(records), From(cuts, n),
                  Upto(cuts, n, |Joined(records)|));
  }

  // ---------- The decision log's report ----------

  /** The lines the report reads, file by file, oldest first. */
  function ReportLines(f: Files, n: nat): seq<Bytes>
    requires n < |f|
  {
    SplitOf(Content(f[n])).lines + if n == 0 then [] else ReportLines(f, n - 1)
  }

  ghost predicate Ended(written: Bytes, at: nat) {
    at <= |written| && (at > 0 ==> written[at - 1] == NEWLINE)
  }

  lemma {:induction false} SplitConcat(a: Bytes, b: Bytes)
    requires SplitOf(a).tail == []
    ensures SplitOf(a + b) == Split(SplitOf(a).lines + SplitOf(b).lines, SplitOf(b).tail)
  {
    if b == [] {
      assert a + b == a;
    } else {
      SplitConcat(a, b[..|b| - 1]);
      assert (a + b)[..|a + b| - 1] == a + b[..|b| - 1];
    }
  }

  lemma SplitInterval(written: Bytes, from: nat, upto: nat)
    requires from <= upto && Ended(written, upto)
    ensures SplitOf(written[from..]).lines == SplitOf(written[from..upto]).lines + SplitOf(written[upto..]).lines
  {
    SplitConcat(written[from..upto], written[upto..]);
    SuffixStep(written, from, upto);
  }

  ghost predicate ReportsSuffix(f: Files, n: nat, written: Bytes, from: nat)
    requires n < |f|
  {
    from <= |written| && ReportLines(f, n) == SplitOf(written[from..]).lines
  }

  lemma ReportStep(f: Files, written: Bytes, n: nat, from: nat, upto: nat)
    requires 0 < n < |f| && FileIs(f[n], written, from, upto) && Ended(written, upto)
    requires ReportLines(f, n - 1) == SplitOf(written[upto..]).lines
    ensures ReportLines(f, n) == SplitOf(written[from..]).lines
  {
    SplitInterval(written, from, upto);
  }

  lemma {:induction false} ReportReadsSuffix(f: Files, written: Bytes, cuts: seq<nat>, n: nat)
    requires n < |f| && YoungestHold(f, written, cuts, n)
    requires forall k :: 0 <= k < |cuts| ==> Ended(written, cuts[k])
    ensures ReportsSuffix(f, n, written, From(cuts, n))
  {
    if n == 0 {
      assert written[From(cuts, 0)..|written|] == written[From(cuts, 0)..];
    } else {
      ReportReadsSuffix(f, written, cuts, n - 1);
      assert Ended(written, From(cuts, n - 1));
      ReportStep(f, written, n, From(cuts, n), From(cuts, n - 1));
    }
  }

  /** A decision and its newline. */
  function LineRecord(line: Bytes): Bytes {
    line + [NEWLINE]
  }

  function Records(lines: seq<Bytes>): (records: seq<Bytes>)
    ensures |records| == |lines|
  {
    if lines == [] then [] else Records(lines[..|lines| - 1]) + [LineRecord(lines[|lines| - 1])]
  }

  lemma {:induction false} RecordsOfPrefix(lines: seq<Bytes>, j: nat)
    requires j <= |lines|
    ensures Records(lines)[..j] == Records(lines[..j])
  {
    if j == |lines| {
      assert lines[..j] == lines;
    } else {
      RecordsOfPrefix(lines[..|lines| - 1], j);
      assert lines[..|lines| - 1][..j] == lines[..j];
    }
  }

  lemma {:induction false} RecordsJoin(lines: seq<Bytes>)
    ensures Joined(Records(lines)) == Unlines(lines)
  {
    if lines != [] {
      RecordsJoin(lines[..|lines| - 1]);
      assert Records(lines)[..|lines| - 1] == Records(lines[..|lines| - 1]);
    }
  }

  lemma UnlinesOneMore(lines: seq<Bytes>, line: Bytes)
    ensures Unlines(lines + [line]) == Unlines(lines) + LineRecord(line)
  {
    assert (lines + [line])[..|lines|] == lines;
    assert Unlines(lines) + line + [NEWLINE] == Unlines(lines) + LineRecord(line);
  }

  lemma Regrouped(a: Bytes, b: Bytes, c: Bytes)
    ensures (a + b) + c == a + (b + c)
  {
  }

  lemma {:induction false} UnlinesConcat(a: seq<Bytes>, b: seq<Bytes>)
    ensures Unlines(a + b) == Unlines(a) + Unlines(b)
  {
    if b == [] {
      assert a + b == a;
    } else {
      var front, last := b[..|b| - 1], b[|b| - 1];
      UnlinesConcat(a, front);
      assert a + b == (a + front) + [last] && b == front + [last];
      UnlinesOneMore(a + front, last);
      UnlinesOneMore(front, last);
      Regrouped(Unlines(a), Unlines(front), LineRecord(last));
    }
  }

  lemma UnlinesFrom(lines: seq<Bytes>, j: nat)
    requires j <= |lines|
    ensures Unlines(lines) == Unlines(lines[..j]) + Unlines(lines[j..])
    ensures Ended(Unlines(lines), |Unlines(lines[..j])|)
  {
    UnlinesConcat(lines[..j], lines[j..]);
    assert lines == lines[..j] + lines[j..];
  }

  /** The decisions from the `j`-th on are the lines of the bytes from there on. */
  lemma LinesFrom(lines: seq<Bytes>, j: nat, at: nat)
    requires forall i :: 0 <= i < |lines| ==> OneLine(lines[i])
    requires Boundary(Records(lines), j, at)
    ensures Ended(Unlines(lines), at) && SplitOf(Unlines(lines)[at..]).lines == lines[j..]
  {
    RecordsOfPrefix(lines, j);
    RecordsJoin(lines[..j]);
    UnlinesFrom(lines, j);
    SplitOfUnlines(lines[j..]);
  }

  lemma CutsEnd(lines: seq<Bytes>, rotateBytes: nat, k: nat)
    requires forall i :: 0 <= i < |lines| ==> OneLine(lines[i])
    requires k < |Cuts(Records(lines), rotateBytes)|
    ensures Ended(Unlines(lines), Cuts(Records(lines), rotateBytes)[k])
  {
    var j := CutsAreBoundaries(Records(lines), rotateBytes, k);
    LinesFrom(lines, j, Cuts(Records(lines), rotateBytes)[k]);
  }

  /** The report sees exactly the newest decisions, each once and whole, in the order they were taken. */
  lemma ReportSeesNewest(lines: seq<Bytes>, rotateBytes: nat, generations: nat) returns (j: nat)
    requires generations >= 1 && forall i :: 0 <= i < |lines| ==> OneLine(lines[i])
    ensures Boundary(Records(lines), j, Dropped(Records(lines), rotateBytes, generations))
    ensures j <= |lines|
    ensures ReportLines(Logged(Records(lines), rotateBytes, generations), generations) == lines[j..]
  {
    var records := Records(lines);
    var cuts := Cuts(records, rotateBytes);
    j := SuffixIsLongAndWhole(records, rotateBytes, generations);
    LinesFrom(lines, j, Dropped(records, rotateBytes, generations));
    RecordsJoin(lines);
    FilesAreIntervals(records, rotateBytes, generations);
    forall k | 0 <= k < |cuts| ensures Ended(Unlines(lines), cuts[k]) {
      CutsEnd(lines, rotateBytes, k);
    }
    HoldEach(Logged(records, rotateBytes, generations), Unlines(lines), cuts, generations);
    ReportReadsSuffix(Logged(records, rotateBytes, generations), Unlines(lines), cuts, generations);
  }
}
