/** The calls that make a growing transcript be read in pieces: what the cached entry then holds is what `Fed` says. */
module IncrementalCalls {
  import opened Lines
  import opened ReductionCache
  import opened LineCounter

  /** The file once `k` records are there with their newlines. */
  function Part(records: seq<Bytes>, k: nat): Bytes
    requires k <= |records|
  {
    Unlines(records[..k])
  }

  /** The entry after one call for each of the first `k` records that is read before its newline is written; the calls
      see any modification times. */
  function EntryAfter<C>(e: Effects<C>, records: seq<Bytes>, early: seq<bool>, times: seq<nat>, k: nat): Entry<Counted<C>>
    requires k <= |records| == |early| == |times|
  {
    if k == 0 then EmptyEntry(CountedReader(e))
    else
      var before := EntryAfter(e, records, early, times, k - 1);
      if early[k - 1]
      then BroughtUp(CountedReader(e), before, File(Part(records, k - 1) + records[k - 1], times[k - 1]), k)
      else before
  }

  /** Reading on from the entry leads where the early reads lead. */
  ghost predicate LeadsTo<C>(r: Reader<Counted<C>>, entry: Entry<Counted<C>>, content: Bytes, at: Cursor<Counted<C>>) {
    entry.len <= |content| && Scan(r, Cursor(entry.reducer, entry.pending), content[entry.len..]) == at
  }

  lemma PartGrows(records: seq<Bytes>, k: nat)
    requires k < |records|
    ensures Part(records, k + 1) == Part(records, k) + records[k] + [NEWLINE]
  {
    assert records[..k + 1][..k] == records[..k];
  }

  lemma LeadsOn<C>(r: Reader<Counted<C>>, entry: Entry<Counted<C>>, content: Bytes, at: Cursor<Counted<C>>, more: Bytes)
    requires LeadsTo(r, entry, content, at)
    ensures LeadsTo(r, entry, content + more, Scan(r, at, more))
  {
    assert (content + more)[entry.len..] == content[entry.len..] + more;
    ScanConcat(r, Cursor(entry.reducer, entry.pending), content[entry.len..], more);
  }

  /** A call on a file that has grown leaves the entry at its end, flushed. */
  lemma CallLeads<C>(r: Reader<Counted<C>>, entry: Entry<Counted<C>>, file: File, now: nat, at: Cursor<Counted<C>>)
    requires LeadsTo(r, entry, file.content, at) && entry.len < |file.content|
    ensures LeadsTo(r, BroughtUp(r, entry, file, now), file.content, Flush(r, at))
    ensures BroughtUp(r, entry, file, now).reducer == Flush(r, at).reducer
  {
  }

  lemma EarlyCallLeads<C>(e: Effects<C>, entry: Entry<Counted<C>>, content: Bytes, line: Bytes, time: nat, now: nat,
                          at: Cursor<Counted<C>>)
    requires line != [] && LeadsTo(CountedReader(e), entry, content, at)
    ensures var r := CountedReader(e);
            LeadsTo(r, BroughtUp(r, entry, File(content + line, time), now), content + line + [NEWLINE],
                    Scan(r, Flush(r, Scan(r, at, line)), [NEWLINE]))
  {
    var r := CountedReader(e);
    LeadsOn(r, entry, content, at, line);
    CallLeads(r, entry, File(content + line, time), now, Scan(r, at, line));
    LeadsOn(r, BroughtUp(r, entry, File(content + line, time), now), content + line, Flush(r, Scan(r, at, line)), [NEWLINE]);
  }

  lemma {:induction false} EntryLeads<C>(e: Effects<C>, records: seq<Bytes>, early: seq<bool>, times: seq<nat>, k: nat)
    requires AllPlain(e, records) && k <= |records| == |early| == |times|
    ensures LeadsTo(CountedReader(e), EntryAfter(e, records, early, times, k), Part(records, k), Fed(e, records, early, k))
    ensures k > 0 ==> EntryAfter(e, records, early, times, k).len < |Part(records, k)|
  {
    var r := CountedReader(e);
    if k == 0 {
      assert Part(records, 0) == [];
    } else {
      EntryLeads(e, records, early, times, k - 1);
      PartGrows(records, k - 1);
      assert Plain(e, records[k - 1]);
      var before, at := EntryAfter(e, records, early, times, k - 1), Fed(e, records, early, k - 1);
      if early[k - 1] {
        EarlyCallLeads(e, before, Part(records, k - 1), records[k - 1], times[k - 1], k, at);
      } else {
        LeadsOn(r, before, Part(records, k - 1), at, records[k - 1]);
        LeadsOn(r, before, Part(records, k - 1) + records[k - 1], Scan(r, at, records[k - 1]), [NEWLINE]);
      }
    }
  }

  /** For any transcript, whichever of its records were read early: the next call returns the reducer that `Fed`
      gives. */
  lemma CallsFollowFed<C>(e: Effects<C>, records: seq<Bytes>, early: seq<bool>, times: seq<nat>, k: nat, time: nat, now: nat)
    requires Json(e) && AllPlain(e, records) && k <= |records| == |early| == |times|
    ensures BroughtUp(CountedReader(e), EntryAfter(e, records, early, times, k), File(Part(records, k), time), now).reducer
         == Fed(e, records, early, k).reducer
  {
    var r, entry := CountedReader(e), EntryAfter(e, records, early, times, k);
    EntryLeads(e, records, early, times, k);
    FedIsShifted(e, records, early, k);
    if k > 0 {
      CallLeads(r, entry, File(Part(records, k), time), now, Fed(e, records, early, k));
    }
  }
}
