/** Any sequence of incremental reductions, over any files, on a cache that starts empty. */
module CacheRuns {
  import opened GateTypes
  import opened ReductionCache

  /** One call: a path, and the file as that call sees it. */
  datatype Call = Call(path: string, file: File)

  /** What the last of these calls to read the path saw. */
  function LastRead(calls: seq<Call>, path: string): Option<File> {
    if calls == [] then None
    else if calls[|calls| - 1].path == path then Some(calls[|calls| - 1].file)
    else LastRead(calls[..|calls| - 1], path)
  }

  /** Each file against what the previous call read at the same path. */
  ghost predicate HonestAt(calls: seq<Call>, i: nat)
    requires i < |calls|
  {
    var before := LastRead(calls[..i], calls[i].path);
    before.Some? ==> Honest(before.value, calls[i].file)
  }

  ghost predicate HonestHistory(calls: seq<Call>) {
    forall i :: 0 <= i < |calls| ==> HonestAt(calls, i)
  }

  ghost predicate AllRecords<V>(q: Reader<V>, calls: seq<Call>) {
    forall i :: 0 <= i < |calls| ==> Records(q, calls[i].file.content)
  }

  /** What is shown of each cached path is what was last read there. */
  ghost predicate ShowsHistory(shown: map<string, File>, calls: seq<Call>) {
    forall p :: p in shown ==> LastRead(calls, p) == Some(shown[p])
  }

  lemma LastReadOnward(calls: seq<Call>, call: Call, path: string)
    ensures LastRead(calls + [call], path) == if call.path == path then Some(call.file) else LastRead(calls, path)
  {
    assert (calls + [call])[..|calls|] == calls;
  }

  lemma HistoryOnward(before: map<string, File>, after: map<string, File>, calls: seq<Call>, call: Call)
    requires ShowsHistory(before, calls) && Submap(after - {call.path}, before)
    requires call.path in after ==> after[call.path] == call.file
    ensures ShowsHistory(after, calls + [call])
  {
    forall p | p in after ensures LastRead(calls + [call], p) == Some(after[p]) {
      LastReadOnward(calls, call, p);
      assert p != call.path ==> p in after - {call.path};
    }
  }

  /** One more call after these. */
  method ReduceNext<S(!new), V(!new)>(cache: Cache<S, V>, ghost calls: seq<Call>, call: Call)
    returns (result: S, size: nat)
    requires cache.Valid() && cache.Lawful() && ShowsHistory(cache.shown, calls)
    requires Records(cache.plain, call.file.content) && HonestAt(calls + [call], |calls|)
    modifies cache
    ensures cache.Valid() && ShowsHistory(cache.shown, calls + [call])
    ensures cache.view(result) == Reduction(cache.plain, call.file.content) && size <= CACHE_CAP
  {
    ghost var before := cache.shown;
    assert (calls + [call])[..|calls|] == calls;
    result := cache.IncrementalReduction(call.path, call.file);
    HistoryOnward(before, cache.shown, calls, call);
    size := |cache.entries|;
  }

  /** A call's result and the size of the cache after it are right. */
  ghost predicate Right<S, V(!new)>(q: Reader<V>, view: S -> V, call: Call, result: S, size: nat) {
    view(result) == Reduction(q, call.file.content) && size <= CACHE_CAP
  }

  ghost predicate AllRight<S, V(!new)>(q: Reader<V>, view: S -> V, calls: seq<Call>, results: seq<S>, sizes: seq<nat>) {
    && |results| == |calls| == |sizes|
    && forall i :: 0 <= i < |calls| ==> Right(q, view, calls[i], results[i], sizes[i])
  }

  lemma RightOnward<S, V(!new)>(q: Reader<V>, view: S -> V, calls: seq<Call>, results: seq<S>, sizes: seq<nat>,
                                call: Call, result: S, size: nat)
    requires AllRight(q, view, calls, results, sizes) && Right(q, view, call, result, size)
    ensures AllRight(q, view, calls + [call], results + [result], sizes + [size])
  {
  }

  lemma HonestPrefix(calls: seq<Call>, n: nat)
    requires HonestHistory(calls) && n < |calls|
    ensures calls[..n + 1] == calls[..n] + [calls[n]]
    ensures HonestAt(calls[..n] + [calls[n]], n)
  {
    assert (calls[..n] + [calls[n]])[..n] == calls[..n];
    assert HonestAt(calls, n);
  }

  /** For every sequence of calls over any files: each result is the reduction of that call's content, whatever
      was read, dropped and read again before it, and the cache never holds more than 64 entries. */
  method ReduceAll<S(!new), V(!new)>(reader: Reader<S>, ghost plain: Reader<V>, ghost view: S -> V, calls: seq<Call>)
    returns (results: seq<S>, sizes: seq<nat>)
    requires Simulates(reader, plain, view) && Tolerant(plain)
    requires AllRecords(plain, calls) && HonestHistory(calls)
    ensures AllRight(plain, view, calls, results, sizes)
  {
    var cache := new Cache<S, V>(reader, plain, view);
    results, sizes := [], [];
    var n := 0;
    while n < |calls|
      invariant 0 <= n <= |calls|
      invariant fresh(cache) && cache.Valid() && cache.Lawful() && cache.plain == plain && cache.view == view
      invariant ShowsHistory(cache.shown, calls[..n])
      invariant AllRight(plain, view, calls[..n], results, sizes)
    {
      HonestPrefix(calls, n);
      var result, size := ReduceNext(cache, calls[..n], calls[n]);
      RightOnward(plain, view, calls[..n], results, sizes, calls[n], result, size);
      results, sizes := results + [result], sizes + [size];
      n := n + 1;
    }
    assert calls[..n] == calls;
  }
}
