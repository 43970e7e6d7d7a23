/** Incremental transcript reduction: each call reads only the bytes appended since the last one,
    reduces an unterminated record early when it already parses, starts over when a file shrinks
    or is rewritten in place, and keeps at most 64 files in a cache. Its result must be what one
    pass over the whole file would give. */
module ReductionCache {
  import opened Lines

  // ---------- The plain reduction ----------

  /** A reducer of lines. `push` leaves the state alone on bytes that are not UTF-8; `complete` says
      that the bytes are UTF-8 and parse as one JSON value. */
  datatype Reader<!S> = Reader(init: S, push: (S, Bytes) -> S, complete: Bytes -> bool)

  function Fold<S>(r: Reader<S>, lines: seq<Bytes>): S {
    if lines == [] then r.init else r.push(Fold(r, lines[..|lines| - 1]), lines[|lines| - 1])
  }

  /** The specification: fold the lines, and the unfinished tail too if it already parses. */
  function Reduction<S>(r: Reader<S>, c: Bytes): S {
    var s := SplitOf(c);
    if s.tail != [] && r.complete(s.tail) then r.push(Fold(r, s.lines), s.tail) else Fold(r, s.lines)
  }

  // ---------- Scanning ----------

  datatype Cursor<S> = Cursor(reducer: S, pending: Bytes)

  function Feed<S>(r: Reader<S>, at: Cursor<S>, b: Byte): Cursor<S> {
    if b == NEWLINE then Cursor(r.push(at.reducer, at.pending), []) else Cursor(at.reducer, at.pending + [b])
  }

  function Scan<S>(r: Reader<S>, at: Cursor<S>, bytes: Bytes): Cursor<S> {
    if bytes == [] then at else Feed(r, Scan(r, at, bytes[..|bytes| - 1]), bytes[|bytes| - 1])
  }

  function Flush<S>(r: Reader<S>, at: Cursor<S>): Cursor<S> {
    if at.pending != [] && r.complete(at.pending) then Cursor(r.push(at.reducer, at.pending), []) else at
  }

  function Fresh<S>(r: Reader<S>): Cursor<S> {
    Cursor(r.init, [])
  }

  lemma ScanOneMore<S>(r: Reader<S>, at: Cursor<S>, bytes: Bytes, k: nat)
    requires k < |bytes|
    ensures Scan(r, at, bytes[..k + 1]) == Feed(r, Scan(r, at, bytes[..k]), bytes[k])
  {
    assert bytes[..k + 1][..k] == bytes[..k];
  }

  /** Chunk boundaries do not matter. */
  lemma {:induction false} ScanConcat<S>(r: Reader<S>, at: Cursor<S>, a: Bytes, b: Bytes)
    ensures Scan(r, at, a + b) == Scan(r, Scan(r, at, a), b)
  {
    if b == [] {
      assert a + b == a;
    } else {
      ScanConcat(r, at, a, b[..|b| - 1]);
      assert (a + b)[..|a + b| - 1] == a + b[..|b| - 1];
    }
  }

  lemma {:induction false} ScanIsFold<S>(r: Reader<S>, c: Bytes)
    ensures Scan(r, Fresh(r), c) == Cursor(Fold(r, SplitOf(c).lines), SplitOf(c).tail)
  {
    if c != [] {
      ScanIsFold(r, c[..|c| - 1]);
      var s := SplitOf(c[..|c| - 1]);
      assert (s.lines + [s.tail])[..|s.lines|] == s.lines;
    }
  }

  // ---------- What the reducer and the file must respect ----------

  /** JSON white space. */
  predicate BlankByte(b: Byte) {
    b == 9 || b == 10 || b == 13 || b == 32
  }

  predicate Blank(w: Bytes) {
    forall i :: 0 <= i < |w| ==> BlankByte(w[i])
  }

  /** Blank lines, and blanks after a complete value, are ignored. */
  ghost predicate Tolerant<V(!new)>(r: Reader<V>) {
    && (forall v, w :: Blank(w) ==> r.push(v, w) == v)
    && (forall w :: Blank(w) ==> !r.complete(w))
    && (forall p, w :: r.complete(p) && Blank(w) ==> r.complete(p + w))
    && (forall v, p, w :: r.complete(p) && Blank(w) ==> r.push(v, p + w) == r.push(v, p))
  }

  /** After a prefix that is a complete value a record has nothing but blanks. This is so of every
      line that is a JSON object and of every line that is no JSON at all. */
  ghost predicate Record<S>(r: Reader<S>, line: Bytes) {
    forall k :: 0 < k <= |line| && r.complete(line[..k]) ==> Blank(line[k..])
  }

  ghost predicate Records<S>(r: Reader<S>, c: Bytes) {
    && Record(r, SplitOf(c).tail)
    && forall i :: 0 <= i < |SplitOf(c).lines| ==> Record(r, SplitOf(c).lines[i])
  }

  lemma RecordPrefix<S>(r: Reader<S>, line: Bytes, b: Byte)
    requires Record(r, line + [b])
    ensures Record(r, line)
  {
    forall k | 0 < k <= |line| && r.complete(line[..k])
      ensures Blank(line[k..])
    {
      assert (line + [b])[..k] == line[..k];
      assert (line + [b])[k..] == line[k..] + [b];
      assert forall i :: 0 <= i < |line[k..]| ==> line[k..][i] == (line[k..] + [b])[i];
    }
  }

  lemma RecordsPrefix<S>(r: Reader<S>, c: Bytes, b: Byte)
    requires Records(r, c + [b])
    ensures Records(r, c)
  {
    assert (c + [b])[..|c|] == c;
    var s, t := SplitOf(c), SplitOf(c + [b]);
    if b == NEWLINE {
      assert t.lines[|s.lines|] == s.tail;
      assert forall i :: 0 <= i < |s.lines| ==> t.lines[i] == s.lines[i];
    } else {
      RecordPrefix(r, s.tail, b);
    }
  }

  // ---------- Early reductions are harmless ----------

  /** The incremental cursor against the plain scan of the same bytes: level with it, or ahead by a
      complete record of `p` bytes after which only blanks are pending. */
  ghost predicate AheadBy<V>(r: Reader<V>, at: Cursor<V>, plain: Cursor<V>, p: nat) {
    && 0 < p <= |plain.pending| && r.complete(plain.pending[..p])
    && at.pending == plain.pending[p..] && Blank(at.pending)
    && at.reducer == r.push(plain.reducer, plain.pending[..p])
  }

  ghost predicate Tracks<V>(r: Reader<V>, at: Cursor<V>, plain: Cursor<V>) {
    at == plain || exists p: nat :: AheadBy(r, at, plain, p)
  }

  lemma FeedTracks<V(!new)>(r: Reader<V>, at: Cursor<V>, plain: Cursor<V>, b: Byte)
    requires Tolerant(r) && Tracks(r, at, plain)
    requires Record(r, plain.pending) && (b != NEWLINE ==> Record(r, plain.pending + [b]))
    ensures Tracks(r, Feed(r, at, b), Feed(r, plain, b))
  {
    if at != plain {
      var p: nat :| AheadBy(r, at, plain, p);
      var line := plain.pending;
      if b == NEWLINE {
        assert line == line[..p] + line[p..];
        assert r.push(plain.reducer, line[..p] + line[p..]) == r.push(plain.reducer, line[..p]);
      } else {
        assert (line + [b])[..p] == line[..p];
        assert (line + [b])[p..] == line[p..] + [b];
        assert AheadBy(r, Feed(r, at, b), Feed(r, plain, b), p);
      }
    }
  }

  /** Reading more of a file of records keeps the incremental cursor on track. */
  lemma {:induction false} ScanTracks<V(!new)>(r: Reader<V>, at: Cursor<V>, c: Bytes, more: Bytes)
    requires Tolerant(r) && Records(r, c + more)
    requires Tracks(r, at, Scan(r, Fresh(r), c))
    ensures Tracks(r, Scan(r, at, more), Scan(r, Fresh(r), c + more))
  {
    if more == [] {
      assert c + more == c;
    } else {
      var front, b := more[..|more| - 1], more[|more| - 1];
      assert c + more == (c + front) + [b];
      RecordsPrefix(r, c + front, b);
      ScanTracks(r, at, c, front);
      ScanIsFold(r, c + front);
      ScanIsFold(r, c + more);
      assert (c + more)[..|c + more| - 1] == c + front;
      FeedTracks(r, Scan(r, at, front), Scan(r, Fresh(r), c + front), b);
    }
  }

  /** After the early flush the incremental state shows the plain reduction, and is still on track. */
  lemma FlushTracks<V(!new)>(r: Reader<V>, at: Cursor<V>, c: Bytes)
    requires Tolerant(r) && Tracks(r, at, Scan(r, Fresh(r), c))
    ensures Tracks(r, Flush(r, at), Scan(r, Fresh(r), c))
    ensures Flush(r, at).reducer == Reduction(r, c)
  {
    var plain := Scan(r, Fresh(r), c);
    ScanIsFold(r, c);
    if at == plain {
      if at.pending != [] && r.complete(at.pending) {
        assert plain.pending[..|plain.pending|] == plain.pending;
        assert AheadBy(r, Flush(r, at), plain, |plain.pending|);
      }
    } else {
      var p: nat :| AheadBy(r, at, plain, p);
      assert plain.pending == plain.pending[..p] + at.pending;
    }
  }

  // ---------- Seeing a reducer through a view ----------

  /** The reducer `r` seen through `view` is the reducer `q`. */
  ghost predicate Simulates<S(!new), V>(r: Reader<S>, q: Reader<V>, view: S -> V) {
    && view(r.init) == q.init
    && (forall s, line :: view(r.push(s, line)) == q.push(view(s), line))
    && (forall line :: r.complete(line) == q.complete(line))
  }

  function Seen<S, V>(view: S -> V, at: Cursor<S>): Cursor<V> {
    Cursor(view(at.reducer), at.pending)
  }

  lemma {:induction false} ScanSeen<S(!new), V>(r: Reader<S>, q: Reader<V>, view: S -> V, at: Cursor<S>, bytes: Bytes)
    requires Simulates(r, q, view)
    ensures Seen(view, Scan(r, at, bytes)) == Scan(q, Seen(view, at), bytes)
  {
    if bytes != [] {
      ScanSeen(r, q, view, at, bytes[..|bytes| - 1]);
    }
  }

  lemma FlushSeen<S(!new), V>(r: Reader<S>, q: Reader<V>, view: S -> V, at: Cursor<S>)
    requires Simulates(r, q, view)
    ensures Seen(view, Flush(r, at)) == Flush(q, Seen(view, at))
  {
  }

  /** One incremental read of `more` after `base`, seen through the view. */
  lemma GrowthTracks<S(!new), V(!new)>(r: Reader<S>, q: Reader<V>, view: S -> V, at: Cursor<S>, base: Bytes, more: Bytes)
    requires Simulates(r, q, view) && Tolerant(q) && Records(q, base + more)
    requires Tracks(q, Seen(view, at), Scan(q, Fresh(q), base))
    ensures var after := Flush(r, Scan(r, at, more));
            && Tracks(q, Seen(view, after), Scan(q, Fresh(q), base + more))
            && view(after.reducer) == Reduction(q, base + more)
  {
    ScanSeen(r, q, view, at, more);
    ScanTracks(q, Seen(view, at), base, more);
    FlushTracks(q, Scan(q, Seen(view, at), more), base + more);
    FlushSeen(r, q, view, Scan(r, at, more));
  }

  // ---------- One cached file ----------

  /** A file as one call sees it. */
  datatype File = File(content: Bytes, modified: nat)

  /** What the cache relies on between two calls: a file that grew kept its old bytes, and one of the
      same length and modification time kept all of them. A file may shrink, or change in place
      under a new time, at will. */
  ghost predicate Honest(before: File, after: File) {
    && (|after.content| > |before.content| ==> before.content <= after.content)
    && (|after.content| == |before.content| && after.modified == before.modified ==> after.content == before.content)
  }

  /** What is cached of one file. */
  datatype Entry<S> = Entry(len: nat, modified: nat, pending: Bytes, scanned: nat, reducer: S, used: nat)

  function EmptyEntry<S>(r: Reader<S>): Entry<S> {
    Entry(0, 0, [], 0, r.init, 0)
  }

  function Cached<S>(r: Reader<S>, entries: map<string, Entry<S>>, path: string): Entry<S> {
    if path in entries then entries[path] else EmptyEntry(r)
  }

  /** Where a call starts: at the cached entry, or afresh if the file shrank or changed in place. */
  function Resumed<S>(r: Reader<S>, e: Entry<S>, file: File): Entry<S> {
    if |file.content| < e.len || (|file.content| == e.len && file.modified != e.modified) then EmptyEntry(r) else e
  }

  /** The entry once a call has read what was appended. */
  function BroughtUp<S>(r: Reader<S>, e: Entry<S>, file: File, now: nat): Entry<S> {
    var from := Resumed(r, e, file);
    if |file.content| > from.len then
      var at := Flush(r, Scan(r, Cursor(from.reducer, from.pending), file.content[from.len..]));
      Entry(|file.content|, file.modified, at.pending, |at.pending|, at.reducer, now)
    else from.(modified := file.modified, used := now)
  }

  /** Seen through the view, the entry shows this file and can be brought up to any later state of it. */
  ghost predicate EntryShows<S, V(!new)>(q: Reader<V>, view: S -> V, e: Entry<S>, shown: File) {
    && e.scanned == |e.pending| && e.len == |shown.content| && e.modified == shown.modified
    && Tracks(q, Seen(view, Cursor(e.reducer, e.pending)), Scan(q, Cursor(q.init, []), shown.content))
    && view(e.reducer) == Reduction(q, shown.content)
  }

  lemma EmptyShowsNothing<S, V(!new)>(r: Reader<S>, q: Reader<V>, view: S -> V)
    requires view(r.init) == q.init
    ensures EntryShows(q, view, EmptyEntry(r), File([], 0))
  {
  }

  lemma NextByte<S>(r: Reader<S>, from: Cursor<S>, bytes: Bytes, k: nat, state: S, held: Bytes)
    requires k < |bytes| && Scan(r, from, bytes[..k]) == Cursor(state, held)
    ensures Scan(r, from, bytes[..k + 1])
         == if bytes[k] == NEWLINE then Cursor(r.push(state, held), []) else Cursor(state, held + [bytes[k]])
  {
    ScanOneMore(r, from, bytes, k);
  }

  lemma SliceGrows(buffer: Bytes, start: nat, index: nat)
    requires start <= index < |buffer|
    ensures buffer[start..index + 1] == buffer[start..index] + [buffer[index]]
    ensures buffer[index + 1..index + 1] == []
  {
  }

  lemma WholeSlice(bytes: Bytes, buffer: Bytes, start: nat)
    requires start <= |buffer|
    ensures bytes[..|bytes|] == bytes && buffer[start..|buffer|] == buffer[start..]
  {
  }

  /** An entry while a call works on it. */
  class CachedReduction<S(!new), V(!new)> {
    const reader: Reader<S>
    ghost const plain: Reader<V>
    ghost const view: S -> V
    var len: nat
    var modified: nat
    var pending: Bytes
    var scanned: nat
    var reducer: S
    var used: nat
    /** The file this entry was last brought up to. */
    ghost var shown: File

    function At(): Cursor<S>
      reads this
    {
      Cursor(reducer, pending)
    }

    function Contents(): Entry<S>
      reads this
    {
      Entry(len, modified, pending, scanned, reducer, used)
    }

    predicate Valid()
      reads this
    {
      scanned == |pending|
    }

    ghost predicate Shows()
      reads this
    {
      Valid() && EntryShows(plain, view, Contents(), shown)
    }

    constructor (e: Entry<S>, reader: Reader<S>, ghost plain: Reader<V>, ghost view: S -> V, ghost shown: File)
      requires EntryShows(plain, view, e, shown)
      ensures this.reader == reader && this.plain == plain && this.view == view
      ensures Shows() && Contents() == e && this.shown == shown
    {
      this.reader, this.plain, this.view, this.shown := reader, plain, view, shown;
      len, modified, pending, scanned, reducer, used := e.len, e.modified, e.pending, e.scanned, e.reducer, e.used;
    }

    method PushCompleteLines(bytes: Bytes)
      requires Valid()
      modifies this`pending, this`scanned, this`reducer
      ensures Valid() && At() == Scan(reader, old(At()), bytes)
    {
      var buffer := pending + bytes;
      var state := reducer;
      var index := if scanned <= |pending| then scanned else |pending|;
      var start := 0;
      ghost var from, before, held := At(), |pending|, pending;
      while index < |buffer|
        invariant start <= index && before <= index <= |buffer| && |buffer| == before + |bytes|
        invariant held == buffer[start..index]
        invariant Scan(reader, from, bytes[..index - before]) == Cursor(state, held)
      {
        NextByte(reader, from, bytes, index - before, state, held);
        SliceGrows(buffer, start, index);
        if buffer[index] == NEWLINE {
          state := reader.push(state, buffer[start..index]);
          start := index + 1;
          held := [];
        } else {
          held := held + [buffer[index]];
        }
        index := index + 1;
      }
      WholeSlice(bytes, buffer, start);
      reducer, pending := state, buffer[start..];
      scanned := |pending|;
    }

    method FlushTrailingLine()
      requires Valid()
      modifies this`pending, this`scanned, this`reducer
      ensures Valid() && At() == Flush(reader, old(At()))
    {
      if pending == [] || !reader.complete(pending) {
        return;
      }
      reducer := reader.push(reducer, pending);
      pending, scanned := [], 0;
    }

    /** The read loop: the file is read from `len` on, in pieces the system chooses. */
    method ReadAppended(content: Bytes)
      requires Valid() && len <= |content|
      modifies this`pending, this`scanned, this`reducer
      ensures Valid() && At() == Scan(reader, old(At()), content[len..])
    {
      ghost var from := At();
      var at := len;
      assert content[len..at] == [];
      while at < |content|
        invariant len <= at <= |content| && Valid()
        invariant At() == Scan(reader, from, content[len..at])
      {
        var limit := if |content| - at <= 1024 * 1024 then |content| - at else 1024 * 1024;
        var read :| 1 <= read <= limit;
        ScanConcat(reader, from, content[len..at], content[at..at + read]);
        assert content[len..at] + content[at..at + read] == content[len..at + read];
        PushCompleteLines(content[at..at + read]);
        at := at + read;
      }
      assert content[len..at] == content[len..];
    }

    /** A file that shrank, or changed in place, is read from the start. */
    method StartOver(file: File)
      requires Shows() && Honest(shown, file) && view(reader.init) == plain.init
      modifies this
      ensures Shows() && shown.content <= file.content
      ensures Contents().(used := 0) == Resumed(reader, old(Contents()), file).(used := 0)
    {
      if |file.content| < len || (|file.content| == len && file.modified != modified) {
        len, modified, pending, scanned, reducer := 0, 0, [], 0, reader.init;
        shown := File([], 0);
      }
    }

    method ReadGrowth(file: File)
      requires Simulates(reader, plain, view) && Tolerant(plain)
      requires Shows() && shown.content <= file.content && Records(plain, file.content)
      modifies this`len, this`pending, this`scanned, this`reducer
      ensures Valid() && EntryShows(plain, view, Contents().(modified := file.modified), file)
      ensures if |file.content| > old(len) then
                len == |file.content| && At() == Flush(reader, Scan(reader, old(At()), file.content[old(len)..]))
              else Contents() == old(Contents())
    {
      if |file.content| > len {
        ghost var from := At();
        ReadAppended(file.content);
        FlushTrailingLine();
        assert shown.content + file.content[len..] == file.content;
        GrowthTracks(reader, plain, view, from, shown.content, file.content[len..]);
        len := |file.content|;
      } else {
        assert shown.content == file.content;
      }
    }

    method BringUpTo(file: File, now: nat)
      requires Simulates(reader, plain, view) && Tolerant(plain)
      requires Shows() && Honest(shown, file) && Records(plain, file.content)
      modifies this
      ensures Shows() && shown == file && Contents() == BroughtUp(reader, old(Contents()), file, now)
    {
      StartOver(file);
      ReadGrowth(file);
      used := now;
      modified := file.modified;
      shown := file;
    }
  }

  // ---------- The cache ----------

  const CACHE_CAP := 64

  lemma SomeoneIsOldest(keys: set<string>, used: map<string, nat>)
    requires keys != {} && keys <= used.Keys
    ensures exists k :: k in keys && forall o :: o in keys ==> used[k] <= used[o]
  {
    var k :| k in keys;
    if keys != {k} {
      SomeoneIsOldest(keys - {k}, used);
      var m :| m in keys - {k} && forall o :: o in keys - {k} ==> used[m] <= used[o];
      var least := if used[k] <= used[m] then k else m;
      assert forall o :: o in keys ==> o == k || o in keys - {k};
      assert forall o :: o in keys ==> used[least] <= used[o];
    }
  }

  /** What was dropped was used no later than anything that stays, the path in use aside. */
  ghost predicate ColdFirst(before: map<string, nat>, kept: set<string>, keep: string) {
    forall d, p :: d in before && d !in kept && p in before && p in kept && p != keep ==> before[d] <= before[p]
  }

  lemma DropColdest(before: map<string, nat>, kept: set<string>, keep: string, victim: string)
    requires ColdFirst(before, kept, keep) && kept <= before.Keys && victim in kept - {keep}
    requires forall o :: o in kept - {keep} ==> before[victim] <= before[o]
    ensures ColdFirst(before, kept - {victim}, keep)
  {
  }

  class Cache<S(!new), V(!new)> {
    const reader: Reader<S>
    ghost const plain: Reader<V>
    ghost const view: S -> V
    var entries: map<string, Entry<S>>
    var tick: nat
    /** The file each entry was last brought up to. */
    ghost var shown: map<string, File>

    ghost predicate Lawful() {
      Simulates(reader, plain, view) && Tolerant(plain)
    }

    ghost predicate Valid()
      reads this
    {
      && |entries| <= CACHE_CAP && shown.Keys == entries.Keys
      && forall p :: p in entries ==> EntryShows(plain, view, entries[p], shown[p])
    }

    constructor (reader: Reader<S>, ghost plain: Reader<V>, ghost view: S -> V)
      requires Simulates(reader, plain, view) && Tolerant(plain)
      ensures Valid() && Lawful() && entries == map[] && tick == 0
      ensures this.reader == reader && this.plain == plain && this.view == view
    {
      this.reader, this.plain, this.view := reader, plain, view;
      entries, tick, shown := map[], 0, map[];
    }

    ghost function Uses(): map<string, nat>
      reads this
    {
      map p | p in entries :: entries[p].used
    }

    /** With a full cache some other path always remains to be dropped; the least recently used go first. */
    method EvictColdEntry(keep: string)
      requires shown.Keys == entries.Keys
      modifies this`entries, this`shown
      ensures shown.Keys == entries.Keys && Submap(entries, old(entries)) && Submap(shown, old(shown))
      ensures |entries| < 64 && (keep in old(entries) ==> keep in entries)
      ensures |old(entries)| < 64 ==> entries == old(entries)
      ensures |old(entries)| >= 64 ==> |entries| == 63
      ensures ColdFirst(old(Uses()), entries.Keys, keep)
    {
      var used := map p | p in entries :: entries[p].used;
      while |entries| >= CACHE_CAP
        invariant shown.Keys == entries.Keys && Submap(entries, old(entries)) && Submap(shown, old(shown))
        invariant keep in old(entries) ==> keep in entries
        invariant |old(entries)| < CACHE_CAP ==> entries == old(entries)
        invariant |old(entries)| >= CACHE_CAP ==> |entries| >= CACHE_CAP - 1
        invariant used == old(Uses()) && ColdFirst(used, entries.Keys, keep)
        decreases |entries|
      {
        var others := entries.Keys - {keep};
        OthersRemain(entries.Keys, keep);
        SomeoneIsOldest(others, used);
        var victim :| victim in others && forall o :: o in others ==> used[victim] <= used[o];
        DropColdest(used, entries.Keys, keep, victim);
        assert (entries - {victim}).Keys == entries.Keys - {victim};
        assert (shown - {victim}).Keys == entries.Keys - {victim};
        entries := entries - {victim};
        shown := shown - {victim};
      }
    }

    /** The entry the call works on: the cached one, or an empty one. */
    method TakeEntry(path: string) returns (e: Entry<S>, ghost was: File)
      requires Valid() && Lawful()
      ensures EntryShows(plain, view, e, was)
      ensures e == Cached(reader, entries, path)
      ensures was == if path in entries then shown[path] else File([], 0)
    {
      if path in entries {
        e, was := entries[path], shown[path];
      } else {
        e, was := EmptyEntry(reader), File([], 0);
        EmptyShowsNothing(reader, plain, view);
      }
    }

    method WorkOn(e: Entry<S>, ghost was: File, file: File, now: nat) returns (next: Entry<S>)
      requires Lawful() && EntryShows(plain, view, e, was) && Honest(was, file) && Records(plain, file.content)
      ensures EntryShows(plain, view, next, file) && next == BroughtUp(reader, e, file, now)
    {
      var working := new CachedReduction<S, V>(e, reader, plain, view, was);
      working.BringUpTo(file, now);
      next := working.Contents();
    }

    method PutEntry(path: string, e: Entry<S>, ghost file: File)
      requires Valid() && EntryShows(plain, view, e, file) && (path in entries || |entries| < CACHE_CAP)
      modifies this`entries, this`shown
      ensures Valid() && entries == old(entries)[path := e] && shown == old(shown)[path := file]
      ensures |entries| == |old(entries)| + if path in old(entries) then 0 else 1
    {
      entries := entries[path := e];
      shown := shown[path := file];
      assert entries.Keys == old(entries).Keys + {path};
    }

    /** Whatever the chunks and the evictions, the result is the plain reduction of the file as it is now, and
        the cache stays within its cap. Every other entry that stays is the one it was. */
    method IncrementalReduction(path: string, file: File) returns (result: S)
      requires Valid() && Lawful() && Records(plain, file.content)
      requires path in shown ==> Honest(shown[path], file)
      modifies this
      ensures Valid() && view(result) == Reduction(plain, file.content) && tick == old(tick) + 1
      ensures path in shown && shown[path] == file && result == entries[path].reducer
      ensures entries[path] == BroughtUp(reader, Cached(reader, old(entries), path), file, old(tick))
      ensures |entries| == (if |old(entries)| >= 64 then 63 else |old(entries)|)
                           + (if path in old(entries) then 0 else 1)
      ensures Submap(shown - {path}, old(shown)) && Submap(entries - {path}, old(entries))
      ensures ColdFirst(old(Uses()), entries.Keys, path)
    {
      var now := tick;
      tick := tick + 1;
      EvictColdEntry(path);
      ghost var was;
      var e;
      e, was := TakeEntry(path);
      e := WorkOn(e, was, file, now);
      PutEntry(path, e, file);
      result := e.reducer;
    }
  }

  ghost predicate Submap<K, W>(a: map<K, W>, b: map<K, W>) {
    forall k :: k in a ==> k in b && a[k] == b[k]
  }

  lemma OthersRemain(keys: set<string>, keep: string)
    requires |keys| > 1
    ensures keys - {keep} != {}
  {
    assert |keys| <= |keys - {keep}| + 1 by {
      SmallUnion(keys - {keep}, keep);
      assert keys <= (keys - {keep}) + {keep};
      Fewer(keys, (keys - {keep}) + {keep});
    }
  }

  lemma {:induction false} Fewer(a: set<string>, b: set<string>)
    requires a <= b
    ensures |a| <= |b|
  {
    if a != {} {
      var x :| x in a;
      Fewer(a - {x}, b - {x});
    }
  }

  lemma SmallUnion(others: set<string>, keep: string)
    ensures |others + {keep}| <= |others| + 1
  {
    if keep in others {
      assert others + {keep} == others;
    }
  }
}
