/** The bounded callback store with wrapping 32-bit ids, and the handles that stand for long texts. */
module CallbackStore {
  import opened Decimals
  import opened GateTypes

  const CAP := 4096
  const MAX_INLINE := 60
  const MAX_ID := 0xFFFF_FFFF

  // ---------- The store ----------

  datatype Table = Table(entries: map<nat, string>, order: seq<nat>, next: nat)

  const Empty := Table(map[], [], 1)

  function NextId(id: nat): nat {
    if id == MAX_ID then 1 else id + 1
  }

  function Cut(t: Table): Table
    requires t.order != []
  {
    t.(entries := t.entries - {t.order[0]}, order := t.order[1..])
  }

  function Trimmed(t: Table): Table
    decreases |t.order|
  {
    if |t.order| > CAP then Trimmed(Cut(t)) else t
  }

  function Grown(t: Table, data: string): Table {
    Table(t.entries[t.next := data], t.order + [t.next], NextId(t.next))
  }

  function Put(t: Table, data: string): Table {
    Trimmed(Grown(t, data))
  }

  class Store {
    var entries: map<nat, string>
    var order: seq<nat>
    var next: nat

    constructor ()
      ensures View() == Empty
    {
      entries, order, next := map[], [], 1;
    }

    function View(): Table
      reads this
    {
      Table(entries, order, next)
    }

    method PutData(data: string) returns (id: nat)
      modifies this
      ensures id == old(next) && View() == Put(old(View()), data)
    {
      id := next;
      next := if next == MAX_ID then 1 else next + 1;
      entries := entries[id := data];
      order := order + [id];
      while |order| > CAP
        invariant Trimmed(View()) == Put(old(View()), data)
      {
        entries, order := entries - {order[0]}, order[1..];
      }
    }
  }

  function Get(t: Table, id: nat): Option<string> {
    if id in t.entries then Some(t.entries[id]) else None
  }

  // ---------- What it holds after any number of puts ----------

  function After(puts: seq<string>): Table {
    if puts == [] then Empty else Put(After(puts[..|puts| - 1]), puts[|puts| - 1])
  }

  /** The id of the put at this position. */
  function IdOf(i: nat): nat {
    i % 0xFFFF_FFFF + 1
  }

  function Oldest(n: nat): nat {
    if n > 4096 then n - 4096 else 0
  }

  /** The table and its queue hold exactly the puts from `first` on, each under its own id, in order. */
  ghost predicate HoldsFrom(t: Table, puts: seq<string>, first: nat) {
    && first <= |puts| == first + |t.order|
    && t.next == IdOf(|puts|)
    && (forall k :: 0 <= k < |t.order| ==> t.order[k] == IdOf(first + k))
    && (forall i :: first <= i < |puts| ==> IdOf(i) in t.entries && t.entries[IdOf(i)] == puts[i])
    && (forall id :: id in t.entries ==> id in t.order)
  }

  /** After these puts the table holds exactly the last 4096, each under its own id, in order. */
  ghost predicate HoldsLast(t: Table, puts: seq<string>) {
    HoldsFrom(t, puts, Oldest(|puts|))
  }

  lemma IdsAreDistinct(i: nat, j: nat)
    requires i < j < i + MAX_ID
    ensures IdOf(i) != IdOf(j)
  {
    assert j - i == (j / MAX_ID - i / MAX_ID) * MAX_ID + (j % MAX_ID - i % MAX_ID);
  }

  lemma NextIdIs(n: nat)
    ensures NextId(IdOf(n)) == IdOf(n + 1)
  {
    if n % MAX_ID == MAX_ID - 1 {
      assert n + 1 == (n / MAX_ID + 1) * MAX_ID;
    } else {
      assert (n + 1) / MAX_ID == n / MAX_ID;
    }
  }

  lemma GrownHolds(t: Table, puts: seq<string>, first: nat, data: string)
    requires HoldsFrom(t, puts, first) && |t.order| < MAX_ID
    ensures HoldsFrom(Grown(t, data), puts + [data], first)
  {
    var n, g := |puts|, Grown(t, data);
    NextIdIs(n);
    forall i | first <= i < n ensures IdOf(i) != IdOf(n) { IdsAreDistinct(i, n); }
    forall id | id in g.entries ensures id in g.order {
      if id == t.next { assert g.order[n - first] == id; }
    }
  }

  lemma CutHolds(t: Table, puts: seq<string>, first: nat)
    requires HoldsFrom(t, puts, first) && 0 < |t.order| < MAX_ID
    ensures HoldsFrom(Cut(t), puts, first + 1)
  {
    forall i | first < i < |puts| ensures IdOf(i) != t.order[0] { IdsAreDistinct(first, i); }
    forall id | id in Cut(t).entries ensures id in Cut(t).order {
      var k :| 0 <= k < |t.order| && t.order[k] == id;
      assert Cut(t).order[k - 1] == id;
    }
  }

  lemma CapKept(g: Table, puts: seq<string>, first: nat, t: Table)
    requires HoldsFrom(g, puts, first) && |g.order| <= CAP + 1 && t == Trimmed(g)
    requires puts != [] && first == Oldest(|puts| - 1)
    ensures HoldsLast(t, puts)
  {
    if |g.order| > CAP {
      CutHolds(g, puts, first);
      assert Trimmed(g) == Cut(g);
    }
  }

  lemma PutKeepsLast(t: Table, before: seq<string>, data: string, after: Table, puts: seq<string>)
    requires HoldsLast(t, before) && after == Put(t, data) && puts == before + [data]
    ensures HoldsLast(after, puts)
  {
    GrownHolds(t, before, Oldest(|before|), data);
    CapKept(Grown(t, data), puts, Oldest(|before|), after);
  }

  /** For any number of puts, through every wrap of the id counter. */
  lemma {:induction false} StoreHoldsTheLast(puts: seq<string>)
    ensures HoldsLast(After(puts), puts)
  {
    if puts != [] {
      var before := puts[..|puts| - 1];
      StoreHoldsTheLast(before);
      PutKeepsLast(After(before), before, puts[|puts| - 1], After(puts), puts);
    }
  }

  ghost predicate QueuedKeys(t: Table) {
    && |t.order| <= 4096 && NoDuplicates(t.order)
    && (forall id :: id in t.entries <==> id in t.order)
    && (forall id :: id in t.order ==> 1 <= id <= 0xFFFF_FFFF)
    && (forall k :: 0 < k < |t.order| ==> t.order[k] == NextId(t.order[k - 1]))
  }

  lemma HeldKeys(t: Table, puts: seq<string>)
    requires HoldsLast(t, puts)
    ensures QueuedKeys(t)
  {
    var first := Oldest(|puts|);
    forall j, k | 0 <= j < k < |t.order| ensures t.order[j] != t.order[k] {
      IdsAreDistinct(first + j, first + k);
    }
    forall k | 0 < k < |t.order| ensures t.order[k] == NextId(t.order[k - 1]) {
      NextIdIs(first + k - 1);
    }
    forall id | id in t.order ensures id in t.entries && 1 <= id <= MAX_ID {
      var k :| 0 <= k < |t.order| && t.order[k] == id;
      assert IdOf(first + k) in t.entries;
    }
  }

  /** The keys are the id queue, which has no duplicates and at most 4096 members, each id following the
      one before it in the cycle from 1 to 2^32 - 1. */
  lemma KeysAreTheQueue(puts: seq<string>)
    ensures QueuedKeys(After(puts))
  {
    StoreHoldsTheLast(puts);
    HeldKeys(After(puts), puts);
  }

  lemma Held(t: Table, puts: seq<string>, i: nat)
    requires HoldsLast(t, puts) && i < |puts|
    ensures Oldest(|puts|) <= i ==> Get(t, IdOf(i)) == Some(puts[i])
    ensures i < Oldest(|puts|) && |puts| <= i + MAX_ID ==> Get(t, IdOf(i)) == None
  {
    var first := Oldest(|puts|);
    if i < first && |puts| <= i + MAX_ID && IdOf(i) in t.entries {
      var k :| 0 <= k < |t.order| && t.order[k] == IdOf(i);
      IdsAreDistinct(i, first + k);
    }
  }

  /** A put is found under its id until 4096 further puts; then its id is free until the counter comes
      round. */
  lemma PutIsRetrievable(puts: seq<string>, i: nat)
    requires i < |puts|
    ensures Oldest(|puts|) <= i ==> Get(After(puts), IdOf(i)) == Some(puts[i])
    ensures i < Oldest(|puts|) && |puts| <= i + MAX_ID ==> Get(After(puts), IdOf(i)) == None
  {
    StoreHoldsTheLast(puts);
    Held(After(puts), puts, i);
  }

  // ---------- Handles ----------

  function Utf8Len(s: string): nat {
    if s == [] then 0
    else
      var c := s[|s| - 1];
      Utf8Len(s[..|s| - 1])
      + if c < '\U{80}' then 1 else if c < '\U{800}' then 2 else if c < '\U{10000}' then 3 else 4
  }

  /** The length in bytes adds up, at one to four bytes a character. */
  lemma {:induction false} Utf8LenAddsUp(s: string, t: string)
    ensures Utf8Len(s + t) == Utf8Len(s) + Utf8Len(t)
    ensures |s| == 1 ==>
              var code := s[0] as int;
              Utf8Len(s) == if code < 128 then 1 else if code < 2048 then 2 else if code < 65536 then 3 else 4
  {
    if t == [] {
      assert s + t == s;
    } else {
      Utf8LenAddsUp(s, t[..|t| - 1]);
      assert (s + t)[..|s + t| - 1] == s + t[..|t| - 1];
    }
  }

  predicate IsHandle(s: string) {
    |s| >= 2 && s[0] == 'x' && s[1] == ':'
  }

  /** The unsigned 32-bit parser: an optional plus sign, digits, and no overflow. */
  function ParseU32(s: string): Option<nat> {
    var v := Digits(if s != [] && s[0] == '+' then s[1..] else s);
    if v.Some? && v.value <= MAX_ID then v else None
  }

  predicate Inline(data: string) {
    Utf8Len(data) <= MAX_INLINE && !IsHandle(data)
  }

  function Encode(t: Table, data: string): (string, Table) {
    if Inline(data) then (data, t) else ("x:" + Decimal(t.next), Put(t, data))
  }

  function Decode(t: Table, s: string): Option<string> {
    if !IsHandle(s) then None
    else
      var id := ParseU32(s[2..]);
      if id.Some? then Get(t, id.value) else None
  }

  lemma HandleNamesId(id: nat)
    requires id <= MAX_ID
    ensures IsHandle("x:" + Decimal(id)) && ParseU32(("x:" + Decimal(id))[2..]) == Some(id)
  {
    DecimalParses(id);
    assert ("x:" + Decimal(id))[2..] == Decimal(id);
  }

  /** A stored text decodes to itself until 4096 further puts, and not for long after; an inline text
      never decodes. */
  lemma HandleRoundTrip(before: seq<string>, data: string, more: seq<string>)
    ensures var (handle, stored) := Encode(After(before), data);
            if Inline(data) then
              stored == After(before) && handle == data && Decode(After(before + more), handle) == None
            else
              && stored == After(before + [data])
              && (|more| < 4096 ==> Decode(After(before + [data] + more), handle) == Some(data))
              && (4096 <= |more| < 0xFFFF_FFFF ==> Decode(After(before + [data] + more), handle) == None)
  {
    if !Inline(data) {
      StoreHoldsTheLast(before);
      assert (before + [data])[..|before|] == before;
      var puts := before + [data] + more;
      assert puts[|before|] == data;
      HandleNamesId(IdOf(|before|));
      PutIsRetrievable(puts, |before|);
    }
  }

  /** A text is stored exactly if it is longer than 60 bytes or could pass for a handle; otherwise it stands for
      itself. */
  lemma StoredExactly(t: Table, data: string)
    ensures var (handle, after) := Encode(t, data);
            if Utf8Len(data) > 60 || "x:" <= data then handle == "x:" + Decimal(t.next) && after == Put(t, data)
            else handle == data && after == t
  {
  }

  // ---------- Handles are short ----------

  lemma {:induction false} DecimalLength(n: nat, digits: nat)
    requires digits > 0 && n < Power10(digits)
    ensures Utf8Len(Decimal(n)) == |Decimal(n)| <= digits
  {
    if n < 10 {
    } else {
      assert n / 10 < Power10(digits - 1);
      assert digits > 1;
      DecimalLength(n / 10, digits - 1);
      assert Decimal(n)[..|Decimal(n)| - 1] == Decimal(n / 10);
    }
  }

  function Power10(k: nat): nat {
    if k == 0 then 1 else 10 * Power10(k - 1)
  }

  /** What `encode` returns never exceeds 64 bytes; the callback buttons rely on it. */
  lemma EncodeFits(before: seq<string>, data: string)
    ensures Utf8Len(Encode(After(before), data).0) <= 64
  {
    if !Inline(data) {
      StoreHoldsTheLast(before);
      var d := Decimal(IdOf(|before|));
      assert Power10(10) == 10 * (10 * (10 * (10 * (10 * (10 * (10 * (10 * (10 * (10 * Power10(0))))))))));
      DecimalLength(IdOf(|before|), 10);
      Utf8Concat("x:", d);
    }
  }

  lemma {:induction false} Utf8Concat(a: string, b: string)
    ensures Utf8Len(a + b) == Utf8Len(a) + Utf8Len(b)
  {
    if b == [] {
      assert a + b == a;
    } else {
      Utf8Concat(a, b[..|b| - 1]);
      assert (a + b)[..|a + b| - 1] == a + b[..|b| - 1];
    }
  }
}
