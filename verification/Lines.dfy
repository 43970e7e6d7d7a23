/** Byte lines: how a transcript splits into newline-terminated lines and an unfinished tail. */
module Lines {

  type Byte = b: int | 0 <= b < 256

  type Bytes = seq<Byte>

  const NEWLINE: Byte := 10

  datatype Split = Split(lines: seq<Bytes>, tail: Bytes)

  function SplitOf(c: Bytes): Split {
    if c == [] then Split([], [])
    else
      var s := SplitOf(c[..|c| - 1]);
      if c[|c| - 1] == NEWLINE then Split(s.lines + [s.tail], []) else Split(s.lines, s.tail + [c[|c| - 1]])
  }

  /** Putting the newlines back. */
  function Unlines(lines: seq<Bytes>): Bytes {
    if lines == [] then [] else Unlines(lines[..|lines| - 1]) + lines[|lines| - 1] + [NEWLINE]
  }

  ghost predicate OneLine(line: Bytes) {
    NEWLINE !in line
  }

  ghost predicate Splits(c: Bytes, s: Split) {
    && c == Unlines(s.lines) + s.tail
    && OneLine(s.tail)
    && forall i :: 0 <= i < |s.lines| ==> OneLine(s.lines[i])
  }

  /** The split loses nothing and cuts at every newline. */
  lemma {:induction false} SplitIsRight(c: Bytes)
    ensures Splits(c, SplitOf(c))
  {
    if c == [] {
    } else {
      var front, b := c[..|c| - 1], c[|c| - 1];
      SplitIsRight(front);
      var s := SplitOf(front);
      assert c == front + [b];
      if b == NEWLINE {
        assert (s.lines + [s.tail])[..|s.lines|] == s.lines;
      }
    }
  }

  lemma {:induction false} SplitWithTail(c: Bytes, tail: Bytes)
    requires OneLine(tail) && SplitOf(c).tail == []
    ensures SplitOf(c + tail) == Split(SplitOf(c).lines, tail)
  {
    if tail == [] {
      assert c + tail == c;
    } else {
      var front, b := tail[..|tail| - 1], tail[|tail| - 1];
      SplitWithTail(c, front);
      assert b in tail;
      assert (c + tail)[..|c + tail| - 1] == c + front;
      assert front + [b] == tail;
    }
  }

  lemma {:induction false} SplitOfUnlines(lines: seq<Bytes>)
    requires forall i :: 0 <= i < |lines| ==> OneLine(lines[i])
    ensures SplitOf(Unlines(lines)) == Split(lines, [])
  {
    if lines != [] {
      var front, last := lines[..|lines| - 1], lines[|lines| - 1];
      SplitOfUnlines(front);
      SplitWithTail(Unlines(front), last);
      assert (Unlines(front) + last + [NEWLINE])[..|Unlines(front) + last|] == Unlines(front) + last;
      assert front + [last] == lines;
    }
  }

  /** It is the only way to cut the bytes at their newlines. */
  lemma SplitIsUnique(c: Bytes, s: Split)
    requires Splits(c, s)
    ensures s == SplitOf(c)
  {
    SplitOfUnlines(s.lines);
    SplitWithTail(Unlines(s.lines), s.tail);
  }
}
