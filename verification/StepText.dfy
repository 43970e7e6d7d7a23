/** Text limits of the transcript readers: trimming, truncation and head-and-tail excerpts, counted in
    characters. */
module StepText {

  const ELLIPSIS := '\U{2026}'

  /** Unicode white space. */
  predicate IsSpace(c: char) {
    '\U{9}' <= c <= '\U{D}' || c == ' ' || c == '\U{85}' || c == '\U{A0}' || c == '\U{1680}'
    || '\U{2000}' <= c <= '\U{200A}' || c == '\U{2028}' || c == '\U{2029}' || c == '\U{202F}'
    || c == '\U{205F}' || c == '\U{3000}'
  }

  function TrimStart(s: string): string {
    if s != [] && IsSpace(s[0]) then TrimStart(s[1..]) else s
  }

  function TrimEnd(s: string): string {
    if s != [] && IsSpace(s[|s| - 1]) then TrimEnd(s[..|s| - 1]) else s
  }

  function Trim(s: string): string {
    TrimEnd(TrimStart(s))
  }

  /** Neither end is white space. */
  predicate Trimmed(s: string) {
    s == [] || (!IsSpace(s[0]) && !IsSpace(s[|s| - 1]))
  }

  lemma {:induction false} TrimEndKeepsStart(s: string)
    ensures |TrimEnd(s)| <= |s| && (TrimEnd(s) != [] ==> TrimEnd(s)[0] == s[0] && !IsSpace(TrimEnd(s)[|TrimEnd(s)| - 1]))
  {
    if s != [] && IsSpace(s[|s| - 1]) {
      TrimEndKeepsStart(s[..|s| - 1]);
    }
  }

  lemma {:induction false} TrimStartTrims(s: string)
    ensures |TrimStart(s)| <= |s| && (TrimStart(s) != [] ==> !IsSpace(TrimStart(s)[0]))
  {
    if s != [] && IsSpace(s[0]) {
      TrimStartTrims(s[1..]);
    }
  }

  lemma TrimTrims(s: string)
    ensures Trimmed(Trim(s)) && |Trim(s)| <= |s|
  {
    TrimStartTrims(s);
    TrimEndKeepsStart(TrimStart(s));
  }

  /** Cut to at most `max` characters, marking a cut with an ellipsis. */
  function Truncate(s: string, max: nat): string {
    var t := Trim(s);
    if |t| <= max then t else t[..max] + [ELLIPSIS]
  }

  /** Truncation leaves a text alone exactly when it is within the limit, or one character over and
      already ending in the ellipsis. */
  lemma TruncateKeepsExactly(s: string, max: nat)
    ensures Truncate(s, max) == Trim(s) <==>
              |Trim(s)| <= max || (|Trim(s)| == max + 1 && Trim(s)[max] == ELLIPSIS)
  {
    var t := Trim(s);
    if |t| > max {
      assert Truncate(s, max)[max] == ELLIPSIS;
      assert |t| == max + 1 ==> t == t[..max] + [t[max]];
    }
  }

  /** Keep the head and the tail of a long text. */
  function SemanticExcerpt(s: string, max: nat): string {
    if |s| <= max then Trim(s) else s[..max / 2] + [ELLIPSIS] + s[|s| - (max - max / 2)..]
  }

  /** An excerpt of an excerpt is the excerpt, although a cut one is a character over its limit. */
  lemma ExcerptIsIdempotent(s: string, max: nat)
    ensures SemanticExcerpt(SemanticExcerpt(s, max), max) == SemanticExcerpt(s, max)
    ensures |s| > max ==> |SemanticExcerpt(s, max)| == max + 1
  {
    var e := SemanticExcerpt(s, max);
    if |s| <= max {
      TrimTrims(s);
      assert Trim(e) == e;
    } else {
      assert e[..max / 2] == s[..max / 2];
      assert e[|e| - (max - max / 2)..] == s[|s| - (max - max / 2)..];
    }
  }
}
