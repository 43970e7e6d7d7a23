/** Quoting arguments for a launcher script, read back by the quoting and token rules of the POSIX shell:
    sections 2.2 (quoting), 2.3 (token recognition) and 2.6.3 (command substitution) of the Shell Command
    Language in POSIX.1-2017. */
module ShellQuote {
  import opened GateTypes

  // ---------- The printer ----------

  function EscapedChar(c: char): string {
    if c == '\'' then "'\\''" else [c]
  }

  function Escaped(raw: string): string {
    if raw == "" then "" else EscapedChar(raw[0]) + Escaped(raw[1..])
  }

  function Quote(raw: string): string {
    "'" + Escaped(raw) + "'"
  }

  function QuotedList(args: seq<string>): string {
    if args == [] then ""
    else if |args| == 1 then Quote(args[0])
    else Quote(args[0]) + " " + QuotedList(args[1..])
  }

  function LastArgument(prompt: string): string {
    "\"$(cat " + Quote(prompt) + ")\""
  }

  /** The line of the script that runs the program. */
  function CommandLine(bin: string, flags: seq<string>, prompt: string): string {
    Quote(bin) + " " + QuotedList(flags) + " " + LastArgument(prompt)
  }

  // ---------- The shell's reading ----------

  /** A word is made of literal characters and, inside double quotes, outputs of commands. */
  datatype Part = Char(c: char) | Output(command: seq<seq<Part>>)

  type Word = seq<Part>

  /** The words up to the end (or to the parenthesis that closes a substitution), and the text after them;
      or anything that is not a plain list of words: an operator, another expansion, a pattern, a comment,
      an open quote, a NUL. */
  datatype Reading = Reading(words: seq<Word>, rest: string) | NotPlain

  function Chars(s: string): Word {
    seq(|s|, i requires 0 <= i < |s| => Char(s[i]))
  }

  function Begun(word: Option<Word>): Word {
    if word.Some? then word.value else []
  }

  function Ended(word: Option<Word>, r: Reading): Reading {
    if r.Reading? && word.Some? then Reading([word.value] + r.words, r.rest) else r
  }

  /** Characters that have, or may have, a meaning of their own when not quoted. */
  predicate Special(c: char) {
    || c == '|' || c == '&' || c == ';' || c == '<' || c == '>' || c == '(' || c == '$' || c == '`'
    || c == '*' || c == '?' || c == '[' || c == '#' || c == '~' || c == '=' || c == '%'
    || c == '\n' || c == '\0'
  }

  function Unquoted(s: string, word: Option<Word>, nested: bool): (r: Reading)
    ensures r.Reading? ==> |r.rest| <= |s|
    decreases |s|
  {
    if s == "" then
      if nested then NotPlain else Ended(word, Reading([], ""))
    else if s[0] == ')' then
      if nested then Ended(word, Reading([], s[1..])) else NotPlain
    else if s[0] == ' ' || s[0] == '\t' then
      Ended(word, Unquoted(s[1..], None, nested))
    else if s[0] == '\'' then
      SingleQuoted(s[1..], Begun(word), nested)
    else if s[0] == '"' then
      DoubleQuoted(s[1..], Begun(word), nested)
    else if s[0] == '\\' then
      if |s| == 1 || s[1] == '\0' then NotPlain
      else if s[1] == '\n' then Unquoted(s[2..], word, nested)
      else Unquoted(s[2..], Some(Begun(word) + [Char(s[1])]), nested)
    else if Special(s[0]) then
      NotPlain
    else
      Unquoted(s[1..], Some(Begun(word) + [Char(s[0])]), nested)
  }

  /** Section 2.2.2: every character up to the next single quote is itself. */
  function SingleQuoted(s: string, word: Word, nested: bool): (r: Reading)
    ensures r.Reading? ==> |r.rest| <= |s|
    decreases |s|
  {
    if s == "" || s[0] == '\0' then NotPlain
    else if s[0] == '\'' then Unquoted(s[1..], Some(word), nested)
    else SingleQuoted(s[1..], word + [Char(s[0])], nested)
  }

  /** Section 2.2.3. */
  function DoubleQuoted(s: string, word: Word, nested: bool): (r: Reading)
    ensures r.Reading? ==> |r.rest| <= |s|
    decreases |s|
  {
    if s == "" || s[0] == '\0' || s[0] == '`' then NotPlain
    else if s[0] == '"' then Unquoted(s[1..], Some(word), nested)
    else if s[0] == '$' then
      if |s| > 1 && s[1] == '(' then
        var inner := Unquoted(s[2..], None, true);
        if inner.Reading? then DoubleQuoted(inner.rest, word + [Output(inner.words)], nested) else NotPlain
      else NotPlain
    else if s[0] == '\\' && |s| > 1 && s[1] in "$`\"\\" then DoubleQuoted(s[2..], word + [Char(s[1])], nested)
    else if s[0] == '\\' && |s| > 1 && s[1] == '\n' then DoubleQuoted(s[2..], word, nested)
    else DoubleQuoted(s[1..], word + [Char(s[0])], nested)
  }

  /** The words of a whole text, when it is nothing but words. */
  function WordsOf(s: string): Option<seq<Word>> {
    var r := Unquoted(s, None, false);
    if r.Reading? then Some(r.words) else None
  }

  // ---------- Round trip ----------

  ghost predicate NulFree(s: string) {
    '\0' !in s
  }

  lemma PlainChar(c: char, rest: string, word: Option<Word>, nested: bool)
    requires !Special(c) && c != ' ' && c != '\t' && c != '\'' && c != '"' && c != '\\' && c != ')'
    ensures Unquoted([c] + rest, word, nested) == Unquoted(rest, Some(Begun(word) + [Char(c)]), nested)
  {
    assert ([c] + rest)[1..] == rest;
  }

  lemma BackslashChar(c: char, rest: string, word: Option<Word>, nested: bool)
    requires c != '\n' && c != '\0'
    ensures Unquoted("\\" + ([c] + rest), word, nested) == Unquoted(rest, Some(Begun(word) + [Char(c)]), nested)
  {
    assert ("\\" + ([c] + rest))[1] == c;
    assert ("\\" + ([c] + rest))[2..] == rest;
  }

  lemma QuoteOpens(rest: string, word: Option<Word>, nested: bool)
    ensures Unquoted("'" + rest, word, nested) == SingleQuoted(rest, Begun(word), nested)
  {
    assert ("'" + rest)[1..] == rest;
  }

  lemma QuoteCloses(rest: string, word: Word, nested: bool)
    ensures SingleQuoted("'" + rest, word, nested) == Unquoted(rest, Some(word), nested)
  {
    assert ("'" + rest)[1..] == rest;
  }

  lemma QuotedChar(c: char, rest: string, word: Word, nested: bool)
    requires c != '\'' && c != '\0'
    ensures SingleQuoted([c] + rest, word, nested) == SingleQuoted(rest, word + [Char(c)], nested)
  {
    assert ([c] + rest)[1..] == rest;
  }

  /** The four characters that stand for a single quote. */
  lemma EscapedQuote(rest: string, word: Word, nested: bool)
    ensures SingleQuoted("'\\''" + rest, word, nested) == SingleQuoted(rest, word + [Char('\'')], nested)
  {
    assert "'\\''" + rest == "'" + ("\\" + (['\''] + ("'" + rest)));
    QuoteCloses("\\" + (['\''] + ("'" + rest)), word, nested);
    BackslashChar('\'', "'" + rest, Some(word), nested);
    QuoteOpens(rest, Some(word + [Char('\'')]), nested);
  }

  lemma EscapedCharReads(c: char, rest: string, word: Word, nested: bool)
    requires c != '\0'
    ensures SingleQuoted(EscapedChar(c) + rest, word, nested) == SingleQuoted(rest, word + [Char(c)], nested)
  {
    if c == '\'' {
      EscapedQuote(rest, word, nested);
    } else {
      QuotedChar(c, rest, word, nested);
    }
  }

  lemma EscapedText(raw: string, rest: string)
    requires raw != ""
    ensures Escaped(raw) + rest == EscapedChar(raw[0]) + (Escaped(raw[1..]) + rest)
  {
  }

  lemma CharsOf(raw: string, word: Word)
    requires raw != ""
    ensures word + [Char(raw[0])] + Chars(raw[1..]) == word + Chars(raw)
  {
  }

  lemma {:induction false} EscapedReads(raw: string, rest: string, word: Word, nested: bool)
    requires NulFree(raw)
    ensures SingleQuoted(Escaped(raw) + ("'" + rest), word, nested)
         == Unquoted(rest, Some(word + Chars(raw)), nested)
  {
    if raw == "" {
      QuoteCloses(rest, word, nested);
      assert Escaped(raw) + ("'" + rest) == "'" + rest;
      assert word + Chars(raw) == word;
    } else {
      assert raw[0] in raw;
      EscapedReads(raw[1..], rest, word + [Char(raw[0])], nested);
      EscapedCharReads(raw[0], Escaped(raw[1..]) + ("'" + rest), word, nested);
      EscapedText(raw, "'" + rest);
      CharsOf(raw, word);
    }
  }

  /** A quoted argument adds exactly its own characters to the word it stands in. */
  lemma QuoteReads(raw: string, rest: string, word: Option<Word>, nested: bool)
    requires NulFree(raw)
    ensures Unquoted(Quote(raw) + rest, word, nested) == Unquoted(rest, Some(Begun(word) + Chars(raw)), nested)
  {
    assert Quote(raw) + rest == "'" + (Escaped(raw) + ("'" + rest));
    QuoteOpens(Escaped(raw) + ("'" + rest), word, nested);
    EscapedReads(raw, rest, Begun(word), nested);
  }

  lemma BlankEndsWord(rest: string, word: Option<Word>, nested: bool)
    ensures Unquoted(" " + rest, word, nested) == Ended(word, Unquoted(rest, None, nested))
  {
    assert (" " + rest)[1..] == rest;
  }

  /** A quoted argument and a blank are one word. */
  lemma ArgumentReads(raw: string, rest: string, nested: bool)
    requires NulFree(raw)
    ensures Unquoted(Quote(raw) + (" " + rest), None, nested) == Ended(Some(Chars(raw)), Unquoted(rest, None, nested))
  {
    QuoteReads(raw, " " + rest, None, nested);
    assert [] + Chars(raw) == Chars(raw);
    BlankEndsWord(rest, Some(Chars(raw)), nested);
  }

  function ArgWords(args: seq<string>): seq<Word> {
    if args == [] then [] else [Chars(args[0])] + ArgWords(args[1..])
  }

  function Followed(words: seq<Word>, r: Reading): Reading {
    if r.Reading? then Reading(words + r.words, r.rest) else NotPlain
  }

  lemma ListText(args: seq<string>, rest: string)
    requires |args| > 1
    ensures QuotedList(args) + (" " + rest) == Quote(args[0]) + (" " + (QuotedList(args[1..]) + (" " + rest)))
  {
  }

  lemma ArgumentFollowed(raw: string, words: seq<Word>, text: string, after: Reading)
    requires NulFree(raw) && Unquoted(text, None, false) == Followed(words, after)
    ensures Unquoted(Quote(raw) + (" " + text), None, false) == Followed([Chars(raw)] + words, after)
  {
    ArgumentReads(raw, text, false);
    FollowedOne(Chars(raw), words, after);
  }

  /** In front of a blank and any other text, the list reads as its own words. */
  lemma {:induction false} ListReads(args: seq<string>, rest: string)
    requires forall arg :: arg in args ==> NulFree(arg)
    ensures Unquoted(QuotedList(args) + (" " + rest), None, false)
         == Followed(ArgWords(args), Unquoted(rest, None, false))
  {
    var after := Unquoted(rest, None, false);
    FollowedOne([], [], after);
    if args == [] {
      BlankEndsWord(rest, None, false);
      assert QuotedList(args) + (" " + rest) == " " + rest;
    } else {
      assert args[0] in args;
      if |args| == 1 {
        assert ArgWords(args[1..]) == [];
        ArgumentFollowed(args[0], [], rest, after);
      } else {
        ListReads(args[1..], rest);
        ListText(args, rest);
        ArgumentFollowed(args[0], ArgWords(args[1..]), QuotedList(args[1..]) + (" " + rest), after);
      }
    }
  }

  lemma FollowedOne(word: Word, words: seq<Word>, r: Reading)
    ensures Ended(Some(word), Followed(words, r)) == Followed([word] + words, r)
    ensures Followed([], r) == r
  {
    if r.Reading? {
      assert [word] + (words + r.words) == [word] + words + r.words;
      assert [] + r.words == r.words;
    }
  }

  lemma LastReads(raw: string)
    requires NulFree(raw)
    ensures Unquoted(Quote(raw), None, false) == Reading([Chars(raw)], "")
  {
    QuoteReads(raw, "", None, false);
    assert Quote(raw) + "" == Quote(raw);
    assert [] + Chars(raw) == Chars(raw);
  }

  lemma {:induction false} ListReadsToEnd(args: seq<string>)
    requires forall arg :: arg in args ==> NulFree(arg)
    ensures Unquoted(QuotedList(args), None, false) == Reading(ArgWords(args), "")
  {
    if args != [] {
      assert args[0] in args;
      if |args| == 1 {
        LastReads(args[0]);
        assert args[1..] == [];
      } else {
        ListReadsToEnd(args[1..]);
        assert QuotedList(args) == Quote(args[0]) + (" " + QuotedList(args[1..]));
        ArgumentReads(args[0], QuotedList(args[1..]), false);
      }
    }
  }

  // ---------- A NUL is never read ----------

  lemma {:induction false} UnquotedStopsAtNul(s: string, word: Option<Word>, nested: bool)
    ensures var r := Unquoted(s, word, nested); r.Reading? && '\0' in s ==> '\0' in r.rest
    decreases |s|
  {
    if s == "" || s[0] == ')' {
    } else if s[0] == ' ' || s[0] == '\t' {
      UnquotedStopsAtNul(s[1..], None, nested);
    } else if s[0] == '\'' {
      SingleStopsAtNul(s[1..], Begun(word), nested);
    } else if s[0] == '"' {
      DoubleStopsAtNul(s[1..], Begun(word), nested);
    } else if s[0] == '\\' {
      if |s| > 1 {
        UnquotedStopsAtNul(s[2..], word, nested);
        UnquotedStopsAtNul(s[2..], Some(Begun(word) + [Char(s[1])]), nested);
      }
    } else if !Special(s[0]) {
      UnquotedStopsAtNul(s[1..], Some(Begun(word) + [Char(s[0])]), nested);
    }
  }

  lemma {:induction false} SingleStopsAtNul(s: string, word: Word, nested: bool)
    ensures var r := SingleQuoted(s, word, nested); r.Reading? && '\0' in s ==> '\0' in r.rest
    decreases |s|
  {
    if s == "" || s[0] == '\0' {
    } else if s[0] == '\'' {
      UnquotedStopsAtNul(s[1..], Some(word), nested);
    } else {
      SingleStopsAtNul(s[1..], word + [Char(s[0])], nested);
    }
  }

  lemma {:induction false} DoubleStopsAtNul(s: string, word: Word, nested: bool)
    ensures var r := DoubleQuoted(s, word, nested); r.Reading? && '\0' in s ==> '\0' in r.rest
    decreases |s|
  {
    if s == "" || s[0] == '\0' || s[0] == '`' {
    } else if s[0] == '"' {
      UnquotedStopsAtNul(s[1..], Some(word), nested);
    } else if s[0] == '$' {
      if |s| > 1 && s[1] == '(' {
        var inner := Unquoted(s[2..], None, true);
        UnquotedStopsAtNul(s[2..], None, true);
        if inner.Reading? {
          DoubleStopsAtNul(inner.rest, word + [Output(inner.words)], nested);
        }
      }
    } else if s[0] == '\\' && |s| > 1 && s[1] in "$`\"\\" {
      DoubleStopsAtNul(s[2..], word + [Char(s[1])], nested);
    } else if s[0] == '\\' && |s| > 1 && s[1] == '\n' {
      DoubleStopsAtNul(s[2..], word, nested);
    } else {
      DoubleStopsAtNul(s[1..], word + [Char(s[0])], nested);
    }
  }

  lemma {:induction false} EndHasNoRest(s: string, word: Option<Word>)
    ensures var r := Unquoted(s, word, false); r.Reading? ==> r.rest == ""
    decreases |s|
  {
    if s != "" {
      if s[0] == '\'' {
        SingleHasNoRest(s[1..], Begun(word));
      } else if s[0] == '"' {
        DoubleHasNoRest(s[1..], Begun(word));
      } else if s[0] == '\\' {
        if |s| > 1 {
          EndHasNoRest(s[2..], word);
          EndHasNoRest(s[2..], Some(Begun(word) + [Char(s[1])]));
        }
      } else {
        EndHasNoRest(s[1..], None);
        EndHasNoRest(s[1..], Some(Begun(word) + [Char(s[0])]));
      }
    }
  }

  lemma {:induction false} SingleHasNoRest(s: string, word: Word)
    ensures var r := SingleQuoted(s, word, false); r.Reading? ==> r.rest == ""
    decreases |s|
  {
    if s != "" {
      EndHasNoRest(s[1..], Some(word));
      SingleHasNoRest(s[1..], word + [Char(s[0])]);
    }
  }

  lemma {:induction false} DoubleHasNoRest(s: string, word: Word)
    ensures var r := DoubleQuoted(s, word, false); r.Reading? ==> r.rest == ""
    decreases |s|
  {
    if s == "" {
    } else if s[0] == '"' {
      EndHasNoRest(s[1..], Some(word));
    } else if s[0] == '$' {
      if |s| > 1 {
        var inner := Unquoted(s[2..], None, true);
        if inner.Reading? {
          DoubleHasNoRest(inner.rest, word + [Output(inner.words)]);
        }
      }
    } else {
      DoubleHasNoRest(s[1..], word + [Char(s[0])]);
      if |s| > 1 {
        DoubleHasNoRest(s[2..], word + [Char(s[1])]);
        DoubleHasNoRest(s[2..], word);
      }
    }
  }

  lemma {:induction false} EscapedKeepsNul(raw: string)
    requires '\0' in raw
    ensures '\0' in Escaped(raw)
  {
    if raw[0] == '\0' {
      assert Escaped(raw)[0] == '\0';
    } else {
      EscapedKeepsNul(raw[1..]);
    }
  }

  lemma {:induction false} ListKeepsNul(args: seq<string>, k: nat)
    requires k < |args| && '\0' in args[k]
    ensures '\0' in QuotedList(args)
  {
    if k == 0 {
      EscapedKeepsNul(args[0]);
      assert '\0' in Quote(args[0]);
    } else {
      ListKeepsNul(args[1..], k - 1);
    }
  }

  /** The shell reads the quoted list back as exactly the arguments, empty ones and quotes included, if and
      only if none of them holds a NUL. */
  lemma QuotedListRoundTrips(args: seq<string>)
    ensures WordsOf(QuotedList(args)) == Some(ArgWords(args)) <==> forall arg :: arg in args ==> NulFree(arg)
  {
    if arg :| arg in args && !NulFree(arg) {
      var k :| 0 <= k < |args| && args[k] == arg;
      ListKeepsNul(args, k);
      UnquotedStopsAtNul(QuotedList(args), None, false);
      EndHasNoRest(QuotedList(args), None);
    } else {
      ListReadsToEnd(args);
    }
  }

  /** Different lists have different words. */
  lemma {:induction false} ArgWordsAreArgs(args: seq<string>, others: seq<string>)
    requires ArgWords(args) == ArgWords(others)
    ensures args == others
  {
    if args == [] || others == [] {
    } else {
      var a, b := ArgWords(args), ArgWords(others);
      assert a[0] == Chars(args[0]) && b[0] == Chars(others[0]);
      SameChars(args[0], others[0]);
      assert a[1..] == ArgWords(args[1..]) && b[1..] == ArgWords(others[1..]);
      ArgWordsAreArgs(args[1..], others[1..]);
      assert args == [args[0]] + args[1..] && others == [others[0]] + others[1..];
    }
  }

  lemma SameChars(a: string, b: string)
    requires Chars(a) == Chars(b)
    ensures a == b
  {
    assert |Chars(a)| == |Chars(b)|;
    forall i | 0 <= i < |a| ensures a[i] == b[i] {
      assert Chars(a)[i] == Chars(b)[i];
    }
  }

  /** The script runs exactly the program, with exactly the flags and, last and unsplit, what `cat` prints of
      exactly the prompt file. */
  lemma CommandLineReads(bin: string, flags: seq<string>, prompt: string)
    requires NulFree(bin) && NulFree(prompt) && forall flag :: flag in flags ==> NulFree(flag)
    ensures WordsOf(CommandLine(bin, flags, prompt))
         == Some([Chars(bin)] + ArgWords(flags) + [[Output([Chars("cat"), Chars(prompt)])]])
  {
    var last := LastArgument(prompt);
    var tail := QuotedList(flags) + (" " + last);
    LastArgumentReads(prompt);
    ListReads(flags, last);
    assert CommandLine(bin, flags, prompt) == Quote(bin) + (" " + tail);
    ArgumentReads(bin, tail, false);
    FollowedOne(Chars(bin), ArgWords(flags), Unquoted(last, None, false));
  }

  lemma DoubleOpens(rest: string, nested: bool)
    ensures Unquoted("\"" + rest, None, nested) == DoubleQuoted(rest, [], nested)
  {
    assert ("\"" + rest)[1..] == rest;
  }

  lemma DoubleCloses(word: Word)
    ensures DoubleQuoted("\"", word, false) == Reading([word], "")
  {
    assert "\""[1..] == "";
    assert Unquoted("", Some(word), false) == Reading([word] + [], "");
  }

  lemma OutputReads(command: string, words: seq<Word>, rest: string)
    requires Unquoted(command, None, true) == Reading(words, rest)
    ensures DoubleQuoted("$(" + command, [], false) == DoubleQuoted(rest, [Output(words)], false)
  {
    assert ("$(" + command)[2..] == command;
    assert [] + [Output(words)] == [Output(words)];
  }

  lemma LastArgumentReads(prompt: string)
    requires NulFree(prompt)
    ensures Unquoted(LastArgument(prompt), None, false) == Reading([[Output([Chars("cat"), Chars(prompt)])]], "")
  {
    var command := "cat " + (Quote(prompt) + ")\"");
    assert LastArgument(prompt) == "\"" + ("$(" + command);
    DoubleOpens("$(" + command, false);
    SubstitutionReads(prompt);
    OutputReads(command, [Chars("cat"), Chars(prompt)], "\"");
    DoubleCloses([Output([Chars("cat"), Chars(prompt)])]);
  }

  lemma SubstitutionReads(prompt: string)
    requires NulFree(prompt)
    ensures Unquoted("cat " + (Quote(prompt) + ")\""), None, true) == Reading([Chars("cat"), Chars(prompt)], "\"")
  {
    CatReads(Quote(prompt) + ")\"");
    QuoteReads(prompt, ")\"", None, true);
    assert [] + Chars(prompt) == Chars(prompt);
    assert ")\""[1..] == "\"";
  }

  lemma ThreeChars(rest: string)
    ensures Unquoted(['c'] + (['a'] + (['t'] + rest)), None, true) == Unquoted(rest, Some(Chars("cat")), true)
  {
    PlainChar('c', ['a'] + (['t'] + rest), None, true);
    assert [] + [Char('c')] == [Char('c')];
    PlainChar('a', ['t'] + rest, Some([Char('c')]), true);
    PlainChar('t', rest, Some([Char('c')] + [Char('a')]), true);
    assert [Char('c')] + [Char('a')] + [Char('t')] == Chars("cat");
  }

  lemma CatReads(inner: string)
    ensures Unquoted("cat " + inner, None, true) == Ended(Some(Chars("cat")), Unquoted(inner, None, true))
  {
    assert "cat " + inner == ['c'] + (['a'] + (['t'] + (" " + inner)));
    ThreeChars(" " + inner);
    BlankEndsWord(inner, Some(Chars("cat")), true);
  }
}
