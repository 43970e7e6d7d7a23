/** What the two readings of a transcript guarantee. */
module TranscriptLaws {
  import opened GateTypes
  import opened StepText
  import opened Transcript
  import TranscriptParser

  // ---------- The shape of a parse ----------

  ghost predicate Indexed(steps: seq<Step>) {
    forall i :: 0 <= i < |steps| ==> steps[i].index == i
  }

  ghost predicate Alternates(steps: seq<Step>) {
    forall i :: 0 < i < |steps| ==> !(steps[i - 1].role == Assistant && steps[i].role == Assistant)
  }

  /** While lines are read an assistant step is always followed by the step that flushed it. */
  ghost predicate InOrder(p: Parse) {
    && Indexed(p.steps) && Alternates(p.steps)
    && (p.steps != [] ==> p.steps[|p.steps| - 1].role != Assistant)
  }

  lemma PushInOrder(p: Parse, step: Step)
    requires InOrder(p) && step.role != Assistant
    ensures InOrder(Pushed(p, step))
  {
  }

  lemma {:induction false} AssistantInOrder(r: Rules, p: Parse, blocks: seq<AssistantBlock>)
    requires InOrder(p)
    ensures InOrder(AssistantParsed(r, p, blocks))
  {
    if blocks != [] {
      var n := |blocks| - 1;
      AssistantInOrder(r, p, blocks[..n]);
      if blocks[n].Call? {
        PushInOrder(AssistantParsed(r, p, blocks[..n]), CallStep(blocks[n]));
      }
    }
  }

  lemma TextInOrder(r: Rules, p: Parse, text: string, turn: nat, block: nat, flags: nat)
    requires InOrder(p)
    ensures InOrder(TextParsed(r, p, text, turn, block, flags))
  {
    var t := Trim(text);
    if r.notice(t).Some? {
      PushInOrder(p, NoticeStep(p, r.notice(t).value));
    } else if Retained(r, t) {
      PushInOrder(p, UserStep(r, 0, Truncate(t, USER_CHARS), turn, block, flags));
    }
  }

  lemma {:induction false} BlocksInOrder(r: Rules, p: Parse, blocks: seq<UserBlock>, turn: nat, flags: nat, asyncLaunched: bool)
    requires InOrder(p)
    ensures InOrder(BlocksParsed(r, p, blocks, turn, flags, asyncLaunched))
  {
    if blocks != [] {
      var n := |blocks| - 1;
      var q := BlocksParsed(r, p, blocks[..n], turn, flags, asyncLaunched);
      BlocksInOrder(r, p, blocks[..n], turn, flags, asyncLaunched);
      match blocks[n]
      case Write(text) => TextInOrder(r, q, text, turn, n % 0x1_0000, flags);
      case Result(_, _, _) => PushInOrder(q, ResultStep(q, blocks[n]));
      case SkipU =>
    }
  }

  lemma {:induction false} LinesInOrder(r: Rules, lines: seq<Line>)
    ensures InOrder(LinesParsed(r, lines))
  {
    if lines != [] {
      var n := |lines| - 1;
      LinesInOrder(r, lines[..n]);
      LineInOrder(r, LinesParsed(r, lines[..n]), lines[n]);
    }
  }

  lemma LineInOrder(r: Rules, p: Parse, line: Line)
    requires InOrder(p)
    ensures InOrder(LineParsed(r, p, line))
  {
    match line
    case ApiError(message) => PushInOrder(p, ErrorStep(message));
    case AssistantRecord(blocks) => AssistantInOrder(r, p, blocks);
    case UserRecord(meta, content, asyncLaunched, answer) =>
      var q := p.(turn := NextTurn(p.turn));
      if !meta && content.Whole? {
        TextInOrder(r, q, content.text, p.turn, 0, 0);
      } else if !meta && content.Blocks? {
        var b := BlocksParsed(r, q, content.blocks, p.turn, r.flags(content.blocks), asyncLaunched);
        BlocksInOrder(r, q, content.blocks, p.turn, r.flags(content.blocks), asyncLaunched);
        if answer.Some? {
          PushInOrder(b, UserStep(r, 0, Truncate(answer.value, USER_CHARS), p.turn, 0, 0).(origin := ToolAnswer));
        }
      }
    case _ =>
  }

  /** Every step carries its own position, and no two assistant steps are adjacent. */
  lemma ParseIsIndexedAndAlternates(r: Rules, lines: seq<Line>)
    ensures Indexed(PlainParse(r, lines)) && Alternates(PlainParse(r, lines))
  {
    LinesInOrder(r, lines);
  }

  // ---------- Compaction ----------

  lemma ExcerptedTwice(step: Step, limit: nat)
    ensures Excerpted(Excerpted(step, limit), limit) == Excerpted(step, limit)
    ensures Excerpted(step, limit) == step.(text := Excerpted(step, limit).text)
  {
    ExcerptIsIdempotent(step.text, limit);
  }

  lemma CompactedTwice(step: Step)
    ensures Compacted(Compacted(step)) == Compacted(step)
    ensures Compacted(step) == step.(text := Compacted(step).text)
  {
    ExcerptedTwice(step, AGED_NARRATIVE_CHARS);
    ExcerptedTwice(step, AGED_RECEIPT_CHARS);
  }

  /** The streamed result against the plain parse: a step differs only in its text, only if it is not
      a user step, and only before the last 512; compacting the same prefix again changes nothing. */
  lemma StreamedParseIsFaithful(r: Rules, lines: seq<Line>)
    ensures var plain := PlainParse(r, lines);
            var until := CompactedUntil(r, lines);
            var streamed := CompactedUpTo(plain, until);
            && until <= StableEnd(|plain|) && |streamed| == |plain|
            && (forall i :: 0 <= i < |plain| ==> streamed[i] == plain[i].(text := streamed[i].text))
            && (forall i :: 0 <= i < |plain| && (plain[i].role == User || i + 512 >= |plain|) ==>
                  streamed[i] == plain[i])
            && (forall i :: 0 <= i < until ==> streamed[i] == Compacted(plain[i]))
            && CompactedUpTo(streamed, until) == streamed
            && Indexed(streamed) && Alternates(streamed)
  {
    var plain := PlainParse(r, lines);
    var until := CompactedUntil(r, lines);
    TranscriptParser.RecentStepsAreFull(r, lines);
    ParseIsIndexedAndAlternates(r, lines);
    forall i | 0 <= i < |plain|
      ensures Compacted(Compacted(plain[i])) == Compacted(plain[i])
      ensures Compacted(plain[i]) == plain[i].(text := Compacted(plain[i]).text)
    {
      CompactedTwice(plain[i]);
    }
  }

  function AgedLimit(role: StepRole): nat {
    if role == Assistant || role == DelegateResult then 2048 else 512
  }

  /** A compacted text keeps its head and its tail, and says where it was cut; one within its limit, and any user text,
      is left as it is. */
  lemma CompactionIsExact(step: Step)
    ensures var limit, text := AgedLimit(step.role), step.text;
            var short := Compacted(step).text;
            if step.role == User || |text| <= limit then short == text
            else && |short| == limit + 1 && short[limit / 2] == '\U{2026}'
                 && (forall i :: 0 <= i < limit / 2 ==> short[i] == text[i])
                 && (forall i :: limit / 2 < i <= limit ==> short[i] == text[i + |text| - |short|])
  {
    var limit, text := AgedLimit(step.role), step.text;
    if step.role != User && |text| > limit {
      assert Compacted(step).text == text[..limit / 2] + [ELLIPSIS] + text[|text| - (limit - limit / 2)..];
    }
  }

  predicate Compacts(line: Line) {
    line.AssistantRecord? || line.OtherRecord? || (line.UserRecord? && !line.meta)
  }

  /** All but the last 512 of the steps read so far are compacted after each record that is not an error, not malformed
      and not meta; and what is compacted stays so. */
  lemma {:induction false} AgedStepsAreCompacted(r: Rules, lines: seq<Line>, k: nat)
    requires k < |lines| && Compacts(lines[k])
    ensures CompactedUntil(r, lines) + 512 >= |LinesParsed(r, lines[..k + 1]).steps|
  {
    var n := |lines| - 1;
    if k == n {
      assert lines[..k + 1] == lines;
    } else {
      AgedStepsAreCompacted(r, lines[..n], k);
      assert lines[..n][..k + 1] == lines[..k + 1];
      TranscriptParser.RecentStepsAreFull(r, lines[..n]);
      TranscriptParser.LineGrows(r, LinesParsed(r, lines[..n]), lines[n]);
    }
  }

  // ---------- Two readers, one human ----------

  /** A human turn as both readers report it. */
  datatype Human = Human(turn: nat, block: nat, text: string)

  function HumanSteps(steps: seq<Step>): seq<Human> {
    if steps == [] then []
    else
      var s := steps[|steps| - 1];
      HumanSteps(steps[..|steps| - 1])
      + if s.role == User && s.origin == UserOrigin.Human then [Human.Human(s.turn, s.block, s.text)] else []
  }

  function HumanTurns(turns: seq<UserTurn>): seq<Human> {
    if turns == [] then []
    else
      var t := turns[|turns| - 1];
      HumanTurns(turns[..|turns| - 1])
      + if t.origin == UserOrigin.Human then [Human.Human(t.turn, t.block, t.text)] else []
  }

  /** The turns that are not task notifications. */
  function Unnoticed(r: Rules, humans: seq<Human>): seq<Human> {
    if humans == [] then []
    else
      var h := humans[|humans| - 1];
      Unnoticed(r, humans[..|humans| - 1]) + if r.notice(h.text).None? then [h] else []
  }

  /** The cap leaves the text as it is. */
  ghost predicate Fits(text: string) {
    var t := Trim(text);
    |t| <= USER_CHARS || (|t| == USER_CHARS + 1 && t[USER_CHARS] == ELLIPSIS)
  }

  ghost predicate LineFits(line: Line) {
    line.UserRecord? ==>
      match line.content
      case NoContent => true
      case Whole(text) => Fits(text)
      case Blocks(blocks) => forall i :: 0 <= i < |blocks| && blocks[i].Write? ==> Fits(blocks[i].text)
  }

  lemma {:induction false} HumanStepsConcat(a: seq<Step>, b: seq<Step>)
    ensures HumanSteps(a + b) == HumanSteps(a) + HumanSteps(b)
  {
    if b == [] {
      assert a + b == a;
    } else {
      HumanStepsConcat(a, b[..|b| - 1]);
      assert (a + b)[..|a + b| - 1] == a + b[..|b| - 1];
    }
  }

  lemma {:induction false} HumanTurnsConcat(a: seq<UserTurn>, b: seq<UserTurn>)
    ensures HumanTurns(a + b) == HumanTurns(a) + HumanTurns(b)
  {
    if b == [] {
      assert a + b == a;
    } else {
      HumanTurnsConcat(a, b[..|b| - 1]);
      assert (a + b)[..|a + b| - 1] == a + b[..|b| - 1];
    }
  }

  lemma {:induction false} UnnoticedConcat(r: Rules, a: seq<Human>, b: seq<Human>)
    ensures Unnoticed(r, a + b) == Unnoticed(r, a) + Unnoticed(r, b)
  {
    if b == [] {
      assert a + b == a;
    } else {
      UnnoticedConcat(r, a, b[..|b| - 1]);
      assert (a + b)[..|a + b| - 1] == a + b[..|b| - 1];
    }
  }

  lemma FlushedHumans(p: Parse)
    ensures HumanSteps(Flushed(p).steps) == HumanSteps(p.steps)
  {
    if p.pending.Some? {
      var step := NewStep(|p.steps|, Assistant, p.pending.value);
      assert (p.steps + [step])[..|p.steps|] == p.steps;
    }
  }

  lemma PushedHumans(p: Parse, step: Step)
    ensures HumanSteps(Pushed(p, step).steps)
         == HumanSteps(p.steps)
            + if step.role == User && step.origin == UserOrigin.Human then [Human.Human(step.turn, step.block, step.text)] else []
  {
    FlushedHumans(p);
    var q := Flushed(p);
    assert (q.steps + [Placed(step, |q.steps|)])[..|q.steps|] == q.steps;
  }

  /** What one text adds to the humans of the user-turn reader. */
  function TextHumans(r: Rules, text: string, turn: nat, block: nat): seq<Human> {
    var t := Trim(text);
    if t != [] && Retained(r, t) && !r.steer(t) then [Human.Human(turn, block, t)] else []
  }

  lemma TrimmedTwice(t: string)
    ensures Trim(Trim(t)) == Trim(t)
  {
    TrimTrims(t);
  }

  lemma TextAgrees(r: Rules, p: Parse, text: string, turn: nat, block: nat, flags: nat)
    requires Fits(text) && !Retained(r, "")
    ensures HumanSteps(TextParsed(r, p, text, turn, block, flags).steps)
         == HumanSteps(p.steps) + Unnoticed(r, TextHumans(r, text, turn, block))
    ensures HumanTurns(TextTurns(r, text, turn, block, flags)) == TextHumans(r, text, turn, block)
  {
    var t := Trim(text);
    TrimmedTwice(text);
    TruncateKeepsExactly(t, USER_CHARS);
    if r.notice(t).Some? {
      PushedHumans(p, NoticeStep(p, r.notice(t).value));
    } else if Retained(r, t) {
      PushedHumans(p, UserStep(r, 0, Truncate(t, USER_CHARS), turn, block, flags));
    }
  }

  /** What one block adds to the humans of the user-turn reader. */
  function BlockHumans(r: Rules, b: UserBlock, turn: nat, block: nat): seq<Human> {
    if b.Write? then TextHumans(r, b.text, turn, block) else []
  }

  lemma BlockAgrees(r: Rules, p: Parse, b: UserBlock, turn: nat, block: nat, flags: nat, asyncLaunched: bool)
    requires !Retained(r, "") && (b.Write? ==> Fits(b.text))
    ensures HumanSteps(UserBlockParsed(r, p, b, turn, block, flags, asyncLaunched).steps)
         == HumanSteps(p.steps) + Unnoticed(r, BlockHumans(r, b, turn, block))
  {
    match b
    case Write(text) => TextAgrees(r, p, text, turn, block, flags);
    case Result(_, _, _) => PushedHumans(p, ResultStep(p, b));
    case SkipU =>
  }

  lemma BlockTurnsGrow(r: Rules, blocks: seq<UserBlock>, turn: nat, flags: nat)
    requires blocks != [] && !Retained(r, "")
    requires forall i :: 0 <= i < |blocks| && blocks[i].Write? ==> Fits(blocks[i].text)
    ensures HumanTurns(BlockTurns(r, blocks, turn, flags))
         == HumanTurns(BlockTurns(r, blocks[..|blocks| - 1], turn, flags))
            + BlockHumans(r, blocks[|blocks| - 1], turn, (|blocks| - 1) % 0x1_0000)
  {
    var n := |blocks| - 1;
    var front := BlockTurns(r, blocks[..n], turn, flags);
    if blocks[n].Write? {
      HumanTurnsConcat(front, TextTurns(r, blocks[n].text, turn, n % 0x1_0000, flags));
      TextAgrees(r, Nothing, blocks[n].text, turn, n % 0x1_0000, flags);
    } else {
      assert front + [] == front;
    }
  }

  lemma {:induction false} BlocksAgree(r: Rules, p: Parse, blocks: seq<UserBlock>, turn: nat, flags: nat, asyncLaunched: bool)
    requires !Retained(r, "")
    requires forall i :: 0 <= i < |blocks| && blocks[i].Write? ==> Fits(blocks[i].text)
    ensures HumanSteps(BlocksParsed(r, p, blocks, turn, flags, asyncLaunched).steps)
         == HumanSteps(p.steps) + Unnoticed(r, HumanTurns(BlockTurns(r, blocks, turn, flags)))
  {
    if blocks != [] {
      var n := |blocks| - 1;
      var q := BlocksParsed(r, p, blocks[..n], turn, flags, asyncLaunched);
      BlocksAgree(r, p, blocks[..n], turn, flags, asyncLaunched);
      BlockAgrees(r, q, blocks[n], turn, n % 0x1_0000, flags, asyncLaunched);
      BlockTurnsGrow(r, blocks, turn, flags);
      JoinHumans(r, HumanSteps(p.steps), HumanTurns(BlockTurns(r, blocks[..n], turn, flags)),
                 BlockHumans(r, blocks[n], turn, n % 0x1_0000));
    }
  }

  lemma JoinHumans(r: Rules, before: seq<Human>, a: seq<Human>, b: seq<Human>)
    ensures before + Unnoticed(r, a) + Unnoticed(r, b) == before + Unnoticed(r, a + b)
  {
    UnnoticedConcat(r, a, b);
  }

  lemma {:induction false} AssistantHasNoHumans(r: Rules, p: Parse, blocks: seq<AssistantBlock>)
    ensures HumanSteps(AssistantParsed(r, p, blocks).steps) == HumanSteps(p.steps)
    ensures AssistantParsed(r, p, blocks).turn == p.turn
  {
    if blocks != [] {
      var n := |blocks| - 1;
      AssistantHasNoHumans(r, p, blocks[..n]);
      if blocks[n].Call? {
        PushedHumans(AssistantParsed(r, p, blocks[..n]), CallStep(blocks[n]));
      }
    }
  }

  lemma AnswerAgrees(r: Rules, p: Parse, blocks: seq<UserBlock>, turn: nat, answer: Option<string>)
    ensures HumanSteps(AnswerParsed(r, p, blocks, turn, answer).steps) == HumanSteps(p.steps)
    ensures HumanTurns(AnswerTurns(blocks, turn, answer)) == []
  {
    if HasResult(blocks) && answer.Some? {
      PushedHumans(p, UserStep(r, 0, Truncate(answer.value, USER_CHARS), turn, 0, 0).(origin := ToolAnswer));
    }
  }

  lemma UserAgrees(r: Rules, p: Parse, line: Line)
    requires !Retained(r, "") && line.UserRecord? && LineFits(line)
    ensures HumanSteps(UserParsed(r, p, line).steps)
         == HumanSteps(p.steps) + Unnoticed(r, HumanTurns(RecordTurns(r, line, p.turn)))
  {
    var q := p.(turn := NextTurn(p.turn));
    match line.content
    case NoContent =>
    case Whole(text) => TextAgrees(r, q, text, p.turn, 0, 0);
    case Blocks(blocks) =>
      var flags := r.flags(blocks);
      BlocksAgree(r, q, blocks, p.turn, flags, line.asyncLaunched);
      AnswerAgrees(r, BlocksParsed(r, q, blocks, p.turn, flags, line.asyncLaunched), blocks, p.turn, line.answer);
      var humans := HumanTurns(BlockTurns(r, blocks, p.turn, flags));
      HumanTurnsConcat(BlockTurns(r, blocks, p.turn, flags), AnswerTurns(blocks, p.turn, line.answer));
      assert HumanTurns(RecordTurns(r, line, p.turn)) == humans + [] == humans;
  }

  lemma UserAdvancesTurn(r: Rules, p: Parse, line: Line)
    requires line.UserRecord?
    ensures UserParsed(r, p, line).turn == NextTurn(p.turn)
  {
    if line.content.Blocks? {
      var blocks := line.content.blocks;
      TranscriptParser.BlocksGrow(r, p.(turn := NextTurn(p.turn)), blocks, p.turn, r.flags(blocks), line.asyncLaunched);
    }
  }

  lemma {:induction false} LinesAgree(r: Rules, lines: seq<Line>)
    requires !Retained(r, "") && forall i :: 0 <= i < |lines| ==> LineFits(lines[i])
    ensures HumanSteps(LinesParsed(r, lines).steps) == Unnoticed(r, HumanTurns(Turns(r, lines)))
    ensures LinesParsed(r, lines).turn == TurnAfter(lines)
  {
    if lines != [] {
      var front, line := lines[..|lines| - 1], lines[|lines| - 1];
      var p := LinesParsed(r, front);
      LinesAgree(r, front);
      if Counts(line) {
        UserAgrees(r, p, line);
        UserAdvancesTurn(r, p, line);
        var turns, last := Turns(r, front), RecordTurns(r, line, TurnAfter(front));
        HumanTurnsConcat(turns, last);
        UnnoticedConcat(r, HumanTurns(turns), HumanTurns(last));
      } else {
        assert Turns(r, lines) == Turns(r, front);
        match line
        case ApiError(message) => PushedHumans(p, ErrorStep(message));
        case AssistantRecord(blocks) => AssistantHasNoHumans(r, p, blocks);
        case _ =>
      }
    }
  }

  lemma {:induction false} UnnoticedIsAll(r: Rules, humans: seq<Human>)
    ensures |Unnoticed(r, humans)| <= |humans|
    ensures Unnoticed(r, humans) == humans <==> forall h :: h in humans ==> r.notice(h.text).None?
  {
    if humans != [] {
      var front, last := humans[..|humans| - 1], humans[|humans| - 1];
      UnnoticedIsAll(r, front);
      assert humans == front + [last];
    }
  }

  /** Compaction hides no human turn from the parser's readers. */
  lemma {:induction false} CompactionKeepsHumans(steps: seq<Step>, k: nat)
    ensures HumanSteps(CompactedUpTo(steps, k)) == HumanSteps(steps)
  {
    if steps != [] {
      var n := |steps| - 1;
      CompactionKeepsHumans(steps[..n], k);
      assert CompactedUpTo(steps, k)[..n] == CompactedUpTo(steps[..n], k);
      CompactedTwice(steps[n]);
    }
  }

  // ---------- What the lines say ----------

  /** A task notification that passes for a human's words with the user-turn reader. */
  predicate Retold(r: Rules, text: string) {
    var t := Trim(text);
    t != [] && Retained(r, t) && !r.steer(t) && r.notice(t).Some?
  }

  predicate SaysNotice(r: Rules, line: Line) {
    Counts(line) &&
    match line.content
    case NoContent => false
    case Whole(text) => Retold(r, text)
    case Blocks(blocks) => exists i :: 0 <= i < |blocks| && blocks[i].Write? && Retold(r, blocks[i].text)
  }

  ghost predicate NoneNoticed(r: Rules, humans: seq<Human>) {
    forall h :: h in humans ==> r.notice(h.text).None?
  }

  lemma NoneInConcat(r: Rules, a: seq<UserTurn>, b: seq<UserTurn>)
    ensures NoneNoticed(r, HumanTurns(a + b)) <==> NoneNoticed(r, HumanTurns(a)) && NoneNoticed(r, HumanTurns(b))
  {
    HumanTurnsConcat(a, b);
    var x, y := HumanTurns(a), HumanTurns(b);
    assert forall h :: h in x + y <==> h in x || h in y;
  }

  lemma TextIsRetold(r: Rules, text: string, turn: nat, block: nat, flags: nat)
    ensures NoneNoticed(r, HumanTurns(TextTurns(r, text, turn, block, flags))) <==> !Retold(r, text)
  {
    var t := Trim(text);
    var turns := TextTurns(r, text, turn, block, flags);
    if turns != [] {
      assert HumanTurns(turns) == HumanTurns([]) + if r.steer(t) then [] else [Human.Human(turn, block, t)];
    }
  }

  lemma {:induction false} BlocksAreRetold(r: Rules, blocks: seq<UserBlock>, turn: nat, flags: nat)
    ensures NoneNoticed(r, HumanTurns(BlockTurns(r, blocks, turn, flags)))
       <==> forall i :: 0 <= i < |blocks| && blocks[i].Write? ==> !Retold(r, blocks[i].text)
  {
    if blocks != [] {
      var n := |blocks| - 1;
      BlocksAreRetold(r, blocks[..n], turn, flags);
      var front := BlockTurns(r, blocks[..n], turn, flags);
      if blocks[n].Write? {
        NoneInConcat(r, front, TextTurns(r, blocks[n].text, turn, n % 0x1_0000, flags));
        TextIsRetold(r, blocks[n].text, turn, n % 0x1_0000, flags);
      } else {
        assert front + [] == front;
      }
    }
  }

  lemma RecordIsRetold(r: Rules, line: Line, turn: nat)
    requires Counts(line)
    ensures NoneNoticed(r, HumanTurns(RecordTurns(r, line, turn))) <==> !SaysNotice(r, line)
  {
    match line.content
    case NoContent =>
    case Whole(text) => TextIsRetold(r, text, turn, 0, 0);
    case Blocks(blocks) =>
      BlocksAreRetold(r, blocks, turn, r.flags(blocks));
      NoneInConcat(r, BlockTurns(r, blocks, turn, r.flags(blocks)), AnswerTurns(blocks, turn, line.answer));
      AnswerAgrees(r, Nothing, blocks, turn, line.answer);
  }

  lemma {:induction false} LinesAreRetold(r: Rules, lines: seq<Line>)
    ensures NoneNoticed(r, HumanTurns(Turns(r, lines))) <==> forall i :: 0 <= i < |lines| ==> !SaysNotice(r, lines[i])
  {
    if lines != [] {
      var n := |lines| - 1;
      LinesAreRetold(r, lines[..n]);
      if Counts(lines[n]) {
        RecordIsRetold(r, lines[n], TurnAfter(lines[..n]));
        NoneInConcat(r, Turns(r, lines[..n]), RecordTurns(r, lines[n], TurnAfter(lines[..n])));
      } else {
        assert Turns(r, lines) == Turns(r, lines[..n]);
      }
    }
  }

  /** The humans of the step parser, compaction included, and of the user-turn reader. */
  function ParsedHumans(r: Rules, lines: seq<Line>): seq<Human> {
    HumanSteps(CompactedUpTo(PlainParse(r, lines), CompactedUntil(r, lines)))
  }

  function ReadHumans(r: Rules, lines: seq<Line>): seq<Human> {
    HumanTurns(Turns(r, lines))
  }

  /** On texts within the length cap, the human turns of the parser are those of the user-turn reader less the
      task notifications; the two readers agree exactly when no counted line retains a notification. */
  lemma ReadersAgreeExactly(r: Rules, lines: seq<Line>)
    requires !Retained(r, "") && forall i :: 0 <= i < |lines| ==> LineFits(lines[i])
    ensures ParsedHumans(r, lines) == Unnoticed(r, ReadHumans(r, lines))
    ensures ParsedHumans(r, lines) == ReadHumans(r, lines) <==> forall i :: 0 <= i < |lines| ==> !SaysNotice(r, lines[i])
  {
    LinesAgree(r, lines);
    FlushedHumans(LinesParsed(r, lines));
    CompactionKeepsHumans(PlainParse(r, lines), CompactedUntil(r, lines));
    UnnoticedIsAll(r, ReadHumans(r, lines));
    LinesAreRetold(r, lines);
  }

  /** One record that holds a notification the noise rules let through: the parser reports no human, the
      user-turn reader one. */
  lemma NotificationDivides(r: Rules, text: string)
    requires !Retained(r, "") && Retold(r, text) && Fits(text)
    ensures var lines := [UserRecord(false, Whole(text), false, None)];
            ParsedHumans(r, lines) == [] && ReadHumans(r, lines) == [Human.Human(0, 0, Trim(text))]
  {
    var line := UserRecord(false, Whole(text), false, None);
    var lines, t := [line], Trim(text);
    assert lines[..0] == [] && Turns(r, []) == [];
    assert Turns(r, lines) == [UserTurn(0, 0, t, UserOrigin.Human, 0)];
    assert HumanTurns([UserTurn(0, 0, t, UserOrigin.Human, 0)][..0]) == [];
    assert ReadHumans(r, lines) == [Human.Human(0, 0, t)];
    assert Unnoticed(r, [Human.Human(0, 0, t)][..0]) == [];
    ReadersAgreeExactly(r, lines);
  }
}
