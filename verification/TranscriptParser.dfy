/** The two reading loops, against the functions that specify them. */
module TranscriptParser {
  import opened GateTypes
  import opened StepText
  import opened Transcript

  method FlushAssistant(steps: seq<Step>, index: nat, pending: Option<string>)
    returns (steps': seq<Step>, index': nat, pending': Option<string>)
    requires index == |steps|
    ensures pending' == None && index' == |steps'|
    ensures steps' == steps + if pending.Some? then [NewStep(|steps|, Assistant, pending.value)] else []
  {
    steps', index', pending' := steps, index, pending;
    if pending'.Some? {
      steps' := steps' + [NewStep(index', Assistant, pending'.value)];
      index' := index' + 1;
      pending' := None;
    }
  }

  method AppendSemanticAssistant(pending: Option<string>, text: string) returns (pending': Option<string>)
    ensures pending' == Said(pending, text)
  {
    var used := if pending.Some? then |pending.value| else 0;
    pending' := pending;
    if used >= ASSISTANT_CHARS {
      return;
    }
    pending' := Joined(pending', Truncate(text, ASSISTANT_CHARS - used));
    pending' := Some(Truncate(pending'.value, ASSISTANT_CHARS));
  }

  /** The parser's own variables stand for a plain parse: the same steps, the first `until` of them
      compacted, and an index that counts them. */
  ghost predicate Stands(p: Parse, steps: seq<Step>, index: nat, pending: Option<string>, until: nat) {
    && steps == CompactedUpTo(p.steps, until) && until <= |p.steps|
    && index == |p.steps| && pending == p.pending
  }

  lemma CompactedAppend(steps: seq<Step>, more: seq<Step>, k: nat)
    requires k <= |steps|
    ensures CompactedUpTo(steps + more, k) == CompactedUpTo(steps, k) + more
  {
  }

  method Push(ghost p: Parse, ghost until: nat, steps: seq<Step>, index: nat, pending: Option<string>, step: Step)
    returns (steps': seq<Step>, index': nat, pending': Option<string>)
    requires Stands(p, steps, index, pending, until)
    ensures Stands(Pushed(p, step), steps', index', pending', until)
  {
    steps', index', pending' := FlushAssistant(steps, index, pending);
    steps' := steps' + [Placed(step, index')];
    index' := index' + 1;
    ghost var q := Flushed(p);
    CompactedAppend(p.steps, q.steps[|p.steps|..], until);
    CompactedAppend(q.steps, [Placed(step, |q.steps|)], until);
  }

  // ---------- Steps only accumulate ----------

  lemma {:induction false} AssistantGrows(r: Rules, p: Parse, blocks: seq<AssistantBlock>)
    ensures p.steps <= AssistantParsed(r, p, blocks).steps
  {
    if blocks != [] {
      AssistantGrows(r, p, blocks[..|blocks| - 1]);
    }
  }

  lemma {:induction false} BlocksGrow(r: Rules, p: Parse, blocks: seq<UserBlock>, turn: nat, flags: nat, asyncLaunched: bool)
    ensures var q := BlocksParsed(r, p, blocks, turn, flags, asyncLaunched);
            p.steps <= q.steps && q.turn == p.turn && q.targets == p.targets && q.kinds == p.kinds
  {
    if blocks != [] {
      BlocksGrow(r, p, blocks[..|blocks| - 1], turn, flags, asyncLaunched);
    }
  }

  lemma LineGrows(r: Rules, p: Parse, line: Line)
    ensures p.steps <= LineParsed(r, p, line).steps
  {
    match line
    case AssistantRecord(blocks) => AssistantGrows(r, p, blocks);
    case UserRecord(meta, content, asyncLaunched, _) =>
      if !meta && content.Blocks? {
        BlocksGrow(r, p.(turn := NextTurn(p.turn)), content.blocks, p.turn, r.flags(content.blocks), asyncLaunched);
      }
    case _ =>
  }

  /** The parser never compacts within the last 512 steps. */
  lemma {:induction false} RecentStepsAreFull(r: Rules, lines: seq<Line>)
    ensures CompactedUntil(r, lines) <= StableEnd(|LinesParsed(r, lines).steps|) <= StableEnd(|PlainParse(r, lines)|)
  {
    if lines != [] {
      var n := |lines| - 1;
      RecentStepsAreFull(r, lines[..n]);
      LineGrows(r, LinesParsed(r, lines[..n]), lines[n]);
    }
  }

  // ---------- The parser's loops ----------

  method ParseAssistant(ghost p: Parse, ghost until: nat, r: Rules, blocks: seq<AssistantBlock>,
                        steps: seq<Step>, index: nat, pending: Option<string>,
                        targets: map<string, string>, kinds: map<string, ToolKind>)
    returns (steps': seq<Step>, index': nat, pending': Option<string>,
             targets': map<string, string>, kinds': map<string, ToolKind>)
    requires Stands(p, steps, index, pending, until) && targets == p.targets && kinds == p.kinds
    ensures var q := AssistantParsed(r, p, blocks);
            && Stands(q, steps', index', pending', until)
            && q.turn == p.turn && targets' == q.targets && kinds' == q.kinds
  {
    steps', index', pending', targets', kinds' := steps, index, pending, targets, kinds;
    for i := 0 to |blocks|
      invariant var q := AssistantParsed(r, p, blocks[..i]);
                && Stands(q, steps', index', pending', until)
                && q.turn == p.turn && targets' == q.targets && kinds' == q.kinds
    {
      assert blocks[..i + 1][..i] == blocks[..i];
      ghost var q := AssistantParsed(r, p, blocks[..i]);
      match blocks[i] {
        case Say(text) =>
          if !r.transcriptNoise(Trim(text)) {
            pending' := AppendSemanticAssistant(pending', Trim(text));
          }
        case Call(_, id, target, kind) =>
          steps', index', pending' := Push(q, until, steps', index', pending', CallStep(blocks[i]));
          if id.Some? {
            kinds' := kinds'[id.value := kind];
          }
          if kind == Delegate && id.Some? && target.Some? {
            targets' := targets'[id.value := target.value];
          }
        case SkipA =>
      }
    }
    assert blocks[..|blocks|] == blocks;
  }

  method ParseText(ghost p: Parse, ghost until: nat, r: Rules, text: string, turn: nat, block: nat, flags: nat,
                   steps: seq<Step>, index: nat, pending: Option<string>, targets: map<string, string>)
    returns (steps': seq<Step>, index': nat, pending': Option<string>)
    requires Stands(p, steps, index, pending, until) && targets == p.targets
    ensures Stands(TextParsed(r, p, text, turn, block, flags), steps', index', pending', until)
  {
    steps', index', pending' := steps, index, pending;
    var t := Trim(text);
    var notice := r.notice(t);
    if notice.Some? {
      var n := notice.value;
      var step := NewStep(0, DelegateResult, Truncate(n.result, ASSISTANT_CHARS));
      step := step.(kind := Delegate, correlation := Some(n.correlation), isError := n.isError);
      if n.correlation in targets {
        step := step.(target := Some(targets[n.correlation]));
      }
      steps', index', pending' := Push(p, until, steps', index', pending', step);
    } else if Retained(r, t) {
      steps', index', pending' :=
        Push(p, until, steps', index', pending', UserStep(r, 0, Truncate(t, USER_CHARS), turn, block, flags));
    }
  }

  method ParseBlocks(ghost p: Parse, ghost until: nat, r: Rules, blocks: seq<UserBlock>, turn: nat, asyncLaunched: bool,
                     steps: seq<Step>, index: nat, pending: Option<string>,
                     targets: map<string, string>, kinds: map<string, ToolKind>)
    returns (steps': seq<Step>, index': nat, pending': Option<string>, hasResult: bool)
    requires Stands(p, steps, index, pending, until) && targets == p.targets && kinds == p.kinds
    ensures Stands(BlocksParsed(r, p, blocks, turn, r.flags(blocks), asyncLaunched), steps', index', pending', until)
    ensures hasResult == HasResult(blocks)
  {
    steps', index', pending', hasResult := steps, index, pending, false;
    var flags := r.flags(blocks);
    for i := 0 to |blocks|
      invariant Stands(BlocksParsed(r, p, blocks[..i], turn, flags, asyncLaunched), steps', index', pending', until)
      invariant hasResult == HasResult(blocks[..i])
    {
      assert blocks[..i + 1][..i] == blocks[..i];
      ghost var q := BlocksParsed(r, p, blocks[..i], turn, flags, asyncLaunched);
      BlocksGrow(r, p, blocks[..i], turn, flags, asyncLaunched);
      HasResultGrows(blocks, i);
      match blocks[i] {
        case Write(text) =>
          steps', index', pending' :=
            ParseText(q, until, r, text, turn, i % 0x1_0000, flags, steps', index', pending', targets);
        case Result(text, isError, callId) =>
          hasResult := true;
          if asyncLaunched {
            continue;
          }
          var kind := if callId.Some? && callId.value in kinds then kinds[callId.value] else Other;
          var step := NewStep(0, if kind == Delegate then DelegateResult else ToolResult, text);
          step := step.(kind := kind, correlation := callId, isError := isError);
          steps', index', pending' := Push(q, until, steps', index', pending', step);
        case SkipU =>
      }
    }
    assert blocks[..|blocks|] == blocks;
  }

  lemma HasResultGrows(blocks: seq<UserBlock>, i: nat)
    requires i < |blocks|
    ensures HasResult(blocks[..i + 1]) <==> HasResult(blocks[..i]) || blocks[i].Result?
  {
    if HasResult(blocks[..i]) {
      var j :| 0 <= j < i && blocks[..i][j].Result?;
      assert blocks[..i + 1][j].Result?;
    }
    if blocks[i].Result? {
      assert blocks[..i + 1][i].Result?;
    }
  }

  method ParseUser(ghost p: Parse, ghost until: nat, r: Rules, line: Line, turn: nat,
                   steps: seq<Step>, index: nat, pending: Option<string>,
                   targets: map<string, string>, kinds: map<string, ToolKind>)
    returns (steps': seq<Step>, index': nat, pending': Option<string>)
    requires line.UserRecord? && turn == p.turn
    requires Stands(p, steps, index, pending, until) && targets == p.targets && kinds == p.kinds
    ensures var q := UserParsed(r, p, line);
            && Stands(q, steps', index', pending', until)
            && q.turn == NextTurn(p.turn) && q.targets == p.targets && q.kinds == p.kinds
  {
    steps', index', pending' := steps, index, pending;
    ghost var p' := p.(turn := NextTurn(p.turn));
    match line.content {
      case NoContent =>
      case Whole(text) =>
        steps', index', pending' := ParseText(p', until, r, text, turn, 0, 0, steps', index', pending', targets);
      case Blocks(blocks) =>
        var hasResult;
        steps', index', pending', hasResult :=
          ParseBlocks(p', until, r, blocks, turn, line.asyncLaunched, steps', index', pending', targets, kinds);
        BlocksGrow(r, p', blocks, turn, r.flags(blocks), line.asyncLaunched);
        if hasResult && line.answer.Some? {
          ghost var q := BlocksParsed(r, p', blocks, turn, r.flags(blocks), line.asyncLaunched);
          var step := UserStep(r, 0, Truncate(line.answer.value, USER_CHARS), turn, 0, 0).(origin := ToolAnswer);
          steps', index', pending' := Push(q, until, steps', index', pending', step);
        }
    }
  }

  method CompactAged(ghost plain: seq<Step>, steps: seq<Step>, until: nat) returns (steps': seq<Step>)
    requires steps == CompactedUpTo(plain, until) && until <= StableEnd(|plain|)
    ensures steps' == CompactedUpTo(plain, StableEnd(|plain|))
  {
    var end := StableEnd(|steps|);
    steps' := steps;
    for i := until to end
      invariant steps' == CompactedUpTo(plain, i)
    {
      steps' := steps'[i := Compacted(steps'[i])];
    }
  }

  /** Compacting while streaming gives the plain parse with exactly a prefix compacted. */
  method ParseClaude(r: Rules, lines: seq<Line>) returns (steps: seq<Step>)
    ensures steps == CompactedUpTo(PlainParse(r, lines), CompactedUntil(r, lines))
  {
    steps := [];
    var index, turn, until := 0, 0, 0;
    var pending: Option<string> := None;
    var targets: map<string, string> := map[];
    var kinds: map<string, ToolKind> := map[];
    for n := 0 to |lines|
      invariant var p := LinesParsed(r, lines[..n]);
                && Stands(p, steps, index, pending, until)
                && turn == p.turn && targets == p.targets && kinds == p.kinds
      invariant until == CompactedUntil(r, lines[..n])
    {
      var line := lines[n];
      ghost var p := LinesParsed(r, lines[..n]);
      assert lines[..n + 1][..n] == lines[..n];
      LineGrows(r, p, line);
      RecentStepsAreFull(r, lines[..n]);
      if line.Malformed? || (line.UserRecord? && line.meta) {
        continue;
      }
      if line.ApiError? {
        steps, index, pending := Push(p, until, steps, index, pending, ErrorStep(line.message));
        continue;
      }
      if line.AssistantRecord? {
        steps, index, pending, targets, kinds :=
          ParseAssistant(p, until, r, line.blocks, steps, index, pending, targets, kinds);
      } else if line.UserRecord? {
        steps, index, pending := ParseUser(p, until, r, line, turn, steps, index, pending, targets, kinds);
        turn := NextTurn(turn);
      }
      steps := CompactAged(LineParsed(r, p, line).steps, steps, until);
      until := StableEnd(|steps|);
    }
    assert lines[..|lines|] == lines;
    ghost var p := LinesParsed(r, lines);
    steps, index, pending := FlushAssistant(steps, index, pending);
    CompactedAppend(p.steps, Flushed(p).steps[|p.steps|..], until);
  }

  // ---------- The reader of user turns ----------

  method UserTurns(r: Rules, lines: seq<Line>) returns (turns: seq<UserTurn>)
    ensures turns == Turns(r, lines)
  {
    turns := [];
    var turn := 0;
    for n := 0 to |lines|
      invariant turns == Turns(r, lines[..n]) && turn == TurnAfter(lines[..n])
    {
      assert lines[..n + 1][..n] == lines[..n];
      var line := lines[n];
      if !line.UserRecord? || line.meta {
        continue;
      }
      var this_ := turn;
      turn := NextTurn(turn);
      match line.content {
        case NoContent =>
        case Whole(text) =>
          turns := turns + TextTurns(r, text, this_, 0, 0);
        case Blocks(blocks) =>
          var flags := r.flags(blocks);
          var hasResult := false;
          ghost var before := turns;
          for i := 0 to |blocks|
            invariant turns == before + BlockTurns(r, blocks[..i], this_, flags)
            invariant hasResult == HasResult(blocks[..i])
          {
            assert blocks[..i + 1][..i] == blocks[..i];
            HasResultGrows(blocks, i);
            match blocks[i] {
              case Write(text) =>
                turns := turns + TextTurns(r, text, this_, i % 0x1_0000, flags);
              case Result(_, _, _) =>
                hasResult := true;
              case SkipU =>
            }
          }
          assert blocks[..|blocks|] == blocks;
          if hasResult && line.answer.Some? {
            turns := turns + [UserTurn(this_, 0, line.answer.value, ToolAnswer, 0)];
          }
      }
    }
    assert lines[..|lines|] == lines;
  }
}
