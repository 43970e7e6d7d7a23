/** What a parsed transcript says: the steps as they follow from the records alone, without the parser's state. */
module TranscriptContent {
  import opened GateTypes
  import opened StepText
  import opened Transcript
  import TranscriptParser

  // ---------- What the records say ----------

  /** One thing said or done, as its record has it. */
  datatype Item =
    | Spoken(text: string)
    | Called(name: string, id: Option<string>, target: Option<string>, kind: ToolKind)
    | Failed(message: string)
    | Noticed(notice: Notice)
    | Returned(text: string, isError: bool, callId: Option<string>)
    | Written(text: string, turn: nat, block: nat, flags: nat)
    | Chosen(text: string, turn: nat)

  function AssistantItem(r: Rules, b: AssistantBlock): seq<Item> {
    match b
    case Say(text) => if r.transcriptNoise(Trim(text)) then [] else [Spoken(Trim(text))]
    case Call(name, id, target, kind) => [Called(name, id, target, kind)]
    case SkipA => []
  }

  function AssistantItems(r: Rules, blocks: seq<AssistantBlock>): seq<Item> {
    if blocks == [] then []
    else AssistantItems(r, blocks[..|blocks| - 1]) + AssistantItem(r, blocks[|blocks| - 1])
  }

  function TextItem(r: Rules, text: string, turn: nat, block: nat, flags: nat): seq<Item> {
    if r.notice(Trim(text)).Some? then [Noticed(r.notice(Trim(text)).value)]
    else if r.steer(Trim(text)) || (!r.marked(Trim(text)) && !r.noise(Trim(text)))
    then [Written(Trim(text), turn, block, flags)]
    else []
  }

  /** The result of a call that was only launched is no result. */
  function UserItem(r: Rules, b: UserBlock, launched: bool, turn: nat, block: nat, flags: nat): seq<Item> {
    match b
    case Write(text) => TextItem(r, text, turn, block, flags)
    case Result(text, isError, callId) => if launched then [] else [Returned(text, isError, callId)]
    case SkipU => []
  }

  function UserItems(r: Rules, blocks: seq<UserBlock>, launched: bool, turn: nat, flags: nat): seq<Item> {
    if blocks == [] then []
    else
      var n := |blocks| - 1;
      UserItems(r, blocks[..n], launched, turn, flags) + UserItem(r, blocks[n], launched, turn, n % 65536, flags)
  }

  function AnswerItem(blocks: seq<UserBlock>, turn: nat, answer: Option<string>): seq<Item> {
    if answer.Some? && exists i :: 0 <= i < |blocks| && blocks[i].Result? then [Chosen(answer.value, turn)] else []
  }

  function LineItems(r: Rules, line: Line, turn: nat): seq<Item> {
    match line
    case AssistantRecord(blocks) => AssistantItems(r, blocks)
    case ApiError(message) => [Failed(message)]
    case UserRecord(false, Whole(text), _, _) => TextItem(r, text, turn, 0, 0)
    case UserRecord(false, Blocks(blocks), launched, answer) =>
      UserItems(r, blocks, launched, turn, r.flags(blocks)) + AnswerItem(blocks, turn, answer)
    case _ => []
  }

  /** How many records a user has sent. */
  function Sent(lines: seq<Line>): nat {
    if lines == [] then 0
    else Sent(lines[..|lines| - 1]) + if lines[|lines| - 1].UserRecord? && !lines[|lines| - 1].meta then 1 else 0
  }

  function TurnNumber(lines: seq<Line>): nat {
    Sent(lines) % 0x1_0000_0000
  }

  function Items(r: Rules, lines: seq<Line>): seq<Item> {
    if lines == [] then []
    else
      var front := lines[..|lines| - 1];
      Items(r, front) + LineItems(r, lines[|lines| - 1], TurnNumber(front))
  }

  // ---------- The steps that follow ----------

  /** The kind of the last call with this id. */
  function KindOf(before: seq<Item>, id: string): Option<ToolKind> {
    if before == [] then None
    else
      var x := before[|before| - 1];
      if x.Called? && x.id == Some(id) then Some(x.kind) else KindOf(before[..|before| - 1], id)
  }

  /** The target of the last delegation with this id that names one. */
  function TargetOf(before: seq<Item>, id: string): Option<string> {
    if before == [] then None
    else
      var x := before[|before| - 1];
      if x.Called? && x.kind == Delegate && x.id == Some(id) && x.target.Some? then x.target
      else TargetOf(before[..|before| - 1], id)
  }

  function ReturnedKind(before: seq<Item>, callId: Option<string>): ToolKind {
    if callId.Some? && KindOf(before, callId.value).Some? then KindOf(before, callId.value).value else Other
  }

  /** The step that shows an item. */
  function StepOf(r: Rules, before: seq<Item>, x: Item, index: nat): Step
    requires !x.Spoken?
  {
    match x
    case Called(name, id, target, kind) =>
      Step(index, ToolUse, name, kind, id, target, false, index, 0, UserOrigin.Human, 0)
    case Failed(message) =>
      Step(index, ToolResult, Truncate(message, 32768), Other, None, None, true, index, 0, UserOrigin.Human, 0)
    case Noticed(n) =>
      Step(index, DelegateResult, Truncate(n.result, 65536), Delegate, Some(n.correlation),
           TargetOf(before, n.correlation), n.isError, index, 0, UserOrigin.Human, 0)
    case Returned(text, isError, callId) =>
      var kind := ReturnedKind(before, callId);
      Step(index, if kind == Delegate then DelegateResult else ToolResult, text, kind, callId, None, isError, index, 0,
           UserOrigin.Human, 0)
    case Written(text, turn, block, flags) =>
      var shown := Truncate(text, 262144);
      Step(index, User, shown, Other, None, None, false, turn, block, if r.steer(shown) then Controller else UserOrigin.Human,
           flags)
    case Chosen(text, turn) =>
      Step(index, User, Truncate(text, 262144), Other, None, None, false, turn, 0, ToolAnswer, 0)
  }

  /** What has been said since anything else was done. */
  function Talk(items: seq<Item>): seq<string> {
    if items == [] || !items[|items| - 1].Spoken? then []
    else Talk(items[..|items| - 1]) + [items[|items| - 1].text]
  }

  function Join(texts: seq<string>): string {
    if texts == [] then ""
    else if |texts| == 1 then texts[0]
    else Join(texts[..|texts| - 1]) + "\n" + texts[|texts| - 1]
  }

  /** Some of the texts, not all of them, fill the cap exactly. */
  ghost predicate Brims(texts: seq<string>, cap: nat) {
    exists m :: 0 < m < |texts| && |Join(texts[..m])| == cap
  }

  /** The texts on lines of their own, cut at the cap; an ellipsis marks the cut, unless the cap fell between two. */
  ghost function Voice(texts: seq<string>, cap: nat): string {
    var all := Join(texts);
    if |all| <= cap then all else if Brims(texts, cap) then all[..cap] else all[..cap] + [ELLIPSIS]
  }

  ghost function Voiced(texts: seq<string>, index: nat): seq<Step> {
    if texts == [] then []
    else [Step(index, Assistant, Voice(texts, 65536), Other, None, None, false, index, 0, UserOrigin.Human, 0)]
  }

  /** The steps up to the last item that is not speech. */
  ghost function Done(r: Rules, items: seq<Item>): seq<Step> {
    if items == [] then []
    else
      var front, x := items[..|items| - 1], items[|items| - 1];
      if x.Spoken? then Done(r, front)
      else
        var before := Done(r, front) + Voiced(Talk(front), |Done(r, front)|);
        before + [StepOf(r, front, x, |before|)]
  }

  /** Every item in order, with what was said between the others in one step. */
  ghost function Shown(r: Rules, items: seq<Item>): seq<Step> {
    Done(r, items) + Voiced(Talk(items), |Done(r, items)|)
  }

  // ---------- Joining and capping ----------

  predicate Plain(text: string) {
    text != "" && Trimmed(text)
  }

  lemma TrimPlain(text: string)
    requires text == "" || Trimmed(text)
    ensures Trim(text) == text
  {
    assert TrimStart(text) == text && TrimEnd(text) == text;
  }

  lemma {:induction false} JoinIsPlain(texts: seq<string>)
    requires texts != [] && forall i :: 0 <= i < |texts| ==> Plain(texts[i])
    ensures Plain(Join(texts))
  {
    if |texts| > 1 {
      JoinIsPlain(texts[..|texts| - 1]);
    }
  }

  lemma TruncatePlain(text: string, max: nat)
    requires Plain(text) && max > 0
    ensures Truncate(text, max) == if |text| <= max then text else text[..max] + [ELLIPSIS]
    ensures Plain(Truncate(text, max))
  {
    TrimPlain(text);
  }

  lemma SaidFirst(text: string)
    requires Plain(text)
    ensures Said(None, text) == Some(Truncate(text, ASSISTANT_CHARS))
  {
    TruncatePlain(text, ASSISTANT_CHARS);
    TruncatePlain(Truncate(text, ASSISTANT_CHARS), ASSISTANT_CHARS);
  }

  lemma CutTwice(before: string, text: string, cap: nat)
    requires |before| < cap && |text| > cap - |before|
    ensures (before + "\n" + (text[..cap - |before|] + [ELLIPSIS]))[..cap] == (before + "\n" + text)[..cap]
  {
  }

  lemma SaidNext(before: string, text: string)
    requires Plain(before) && Plain(text) && |before| < ASSISTANT_CHARS
    ensures Said(Some(before), text) == Some(Truncate(before + "\n" + text, ASSISTANT_CHARS))
  {
    var room := ASSISTANT_CHARS - |before|;
    var cut := Truncate(text, room);
    TruncatePlain(text, room);
    TruncateLines(before, cut);
    TruncateLines(before, text);
    if |text| > room {
      CutTwice(before, text, ASSISTANT_CHARS);
    }
  }

  lemma TruncateLines(before: string, text: string)
    requires Plain(before) && Plain(text)
    ensures var all := before + "\n" + text;
            Truncate(all, ASSISTANT_CHARS) == if |all| <= ASSISTANT_CHARS then all else all[..ASSISTANT_CHARS] + [ELLIPSIS]
  {
    assert Plain(before + "\n" + text);
    TruncatePlain(before + "\n" + text, ASSISTANT_CHARS);
  }

  lemma {:induction false} JoinGrows(texts: seq<string>, m: nat)
    requires m <= |texts|
    ensures |Join(texts[..m])| <= |Join(texts)|
  {
    if m == |texts| {
      assert texts[..m] == texts;
    } else {
      var front := texts[..|texts| - 1];
      JoinGrows(front, m);
      assert front[..m] == texts[..m];
      assert |Join(front)| <= |Join(texts)| by {
        if |texts| == 1 { assert front == []; }
      }
    }
  }

  lemma JoinOneMore(texts: seq<string>, text: string)
    requires texts != []
    ensures Join(texts + [text]) == Join(texts) + "\n" + text
  {
    assert (texts + [text])[..|texts|] == texts;
  }

  lemma BrimsOneMore(texts: seq<string>, text: string, cap: nat)
    requires texts != []
    ensures Brims(texts + [text], cap) <==> Brims(texts, cap) || |Join(texts)| == cap
  {
    var all := texts + [text];
    assert forall m :: 0 < m <= |texts| ==> all[..m] == texts[..m];
    assert texts[..|texts|] == texts;
    if |Join(texts)| == cap {
      assert 0 < |texts| < |all| && |Join(all[..|texts|])| == cap;
    }
    if Brims(texts, cap) {
      var m: nat :| 0 < m < |texts| && |Join(texts[..m])| == cap;
      assert 0 < m < |all| && |Join(all[..m])| == cap;
    }
    if Brims(all, cap) {
      var m: nat :| 0 < m < |all| && |Join(all[..m])| == cap;
      assert m < |texts| ==> |Join(texts[..m])| == cap;
    }
  }

  lemma NoBrimBelow(texts: seq<string>, cap: nat)
    requires |Join(texts)| < cap
    ensures !Brims(texts, cap)
  {
    forall m: nat | m < |texts| ensures |Join(texts[..m])| < cap {
      JoinGrows(texts, m);
    }
  }

  /** Saying one more thing: the voice is cut at the cap, and nothing is added once it is full. */
  lemma VoiceOneMore(texts: seq<string>, text: string, cap: nat)
    requires texts != [] && cap > 0
    ensures var all := Join(texts) + "\n" + text;
            Voice(texts + [text], cap) == (if |Join(texts)| >= cap then Voice(texts, cap)
                                           else if |all| <= cap then all
                                           else all[..cap] + [ELLIPSIS])
  {
    var all := Join(texts) + "\n" + text;
    JoinOneMore(texts, text);
    BrimsOneMore(texts, text, cap);
    if |Join(texts)| < cap {
      NoBrimBelow(texts, cap);
    } else {
      assert all[..cap] == Join(texts)[..cap];
    }
  }

  lemma FullVoice(texts: seq<string>, cap: nat)
    requires |Join(texts)| >= cap
    ensures |Voice(texts, cap)| >= cap
  {
  }

  ghost function Pending(texts: seq<string>): Option<string> {
    if texts == [] then None else Some(Voice(texts, 65536))
  }

  /** Appending to the pending text and truncating, again and again, is joining once and cutting at the cap. */
  lemma SaidIsVoiced(texts: seq<string>, text: string)
    requires Plain(text) && forall i :: 0 <= i < |texts| ==> Plain(texts[i])
    ensures Said(Pending(texts), text) == Pending(texts + [text])
  {
    if texts == [] {
      SaidFirst(text);
      TruncatePlain(text, ASSISTANT_CHARS);
      assert texts + [text] == [text];
      assert !Brims([text], ASSISTANT_CHARS);
    } else {
      var before := Join(texts);
      VoiceOneMore(texts, text, ASSISTANT_CHARS);
      if |before| < ASSISTANT_CHARS {
        JoinIsPlain(texts);
        SaidNext(before, text);
        assert Plain(before + "\n" + text);
        TruncatePlain(before + "\n" + text, ASSISTANT_CHARS);
      } else {
        FullVoice(texts, ASSISTANT_CHARS);
      }
    }
  }

  // ---------- The parser's state ----------

  ghost predicate Remembers(p: Parse, items: seq<Item>) {
    && (forall id :: KindOf(items, id) == if id in p.kinds then Some(p.kinds[id]) else None)
    && (forall id :: TargetOf(items, id) == if id in p.targets then Some(p.targets[id]) else None)
  }

  ghost predicate PlainTalk(items: seq<Item>) {
    forall i :: 0 <= i < |items| && items[i].Spoken? ==> Plain(items[i].text)
  }

  /** The parser has shown exactly what these items say, and remembers their calls. */
  ghost predicate Shows(r: Rules, p: Parse, items: seq<Item>) {
    && PlainTalk(items) && p.steps == Done(r, items) && p.pending == Pending(Talk(items)) && Remembers(p, items)
  }

  lemma {:induction false} TalkIsPlain(items: seq<Item>)
    requires PlainTalk(items)
    ensures forall i :: 0 <= i < |Talk(items)| ==> Plain(Talk(items)[i])
  {
    if items != [] {
      TalkIsPlain(items[..|items| - 1]);
    }
  }

  lemma SpokenShows(r: Rules, p: Parse, items: seq<Item>, text: string)
    requires Shows(r, p, items) && Plain(text)
    ensures Shows(r, p.(pending := Said(p.pending, text)), items + [Spoken(text)])
  {
    var all := items + [Spoken(text)];
    assert all[..|items|] == items;
    TalkIsPlain(items);
    SaidIsVoiced(Talk(items), text);
  }

  lemma PushedShows(r: Rules, p: Parse, items: seq<Item>, x: Item, step: Step, p': Parse)
    requires Shows(r, p, items) && !x.Spoken? && p' == Pushed(p, step)
    requires forall index :: Placed(step, index) == StepOf(r, items, x, index)
    ensures p'.steps == Done(r, items + [x]) && p'.pending == Pending(Talk(items + [x])) && PlainTalk(items + [x])
    ensures p'.kinds == p.kinds && p'.targets == p.targets
  {
    assert (items + [x])[..|items|] == items;
  }

  lemma OtherRemembered(p: Parse, items: seq<Item>, x: Item)
    requires Remembers(p, items) && !x.Called?
    ensures Remembers(p, items + [x])
  {
    assert (items + [x])[..|items|] == items;
  }

  lemma OtherShows(r: Rules, p: Parse, items: seq<Item>, x: Item, step: Step)
    requires Shows(r, p, items) && !x.Spoken? && !x.Called?
    requires forall index :: Placed(step, index) == StepOf(r, items, x, index)
    ensures Shows(r, Pushed(p, step), items + [x])
  {
    PushedShows(r, p, items, x, step, Pushed(p, step));
    OtherRemembered(p, items, x);
    assert Remembers(Pushed(p, step), items + [x]);
  }

  lemma CallRemembered(p: Parse, items: seq<Item>, b: AssistantBlock, p': Parse)
    requires Remembers(p, items) && b.Call?
    requires p'.kinds == if b.id.Some? then p.kinds[b.id.value := b.kind] else p.kinds
    requires p'.targets == if b.kind == Delegate && b.id.Some? && b.target.Some? then p.targets[b.id.value := b.target.value] else p.targets
    ensures Remembers(p', items + [Called(b.name, b.id, b.target, b.kind)])
  {
    assert (items + [Called(b.name, b.id, b.target, b.kind)])[..|items|] == items;
  }

  lemma CallShows(r: Rules, p: Parse, items: seq<Item>, b: AssistantBlock)
    requires Shows(r, p, items) && b.Call?
    ensures Shows(r, AssistantBlockParsed(r, p, b), items + [Called(b.name, b.id, b.target, b.kind)])
  {
    var x := Called(b.name, b.id, b.target, b.kind);
    PushedShows(r, p, items, x, CallStep(b), Pushed(p, CallStep(b)));
    CallRemembered(p, items, b, AssistantBlockParsed(r, p, b));
  }

  lemma AssistantBlockShows(r: Rules, p: Parse, items: seq<Item>, b: AssistantBlock)
    requires Shows(r, p, items) && r.transcriptNoise("")
    ensures Shows(r, AssistantBlockParsed(r, p, b), items + AssistantItem(r, b))
  {
    assert items + [] == items;
    match b
    case Say(text) =>
      if !r.transcriptNoise(Trim(text)) {
        TrimTrims(text);
        SpokenShows(r, p, items, Trim(text));
      }
    case Call(_, _, _, _) => CallShows(r, p, items, b);
    case SkipA =>
  }

  lemma {:induction false} AssistantShows(r: Rules, p: Parse, items: seq<Item>, blocks: seq<AssistantBlock>)
    requires Shows(r, p, items) && r.transcriptNoise("")
    ensures Shows(r, AssistantParsed(r, p, blocks), items + AssistantItems(r, blocks))
  {
    if blocks == [] {
      assert items + [] == items;
    } else {
      var n := |blocks| - 1;
      AssistantShows(r, p, items, blocks[..n]);
      var before := items + AssistantItems(r, blocks[..n]);
      AssistantBlockShows(r, AssistantParsed(r, p, blocks[..n]), before, blocks[n]);
      assert before + AssistantItem(r, blocks[n]) == items + AssistantItems(r, blocks);
    }
  }

  lemma TextShows(r: Rules, p: Parse, items: seq<Item>, text: string, turn: nat, block: nat, flags: nat)
    requires Shows(r, p, items)
    ensures Shows(r, TextParsed(r, p, text, turn, block, flags), items + TextItem(r, text, turn, block, flags))
  {
    var t := Trim(text);
    assert items + [] == items;
    if r.notice(t).Some? {
      OtherShows(r, p, items, Noticed(r.notice(t).value), NoticeStep(p, r.notice(t).value));
    } else if Retained(r, t) {
      OtherShows(r, p, items, Written(t, turn, block, flags), UserStep(r, 0, Truncate(t, USER_CHARS), turn, block, flags));
    }
  }

  lemma UserBlockShows(r: Rules, p: Parse, items: seq<Item>, b: UserBlock, launched: bool, turn: nat, block: nat, flags: nat)
    requires Shows(r, p, items)
    ensures Shows(r, UserBlockParsed(r, p, b, turn, block, flags, launched), items + UserItem(r, b, launched, turn, block, flags))
  {
    assert items + [] == items;
    match b
    case Write(text) => TextShows(r, p, items, text, turn, block, flags);
    case Result(text, isError, callId) =>
      if !launched {
        OtherShows(r, p, items, Returned(text, isError, callId), ResultStep(p, b));
      }
    case SkipU =>
  }

  lemma {:induction false} UserBlocksShow(r: Rules, p: Parse, items: seq<Item>, blocks: seq<UserBlock>, launched: bool,
                                          turn: nat, flags: nat)
    requires Shows(r, p, items)
    ensures Shows(r, BlocksParsed(r, p, blocks, turn, flags, launched), items + UserItems(r, blocks, launched, turn, flags))
  {
    if blocks == [] {
      assert items + [] == items;
    } else {
      var n := |blocks| - 1;
      UserBlocksShow(r, p, items, blocks[..n], launched, turn, flags);
      OneBlockMore(r, BlocksParsed(r, p, blocks[..n], turn, flags, launched), items, UserItems(r, blocks[..n], launched, turn, flags),
                   blocks[n], launched, turn, n % 0x1_0000, flags);
    }
  }

  lemma OneBlockMore(r: Rules, p: Parse, items: seq<Item>, more: seq<Item>, b: UserBlock, launched: bool, turn: nat, block: nat, flags: nat)
    requires Shows(r, p, items + more)
    ensures Shows(r, UserBlockParsed(r, p, b, turn, block, flags, launched), items + (more + UserItem(r, b, launched, turn, block, flags)))
  {
    UserBlockShows(r, p, items + more, b, launched, turn, block, flags);
    assert items + more + UserItem(r, b, launched, turn, block, flags) == items + (more + UserItem(r, b, launched, turn, block, flags));
  }

  lemma AnswerShows(r: Rules, p: Parse, items: seq<Item>, blocks: seq<UserBlock>, turn: nat, answer: Option<string>)
    requires Shows(r, p, items)
    ensures Shows(r, AnswerParsed(r, p, blocks, turn, answer), items + AnswerItem(blocks, turn, answer))
  {
    assert items + [] == items;
    if HasResult(blocks) && answer.Some? {
      OtherShows(r, p, items, Chosen(answer.value, turn),
                 UserStep(r, 0, Truncate(answer.value, USER_CHARS), turn, 0, 0).(origin := ToolAnswer));
    }
  }

  lemma BlocksShow(r: Rules, p: Parse, items: seq<Item>, blocks: seq<UserBlock>, launched: bool, turn: nat, flags: nat,
                   answer: Option<string>)
    requires Shows(r, p, items)
    ensures var q := AnswerParsed(r, BlocksParsed(r, p, blocks, turn, flags, launched), blocks, turn, answer);
            Shows(r, q, items + (UserItems(r, blocks, launched, turn, flags) + AnswerItem(blocks, turn, answer)))
  {
    var shown := items + UserItems(r, blocks, launched, turn, flags);
    UserBlocksShow(r, p, items, blocks, launched, turn, flags);
    AnswerShows(r, BlocksParsed(r, p, blocks, turn, flags, launched), shown, blocks, turn, answer);
    assert shown + AnswerItem(blocks, turn, answer)
        == items + (UserItems(r, blocks, launched, turn, flags) + AnswerItem(blocks, turn, answer));
  }

  lemma UserShows(r: Rules, p: Parse, items: seq<Item>, line: Line)
    requires Shows(r, p, items) && line.UserRecord? && !line.meta
    ensures Shows(r, UserParsed(r, p, line), items + LineItems(r, line, p.turn))
  {
    var q := p.(turn := NextTurn(p.turn));
    match line.content
    case NoContent => assert items + [] == items;
    case Whole(text) => TextShows(r, q, items, text, p.turn, 0, 0);
    case Blocks(blocks) => BlocksShow(r, q, items, blocks, line.asyncLaunched, p.turn, r.flags(blocks), line.answer);
  }

  lemma LineShows(r: Rules, p: Parse, items: seq<Item>, line: Line)
    requires Shows(r, p, items) && r.transcriptNoise("")
    ensures Shows(r, LineParsed(r, p, line), items + LineItems(r, line, p.turn))
  {
    assert items + [] == items;
    match line
    case ApiError(message) => OtherShows(r, p, items, Failed(message), ErrorStep(message));
    case AssistantRecord(blocks) => AssistantShows(r, p, items, blocks);
    case UserRecord(meta, _, _, _) =>
      if !meta {
        UserShows(r, p, items, line);
      }
    case _ =>
  }

  lemma NextTurnNumber(n: nat)
    ensures (n % 0x1_0000_0000 + 1) % 0x1_0000_0000 == (n + 1) % 0x1_0000_0000
  {
  }

  lemma ParsedOnward(r: Rules, front: seq<Line>, line: Line, p: Parse)
    requires p == LinesParsed(r, front)
    ensures LinesParsed(r, front + [line]) == LineParsed(r, p, line)
  {
    assert (front + [line])[..|front|] == front;
  }

  lemma ItemsOnward(r: Rules, front: seq<Line>, line: Line)
    ensures Items(r, front + [line]) == Items(r, front) + LineItems(r, line, TurnNumber(front))
  {
    assert (front + [line])[..|front|] == front;
  }

  lemma TurnOnward(front: seq<Line>, line: Line)
    ensures TurnNumber(front + [line])
         == if line.UserRecord? && !line.meta then (TurnNumber(front) + 1) % 0x1_0000_0000 else TurnNumber(front)
  {
    assert (front + [line])[..|front|] == front;
    NextTurnNumber(Sent(front));
  }

  /** The parser's states between the lines, and the items so far. */
  ghost predicate Stages(r: Rules, lines: seq<Line>, parses: seq<Parse>, shown: seq<seq<Item>>) {
    && |parses| == |shown| == |lines| + 1 && parses[0] == Nothing && shown[0] == []
    && forall k :: 0 <= k < |lines| ==> Stage(r, lines[k], parses[k], shown[k], parses[k + 1], shown[k + 1])
  }

  ghost predicate Stage(r: Rules, line: Line, p: Parse, items: seq<Item>, p': Parse, items': seq<Item>) {
    p' == LineParsed(r, p, line) && items' == items + LineItems(r, line, p.turn)
  }

  lemma StageShows(r: Rules, line: Line, p: Parse, items: seq<Item>, p': Parse, items': seq<Item>)
    requires r.transcriptNoise("") && Stage(r, line, p, items, p', items') && Shows(r, p, items)
    ensures Shows(r, p', items')
  {
    LineShows(r, p, items, line);
  }

  lemma {:induction false} StagesShow(r: Rules, lines: seq<Line>, parses: seq<Parse>, shown: seq<seq<Item>>, k: nat)
    requires r.transcriptNoise("") && Stages(r, lines, parses, shown) && k <= |lines|
    ensures Shows(r, parses[k], shown[k])
  {
    if k > 0 {
      StagesShow(r, lines, parses, shown, k - 1);
      StageShows(r, lines[k - 1], parses[k - 1], shown[k - 1], parses[k], shown[k]);
    }
  }

  lemma {:induction false} TurnsAreNumbered(r: Rules, lines: seq<Line>)
    ensures LinesParsed(r, lines).turn == TurnNumber(lines)
  {
    if lines != [] {
      var front, line := lines[..|lines| - 1], lines[|lines| - 1];
      TurnsAreNumbered(r, front);
      TurnOnward(front, line);
      LineTurns(r, LinesParsed(r, front), line);
      assert lines == front + [line];
    }
  }

  lemma {:induction false} AssistantTurns(r: Rules, p: Parse, blocks: seq<AssistantBlock>)
    ensures AssistantParsed(r, p, blocks).turn == p.turn
  {
    if blocks != [] {
      AssistantTurns(r, p, blocks[..|blocks| - 1]);
    }
  }

  lemma LineTurns(r: Rules, p: Parse, line: Line)
    ensures LineParsed(r, p, line).turn == if line.UserRecord? && !line.meta then (p.turn + 1) % 0x1_0000_0000 else p.turn
  {
    match line
    case AssistantRecord(blocks) => AssistantTurns(r, p, blocks);
    case UserRecord(meta, content, launched, _) =>
      if !meta && content.Blocks? {
        TranscriptParser.BlocksGrow(r, p.(turn := NextTurn(p.turn)), content.blocks, p.turn, r.flags(content.blocks), launched);
      }
    case _ =>
  }

  lemma StagesOf(r: Rules, lines: seq<Line>) returns (parses: seq<Parse>, shown: seq<seq<Item>>)
    ensures Stages(r, lines, parses, shown)
    ensures parses[|lines|] == LinesParsed(r, lines) && shown[|lines|] == Items(r, lines)
  {
    parses := seq(|lines| + 1, k requires 0 <= k < |lines| + 1 => LinesParsed(r, lines[..k]));
    shown := seq(|lines| + 1, k requires 0 <= k < |lines| + 1 => Items(r, lines[..k]));
    forall k | 0 <= k < |lines| ensures Stage(r, lines[k], parses[k], shown[k], parses[k + 1], shown[k + 1]) {
      assert lines[..k + 1] == lines[..k] + [lines[k]];
      ParsedOnward(r, lines[..k], lines[k], parses[k]);
      ItemsOnward(r, lines[..k], lines[k]);
      TurnsAreNumbered(r, lines[..k]);
    }
    assert lines[..|lines|] == lines;
  }

  /** For every transcript the steps are those of its records: each call, result, error, notice, user text and answer in
      order, and between them what the assistant said. */
  lemma ParseIsExact(r: Rules, lines: seq<Line>)
    requires r.transcriptNoise("")
    ensures PlainParse(r, lines) == Shown(r, Items(r, lines))
  {
    var parses, shown := StagesOf(r, lines);
    StagesShow(r, lines, parses, shown, |lines|);
  }

  // ---------- Calls ----------

  function ToolUses(steps: seq<Step>): seq<Item> {
    if steps == [] then []
    else
      var s := steps[|steps| - 1];
      ToolUses(steps[..|steps| - 1]) + if s.role == ToolUse then [Called(s.text, s.correlation, s.target, s.kind)] else []
  }

  /** The tool calls of the records, in order. */
  function CallsOf(blocks: seq<AssistantBlock>): seq<Item> {
    if blocks == [] then []
    else
      var b := blocks[|blocks| - 1];
      CallsOf(blocks[..|blocks| - 1]) + if b.Call? then [Called(b.name, b.id, b.target, b.kind)] else []
  }

  function CallsIn(lines: seq<Line>): seq<Item> {
    if lines == [] then []
    else
      var line := lines[|lines| - 1];
      CallsIn(lines[..|lines| - 1]) + if line.AssistantRecord? then CallsOf(line.blocks) else []
  }

  function OnlyCalls(items: seq<Item>): seq<Item> {
    if items == [] then []
    else OnlyCalls(items[..|items| - 1]) + if items[|items| - 1].Called? then [items[|items| - 1]] else []
  }

  lemma ToolUsesOneMore(steps: seq<Step>, s: Step)
    ensures ToolUses(steps + [s])
         == ToolUses(steps) + if s.role == ToolUse then [Called(s.text, s.correlation, s.target, s.kind)] else []
  {
    assert (steps + [s])[..|steps|] == steps;
  }

  lemma SpeechIsNoCall(steps: seq<Step>, texts: seq<string>)
    ensures ToolUses(steps + Voiced(texts, |steps|)) == ToolUses(steps)
  {
    if texts == [] {
      assert steps + [] == steps;
    } else {
      ToolUsesOneMore(steps, Voiced(texts, |steps|)[0]);
    }
  }

  lemma StepIsCall(r: Rules, front: seq<Item>, x: Item, done: seq<Step>, talk: seq<string>)
    requires !x.Spoken?
    ensures var before := done + Voiced(talk, |done|);
            ToolUses(before + [StepOf(r, front, x, |before|)]) == ToolUses(done) + if x.Called? then [x] else []
  {
    var before := done + Voiced(talk, |done|);
    SpeechIsNoCall(done, talk);
    ToolUsesOneMore(before, StepOf(r, front, x, |before|));
  }

  lemma {:induction false} DoneCalls(r: Rules, items: seq<Item>)
    ensures ToolUses(Done(r, items)) == OnlyCalls(items)
  {
    if items != [] {
      var front, x := items[..|items| - 1], items[|items| - 1];
      DoneCalls(r, front);
      if x.Spoken? {
        assert OnlyCalls(items) == OnlyCalls(front);
      } else {
        StepIsCall(r, front, x, Done(r, front), Talk(front));
      }
    }
  }

  lemma {:induction false} OnlyCallsConcat(a: seq<Item>, b: seq<Item>)
    ensures OnlyCalls(a + b) == OnlyCalls(a) + OnlyCalls(b)
  {
    if b == [] {
      assert a + b == a;
    } else {
      OnlyCallsConcat(a, b[..|b| - 1]);
      assert (a + b)[..|a + b| - 1] == a + b[..|b| - 1];
    }
  }

  lemma {:induction false} AssistantCalls(r: Rules, blocks: seq<AssistantBlock>)
    ensures OnlyCalls(AssistantItems(r, blocks)) == CallsOf(blocks)
  {
    if blocks != [] {
      var n := |blocks| - 1;
      AssistantCalls(r, blocks[..n]);
      OnlyCallsConcat(AssistantItems(r, blocks[..n]), AssistantItem(r, blocks[n]));
      assert AssistantItem(r, blocks[n]) != [] ==> AssistantItem(r, blocks[n])[..0] == [];
    }
  }

  lemma NoCalls(items: seq<Item>)
    requires forall i :: 0 <= i < |items| ==> !items[i].Called?
    ensures OnlyCalls(items) == []
  {
  }

  lemma {:induction false} UserHasNoCalls(r: Rules, blocks: seq<UserBlock>, launched: bool, turn: nat, flags: nat)
    ensures forall x :: x in UserItems(r, blocks, launched, turn, flags) ==> !x.Called?
  {
    if blocks != [] {
      UserHasNoCalls(r, blocks[..|blocks| - 1], launched, turn, flags);
    }
  }

  lemma LineCalls(r: Rules, line: Line, turn: nat)
    ensures OnlyCalls(LineItems(r, line, turn)) == if line.AssistantRecord? then CallsOf(line.blocks) else []
  {
    match line
    case AssistantRecord(blocks) => AssistantCalls(r, blocks);
    case UserRecord(false, Blocks(blocks), launched, answer) =>
      UserHasNoCalls(r, blocks, launched, turn, r.flags(blocks));
      NoCalls(LineItems(r, line, turn));
    case _ => NoCalls(LineItems(r, line, turn));
  }

  lemma {:induction false} ItemCalls(r: Rules, lines: seq<Line>)
    ensures OnlyCalls(Items(r, lines)) == CallsIn(lines)
  {
    if lines != [] {
      var n := |lines| - 1;
      ItemCalls(r, lines[..n]);
      LineCalls(r, lines[n], TurnNumber(lines[..n]));
      OnlyCallsConcat(Items(r, lines[..n]), LineItems(r, lines[n], TurnNumber(lines[..n])));
    }
  }

  /** The tool uses of a parse are the tool calls of its records: all of them, in order, with name, id, target and
      kind. */
  lemma ToolUsesAreCalls(r: Rules, lines: seq<Line>)
    requires r.transcriptNoise("")
    ensures ToolUses(PlainParse(r, lines)) == CallsIn(lines)
  {
    var items := Items(r, lines);
    ParseIsExact(r, lines);
    SpeechIsNoCall(Done(r, items), Talk(items));
    DoneCalls(r, items);
    ItemCalls(r, lines);
  }

  // ---------- The reader of user turns ----------

  function TurnOf(r: Rules, x: Item): UserTurn
    requires x.Written? || x.Chosen?
  {
    if x.Chosen? then UserTurn(x.turn, 0, x.text, ToolAnswer, 0)
    else UserTurn(x.turn, x.block, x.text, if r.steer(x.text) then Controller else UserOrigin.Human, x.flags)
  }

  function TurnsIn(r: Rules, items: seq<Item>): seq<UserTurn> {
    if items == [] then []
    else
      var x := items[|items| - 1];
      TurnsIn(r, items[..|items| - 1]) + if x.Written? || x.Chosen? then [TurnOf(r, x)] else []
  }

  /** The turns that are no task notifications. */
  function Proper(r: Rules, turns: seq<UserTurn>): seq<UserTurn> {
    if turns == [] then []
    else
      var t := turns[|turns| - 1];
      Proper(r, turns[..|turns| - 1]) + if t.origin == ToolAnswer || r.notice(t.text).None? then [t] else []
  }

  lemma {:induction false} ProperConcat(r: Rules, a: seq<UserTurn>, b: seq<UserTurn>)
    ensures Proper(r, a + b) == Proper(r, a) + Proper(r, b)
  {
    if b == [] {
      assert a + b == a;
    } else {
      ProperConcat(r, a, b[..|b| - 1]);
      assert (a + b)[..|a + b| - 1] == a + b[..|b| - 1];
    }
  }

  lemma {:induction false} TurnsInConcat(r: Rules, a: seq<Item>, b: seq<Item>)
    ensures TurnsIn(r, a + b) == TurnsIn(r, a) + TurnsIn(r, b)
  {
    if b == [] {
      assert a + b == a;
    } else {
      TurnsInConcat(r, a, b[..|b| - 1]);
      assert (a + b)[..|a + b| - 1] == a + b[..|b| - 1];
    }
  }

  lemma OneProper(r: Rules, t: UserTurn)
    ensures Proper(r, [t]) == if t.origin == ToolAnswer || r.notice(t.text).None? then [t] else []
  {
    assert [t][..0] == [];
  }

  lemma OneTurnIn(r: Rules, x: Item)
    ensures TurnsIn(r, [x]) == if x.Written? || x.Chosen? then [TurnOf(r, x)] else []
  {
    assert [x][..0] == [];
  }

  lemma TextIsTurn(r: Rules, text: string, turn: nat, block: nat, flags: nat)
    requires !Retained(r, "")
    ensures Proper(r, TextTurns(r, text, turn, block, flags)) == TurnsIn(r, TextItem(r, text, turn, block, flags))
  {
    var t := Trim(text);
    OneProper(r, UserTurn(turn, block, t, OriginOf(r, t), flags));
    OneTurnIn(r, Written(t, turn, block, flags));
    if r.notice(t).Some? {
      OneTurnIn(r, Noticed(r.notice(t).value));
    }
  }

  lemma BlockIsTurn(r: Rules, b: UserBlock, launched: bool, turn: nat, block: nat, flags: nat)
    requires !Retained(r, "")
    ensures Proper(r, if b.Write? then TextTurns(r, b.text, turn, block, flags) else [])
         == TurnsIn(r, UserItem(r, b, launched, turn, block, flags))
  {
    match b
    case Write(text) => TextIsTurn(r, text, turn, block, flags);
    case Result(text, isError, callId) => OneTurnIn(r, Returned(text, isError, callId));
    case SkipU =>
  }

  lemma {:induction false} BlocksAreTurns(r: Rules, blocks: seq<UserBlock>, launched: bool, turn: nat, flags: nat)
    requires !Retained(r, "")
    ensures Proper(r, BlockTurns(r, blocks, turn, flags)) == TurnsIn(r, UserItems(r, blocks, launched, turn, flags))
  {
    if blocks != [] {
      var n := |blocks| - 1;
      var last := if blocks[n].Write? then TextTurns(r, blocks[n].text, turn, n % 0x1_0000, flags) else [];
      BlocksAreTurns(r, blocks[..n], launched, turn, flags);
      BlockIsTurn(r, blocks[n], launched, turn, n % 0x1_0000, flags);
      ProperConcat(r, BlockTurns(r, blocks[..n], turn, flags), last);
      TurnsInConcat(r, UserItems(r, blocks[..n], launched, turn, flags),
                    UserItem(r, blocks[n], launched, turn, n % 0x1_0000, flags));
    }
  }

  lemma ChosenIsTurn(r: Rules, text: string, turn: nat)
    ensures Proper(r, [UserTurn(turn, 0, text, ToolAnswer, 0)]) == TurnsIn(r, [Chosen(text, turn)])
  {
    OneProper(r, UserTurn(turn, 0, text, ToolAnswer, 0));
    OneTurnIn(r, Chosen(text, turn));
  }

  lemma AnswerIsTurn(r: Rules, blocks: seq<UserBlock>, turn: nat, answer: Option<string>)
    ensures Proper(r, AnswerTurns(blocks, turn, answer)) == TurnsIn(r, AnswerItem(blocks, turn, answer))
  {
    if answer.Some? {
      ChosenIsTurn(r, answer.value, turn);
    }
  }

  lemma RecordIsTurns(r: Rules, line: Line, turn: nat)
    requires !Retained(r, "") && line.UserRecord? && !line.meta
    ensures Proper(r, RecordTurns(r, line, turn)) == TurnsIn(r, LineItems(r, line, turn))
  {
    match line.content
    case NoContent =>
    case Whole(text) => TextIsTurn(r, text, turn, 0, 0);
    case Blocks(blocks) =>
      var flags := r.flags(blocks);
      BlocksAreTurns(r, blocks, line.asyncLaunched, turn, flags);
      AnswerIsTurn(r, blocks, turn, line.answer);
      ProperConcat(r, BlockTurns(r, blocks, turn, flags), AnswerTurns(blocks, turn, line.answer));
      TurnsInConcat(r, UserItems(r, blocks, line.asyncLaunched, turn, flags), AnswerItem(blocks, turn, line.answer));
  }

  lemma {:induction false} AssistantHasNoTurns(r: Rules, blocks: seq<AssistantBlock>)
    ensures TurnsIn(r, AssistantItems(r, blocks)) == []
  {
    if blocks != [] {
      var n := |blocks| - 1;
      AssistantHasNoTurns(r, blocks[..n]);
      TurnsInConcat(r, AssistantItems(r, blocks[..n]), AssistantItem(r, blocks[n]));
      if AssistantItem(r, blocks[n]) != [] {
        OneTurnIn(r, AssistantItem(r, blocks[n])[0]);
      }
    }
  }

  lemma OtherLineHasNoTurns(r: Rules, line: Line, turn: nat)
    requires !(line.UserRecord? && !line.meta)
    ensures TurnsIn(r, LineItems(r, line, turn)) == []
  {
    match line
    case AssistantRecord(blocks) => AssistantHasNoTurns(r, blocks);
    case ApiError(message) => OneTurnIn(r, Failed(message));
    case _ =>
  }

  lemma LineIsTurns(r: Rules, line: Line, turns: seq<UserTurn>, items: seq<Item>, turn: nat)
    requires !Retained(r, "") && Proper(r, turns) == TurnsIn(r, items)
    ensures Proper(r, turns + if Counts(line) then RecordTurns(r, line, turn) else [])
         == TurnsIn(r, items + LineItems(r, line, turn))
  {
    TurnsInConcat(r, items, LineItems(r, line, turn));
    if Counts(line) {
      RecordIsTurns(r, line, turn);
      ProperConcat(r, turns, RecordTurns(r, line, turn));
    } else {
      OtherLineHasNoTurns(r, line, turn);
      assert turns + [] == turns;
    }
  }

  lemma {:induction false} BothCountTurns(lines: seq<Line>)
    ensures TurnAfter(lines) == TurnNumber(lines)
  {
    if lines != [] {
      var front, line := lines[..|lines| - 1], lines[|lines| - 1];
      BothCountTurns(front);
      TurnOnward(front, line);
      assert lines == front + [line];
    }
  }

  /** The reader of user turns reads the same: its turns, task notifications left out, are the user texts and answers
      of the records, each with its turn number, block, origin and flags. */
  lemma {:induction false} TurnsAreItems(r: Rules, lines: seq<Line>)
    requires !Retained(r, "")
    ensures Proper(r, Turns(r, lines)) == TurnsIn(r, Items(r, lines))
  {
    if lines != [] {
      var front, line := lines[..|lines| - 1], lines[|lines| - 1];
      TurnsAreItems(r, front);
      BothCountTurns(front);
      LineIsTurns(r, line, Turns(r, front), Items(r, front), TurnNumber(front));
    }
  }
}
