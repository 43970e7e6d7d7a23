/** The two readers of a Claude transcript: the step parser, which compacts aged steps while it reads,
    and the reader of user turns.

    A line stands for one JSON record with the fields the readers look up already extracted. What the
    readers ask about a text is a parameter, `Rules`. */
module Transcript {
  import opened GateTypes
  import opened StepText

  const USER_CHARS := 262144
  const ASSISTANT_CHARS := 65536
  const RESULT_CHARS := 32768
  const FULL_FIDELITY_STEPS := 512
  const AGED_NARRATIVE_CHARS := 2048
  const AGED_RECEIPT_CHARS := 512

  // ---------- Records ----------

  datatype ToolKind = Inspect | Search | Execute | Modify | Delegate | Other

  datatype AssistantBlock =
    | Say(text: string)
    | Call(name: string, id: Option<string>, target: Option<string>, kind: ToolKind)
    | SkipA

  datatype UserBlock =
    | Write(text: string)
    | Result(text: string, isError: bool, callId: Option<string>)
    | SkipU

  datatype UserContent = NoContent | Whole(text: string) | Blocks(blocks: seq<UserBlock>)

  datatype Line =
    | Malformed
    | OtherRecord
    | ApiError(message: string)
    | AssistantRecord(blocks: seq<AssistantBlock>)
    | UserRecord(meta: bool, content: UserContent, asyncLaunched: bool, answer: Option<string>)

  datatype Notice = Notice(correlation: string, result: string, isError: bool)

  /** `steer`: the text is a health steer; `noise` and `marked`: it is context noise or starts with a
      context marker; `transcriptNoise`: assistant text to drop; `notice`: the text is a well-formed
      task notification; `flags`: the context flags of a whole turn. */
  datatype Rules = Rules(steer: string -> bool, noise: string -> bool, marked: string -> bool,
                         transcriptNoise: string -> bool, notice: string -> Option<Notice>,
                         flags: seq<UserBlock> -> nat)

  predicate Retained(r: Rules, text: string) {
    r.steer(text) || (!r.marked(text) && !r.noise(text))
  }

  // ---------- Steps ----------

  datatype StepRole = User | Assistant | ToolUse | ToolResult | DelegateResult

  datatype UserOrigin = Human | Controller | ToolAnswer

  datatype Step = Step(index: nat, role: StepRole, text: string, kind: ToolKind, correlation: Option<string>,
                       target: Option<string>, isError: bool, turn: nat, block: nat, origin: UserOrigin, flags: nat)

  function NewStep(index: nat, role: StepRole, text: string): Step {
    Step(index, role, text, Other, None, None, false, index, 0, Human, 0)
  }

  function OriginOf(r: Rules, text: string): UserOrigin {
    if r.steer(text) then Controller else Human
  }

  function UserStep(r: Rules, index: nat, text: string, turn: nat, block: nat, flags: nat): Step {
    NewStep(index, User, text).(turn := turn, block := block, origin := OriginOf(r, text), flags := flags)
  }

  /** What the parser carries from line to line. */
  datatype Parse = Parse(steps: seq<Step>, pending: Option<string>, turn: nat,
                         targets: map<string, string>, kinds: map<string, ToolKind>)

  const Nothing := Parse([], None, 0, map[], map[])

  function Flushed(p: Parse): Parse {
    if p.pending.None? then p
    else p.(steps := p.steps + [NewStep(|p.steps|, Assistant, p.pending.value)], pending := None)
  }

  /** Only user steps belong to a turn of their own; any other is given its position. */
  function Placed(step: Step, index: nat): Step {
    step.(index := index, turn := if step.role == User then step.turn else index)
  }

  /** A step is pushed only after the pending assistant text; its index is its position. */
  function Pushed(p: Parse, step: Step): Parse {
    var q := Flushed(p);
    q.(steps := q.steps + [Placed(step, |q.steps|)])
  }

  function Joined(pending: Option<string>, text: string): Option<string> {
    if pending.Some? then Some(pending.value + "\n" + text) else Some(text)
  }

  function Said(pending: Option<string>, text: string): Option<string> {
    var used := if pending.Some? then |pending.value| else 0;
    if used >= ASSISTANT_CHARS then pending
    else Some(Truncate(Joined(pending, Truncate(text, ASSISTANT_CHARS - used)).value, ASSISTANT_CHARS))
  }

  function NextTurn(turn: nat): nat {
    (turn + 1) % 0x1_0000_0000
  }

  // ---------- The parse, line by line ----------

  function CallStep(b: AssistantBlock): Step
    requires b.Call?
  {
    NewStep(0, ToolUse, b.name).(kind := b.kind, correlation := b.id, target := b.target)
  }

  function AssistantBlockParsed(r: Rules, p: Parse, b: AssistantBlock): Parse {
    match b
    case Say(text) => if r.transcriptNoise(Trim(text)) then p else p.(pending := Said(p.pending, Trim(text)))
    case Call(_, id, target, kind) =>
      Pushed(p, CallStep(b)).(
        kinds := if id.Some? then p.kinds[id.value := kind] else p.kinds,
        targets := if kind == Delegate && id.Some? && target.Some? then p.targets[id.value := target.value] else p.targets)
    case SkipA => p
  }

  function NoticeStep(p: Parse, n: Notice): Step {
    NewStep(0, DelegateResult, Truncate(n.result, ASSISTANT_CHARS)).(
      kind := Delegate, correlation := Some(n.correlation),
      target := if n.correlation in p.targets then Some(p.targets[n.correlation]) else None,
      isError := n.isError)
  }

  function ResultStep(p: Parse, b: UserBlock): Step
    requires b.Result?
  {
    var kind := if b.callId.Some? && b.callId.value in p.kinds then p.kinds[b.callId.value] else Other;
    NewStep(0, if kind == Delegate then DelegateResult else ToolResult, b.text).(
      kind := kind, correlation := b.callId, isError := b.isError)
  }

  /** A user text: a task notification, a turn to keep, or nothing. */
  function TextParsed(r: Rules, p: Parse, text: string, turn: nat, block: nat, flags: nat): Parse {
    var t := Trim(text);
    if r.notice(t).Some? then Pushed(p, NoticeStep(p, r.notice(t).value))
    else if Retained(r, t) then Pushed(p, UserStep(r, 0, Truncate(t, USER_CHARS), turn, block, flags))
    else p
  }

  function UserBlockParsed(r: Rules, p: Parse, b: UserBlock, turn: nat, block: nat, flags: nat, asyncLaunched: bool): Parse {
    match b
    case Write(text) => TextParsed(r, p, text, turn, block, flags)
    case Result(_, _, _) => if asyncLaunched then p else Pushed(p, ResultStep(p, b))
    case SkipU => p
  }

  function AssistantParsed(r: Rules, p: Parse, blocks: seq<AssistantBlock>): Parse {
    if blocks == [] then p
    else AssistantBlockParsed(r, AssistantParsed(r, p, blocks[..|blocks| - 1]), blocks[|blocks| - 1])
  }

  function BlocksParsed(r: Rules, p: Parse, blocks: seq<UserBlock>, turn: nat, flags: nat, asyncLaunched: bool): Parse {
    if blocks == [] then p
    else
      var n := |blocks| - 1;
      UserBlockParsed(r, BlocksParsed(r, p, blocks[..n], turn, flags, asyncLaunched), blocks[n], turn, n % 0x1_0000, flags, asyncLaunched)
  }

  predicate HasResult(blocks: seq<UserBlock>) {
    exists i :: 0 <= i < |blocks| && blocks[i].Result?
  }

  function AnswerParsed(r: Rules, p: Parse, blocks: seq<UserBlock>, turn: nat, answer: Option<string>): Parse {
    if HasResult(blocks) && answer.Some?
    then Pushed(p, UserStep(r, 0, Truncate(answer.value, USER_CHARS), turn, 0, 0).(origin := ToolAnswer))
    else p
  }

  function UserParsed(r: Rules, p: Parse, line: Line): Parse
    requires line.UserRecord?
  {
    var q := p.(turn := NextTurn(p.turn));
    match line.content
    case NoContent => q
    case Whole(text) => TextParsed(r, q, text, p.turn, 0, 0)
    case Blocks(blocks) =>
      AnswerParsed(r, BlocksParsed(r, q, blocks, p.turn, r.flags(blocks), line.asyncLaunched), blocks, p.turn, line.answer)
  }

  function ErrorStep(message: string): Step {
    NewStep(0, ToolResult, Truncate(message, RESULT_CHARS)).(isError := true)
  }

  function LineParsed(r: Rules, p: Parse, line: Line): Parse {
    match line
    case Malformed => p
    case OtherRecord => p
    case ApiError(message) => Pushed(p, ErrorStep(message))
    case AssistantRecord(blocks) => AssistantParsed(r, p, blocks)
    case UserRecord(meta, _, _, _) => if meta then p else UserParsed(r, p, line)
  }

  function LinesParsed(r: Rules, lines: seq<Line>): Parse {
    if lines == [] then Nothing else LineParsed(r, LinesParsed(r, lines[..|lines| - 1]), lines[|lines| - 1])
  }

  /** The plain parse: every step in full. */
  function PlainParse(r: Rules, lines: seq<Line>): seq<Step> {
    Flushed(LinesParsed(r, lines)).steps
  }

  // ---------- Compaction ----------

  function Compacted(step: Step): Step {
    match step.role
    case User => step
    case Assistant => Excerpted(step, AGED_NARRATIVE_CHARS)
    case DelegateResult => Excerpted(step, AGED_NARRATIVE_CHARS)
    case ToolResult => Excerpted(step, AGED_RECEIPT_CHARS)
    case ToolUse => Excerpted(step, AGED_RECEIPT_CHARS)
  }

  function Excerpted(step: Step, limit: nat): Step {
    if |step.text| > limit then step.(text := SemanticExcerpt(step.text, limit)) else step
  }

  /** The first `k` steps compacted, the rest in full. */
  function CompactedUpTo(steps: seq<Step>, k: nat): seq<Step> {
    seq(|steps|, i requires 0 <= i < |steps| => if i < k then Compacted(steps[i]) else steps[i])
  }

  /** Records after which the parser goes straight to the next line. */
  predicate SkipsCompaction(line: Line) {
    line.Malformed? || line.ApiError? || (line.UserRecord? && line.meta)
  }

  function StableEnd(count: nat): nat {
    if count > FULL_FIDELITY_STEPS then count - FULL_FIDELITY_STEPS else 0
  }

  /** How many steps have been compacted once these lines are read. */
  function CompactedUntil(r: Rules, lines: seq<Line>): nat {
    if lines == [] then 0
    else if SkipsCompaction(lines[|lines| - 1]) then CompactedUntil(r, lines[..|lines| - 1])
    else StableEnd(|LinesParsed(r, lines).steps|)
  }

  // ---------- The user-turn reader ----------

  datatype UserTurn = UserTurn(turn: nat, block: nat, text: string, origin: UserOrigin, flags: nat)

  function TextTurns(r: Rules, text: string, turn: nat, block: nat, flags: nat): seq<UserTurn> {
    var t := Trim(text);
    if t != [] && Retained(r, t) then [UserTurn(turn, block, t, OriginOf(r, t), flags)] else []
  }

  function BlockTurns(r: Rules, blocks: seq<UserBlock>, turn: nat, flags: nat): seq<UserTurn> {
    if blocks == [] then []
    else
      var n := |blocks| - 1;
      BlockTurns(r, blocks[..n], turn, flags)
      + if blocks[n].Write? then TextTurns(r, blocks[n].text, turn, n % 0x1_0000, flags) else []
  }

  function AnswerTurns(blocks: seq<UserBlock>, turn: nat, answer: Option<string>): seq<UserTurn> {
    if HasResult(blocks) && answer.Some? then [UserTurn(turn, 0, answer.value, ToolAnswer, 0)] else []
  }

  function RecordTurns(r: Rules, line: Line, turn: nat): seq<UserTurn>
    requires line.UserRecord?
  {
    match line.content
    case NoContent => []
    case Whole(text) => TextTurns(r, text, turn, 0, 0)
    case Blocks(blocks) => BlockTurns(r, blocks, turn, r.flags(blocks)) + AnswerTurns(blocks, turn, line.answer)
  }

  predicate Counts(line: Line) {
    line.UserRecord? && !line.meta
  }

  function TurnAfter(lines: seq<Line>): nat {
    if lines == [] then 0
    else if Counts(lines[|lines| - 1]) then NextTurn(TurnAfter(lines[..|lines| - 1]))
    else TurnAfter(lines[..|lines| - 1])
  }

  function Turns(r: Rules, lines: seq<Line>): seq<UserTurn> {
    if lines == [] then []
    else
      var front := lines[..|lines| - 1];
      Turns(r, front)
      + if Counts(lines[|lines| - 1]) then RecordTurns(r, lines[|lines| - 1], TurnAfter(front)) else []
  }
}
