/** Replaying an Anthropic history to an OpenAI chat provider: assistant text after a tool call has no
    place in the same message and is deferred until the tool results have been replayed. */
module Conversion {
  import opened Prelude
  import opened ThinkTags

  datatype ReplayMode = Disabled | ThinkTagged | ReasoningContent

  datatype Block =
    | Text(text: string)
    | Thinking(thinking: string)
    | RedactedThinking
    | ToolUse(id: Option<string>, name: string, arguments: string)
    | ToolResult(toolUseId: Option<string>, content: string)
    | Image
    | ServerBlock(kind: string)
    | OtherBlock

  datatype Role = User | Assistant

  /** A message holds a string, a list of blocks, or something else that is shown as a string. */
  datatype Content = Plain(text: string) | Blocks(blocks: seq<Block>) | Shown(text: string)

  datatype Message = Message(role: Role, content: Content, reasoning: Option<string>)

  datatype ToolCall = ToolCall(id: Option<string>, name: string, arguments: string)

  /** A message of the OpenAI transcript. */
  datatype Out =
    | AssistantMsg(content: string, calls: seq<ToolCall>, reasoning: Option<string>)
    | UserMsg(content: string)
    | ToolMsg(toolCallId: Option<string>, content: string)

  datatype ConversionError = AssistantImage | ServerTool(kind: string) | UserImage

  datatype Result<+T> = Ok(value: T) | Refused(error: ConversionError)

  datatype Pending = Pending(remaining: set<string>, deferred: seq<Block>, reasoning: Option<string>)

  function Clean(reasoning: Option<string>): Option<string> {
    if reasoning == Some("") then None else reasoning
  }

  // ---------------------------------------------------------------------------------------------
  // Assistant messages
  // ---------------------------------------------------------------------------------------------

  function ErrorOf(b: Block): Option<ConversionError> {
    match b
    case Image => Some(AssistantImage)
    case ServerBlock(kind) => Some(ServerTool(kind))
    case _ => None
  }

  /** The first block of an assistant message that cannot be converted. */
  function FirstError(blocks: seq<Block>): Option<ConversionError> {
    if blocks == [] then None
    else
      var earlier := FirstError(blocks[..|blocks| - 1]);
      if earlier.Some? then earlier else ErrorOf(blocks[|blocks| - 1])
  }

  function PartOf(b: Block, mode: ReplayMode): seq<string> {
    match b
    case Text(text) => [text]
    case Thinking(thinking) => if mode == ThinkTagged then [ThinkTagContent(thinking)] else []
    case _ => []
  }

  function Parts(blocks: seq<Block>, mode: ReplayMode): seq<string> {
    if blocks == [] then [] else Parts(blocks[..|blocks| - 1], mode) + PartOf(blocks[|blocks| - 1], mode)
  }

  function Thoughts(blocks: seq<Block>): seq<string> {
    if blocks == [] then []
    else
      var last := blocks[|blocks| - 1];
      Thoughts(blocks[..|blocks| - 1]) + if last.Thinking? then [last.thinking] else []
  }

  function CallsIn(blocks: seq<Block>): seq<ToolCall> {
    if blocks == [] then []
    else
      var last := blocks[|blocks| - 1];
      CallsIn(blocks[..|blocks| - 1]) + if last.ToolUse? then [ToolCall(last.id, last.name, last.arguments)] else []
  }

  function OthersIn(blocks: seq<Block>): seq<Block> {
    if blocks == [] then []
    else
      var last := blocks[|blocks| - 1];
      OthersIn(blocks[..|blocks| - 1]) + if last.ToolUse? then [] else [last]
  }

  function ReplayedReasoning(blocks: seq<Block>, reasoning: Option<string>, mode: ReplayMode): Option<string> {
    if mode != ReasoningContent then None
    else if reasoning.Some? then Clean(reasoning)
    else Clean(Some(Join(Thoughts(blocks), "\n")))
  }

  function AssistantMessage(blocks: seq<Block>, reasoning: Option<string>, mode: ReplayMode): Out {
    var content := Join(Parts(blocks, mode), "\n\n");
    AssistantMsg(
      if content == "" && CallsIn(blocks) == [] then " " else content,
      CallsIn(blocks),
      ReplayedReasoning(blocks, reasoning, mode))
  }

  function FirstToolUse(blocks: seq<Block>): (k: nat)
    ensures k <= |blocks| && (k < |blocks| ==> blocks[k].ToolUse?)
    ensures forall i | 0 <= i < k :: !blocks[i].ToolUse?
  {
    if blocks == [] || blocks[0].ToolUse? then 0
    else FirstToolUse(blocks[1..]) + 1
  }

  predicate HasTools(blocks: seq<Block>) {
    FirstToolUse(blocks) < |blocks|
  }

  /** The tool-use ids whose results are awaited: those that are not blank. */
  function AwaitedIds(calls: seq<ToolCall>): set<string> {
    set c | c in calls && c.id.Some? && Strip(c.id.value) != "" :: c.id.value
  }

  /** The message with the tool calls, holding the content before the first of them. */
  function CallMessage(blocks: seq<Block>, reasoning: Option<string>, mode: ReplayMode): Out {
    var pre := blocks[..FirstToolUse(blocks)];
    if pre == [] then AssistantMsg("", CallsIn(blocks), if mode == ReasoningContent then reasoning else None)
    else
      var m := AssistantMessage(pre, reasoning, mode);
      AssistantMsg(if m.content == " " then "" else m.content, CallsIn(blocks), m.reasoning)
  }

  /** What stands after the first tool call waits for the results. */
  function PendingOf(blocks: seq<Block>, reasoning: Option<string>): Option<Pending> {
    var deferred := OthersIn(blocks[FirstToolUse(blocks)..]);
    if deferred == [] then None else Some(Pending(AwaitedIds(CallsIn(blocks)), deferred, reasoning))
  }

  function Deferred(p: Option<Pending>, mode: ReplayMode): seq<Out> {
    if p.None? || p.value.deferred == [] then [] else [AssistantMessage(p.value.deferred, p.value.reasoning, mode)]
  }

  // ---------------------------------------------------------------------------------------------
  // User messages
  // ---------------------------------------------------------------------------------------------

  /** A user message in conversion: what has been put out, text held back, ids still awaited, and how
      often the deferred message has been put out. */
  datatype Turn = Turn(out: seq<Out>, texts: seq<string>, remaining: set<string>, emitted: nat)

  function Flush(t: Turn): Turn {
    if t.texts == [] then t else t.(out := t.out + [UserMsg(Join(t.texts, "\n"))], texts := [])
  }

  function IdText(id: Option<string>): string {
    if id.Some? then id.value else ""
  }

  function TakeBlock(t: Turn, b: Block, deferred: seq<Out>): Turn {
    match b
    case Text(text) => t.(texts := t.texts + [text])
    case ToolResult(id, content) =>
      var f := Flush(t);
      var remaining := f.remaining - {IdText(id)};
      Turn(f.out + [ToolMsg(id, content)] + if remaining == {} then deferred else [], f.texts, remaining,
           if remaining == {} then f.emitted + 1 else f.emitted)
    case _ => t
  }

  function TakeBlocks(t: Turn, blocks: seq<Block>, deferred: seq<Out>): Turn {
    if blocks == [] then t
    else TakeBlock(TakeBlocks(t, blocks[..|blocks| - 1], deferred), blocks[|blocks| - 1], deferred)
  }

  predicate HasImage(blocks: seq<Block>) {
    exists b | b in blocks :: b.Image?
  }

  function UserTurn(blocks: seq<Block>, remaining: set<string>, deferred: seq<Out>): Turn {
    Flush(TakeBlocks(Turn([], [], remaining, 0), blocks, deferred))
  }

  /** A user message with nothing deferred. */
  function UserMessage(blocks: seq<Block>): seq<Out> {
    UserTurn(blocks, {}, []).out
  }

  // ---------------------------------------------------------------------------------------------
  // The whole history
  // ---------------------------------------------------------------------------------------------

  function PlainMessage(m: Message, mode: ReplayMode): Out
    requires !m.content.Blocks?
  {
    var text, reasoning := m.content.text, Clean(m.reasoning);
    if m.role == User then UserMsg(text)
    else if m.content.Shown? || reasoning.None? || mode == Disabled then AssistantMsg(text, [], None)
    else if mode == ReasoningContent then AssistantMsg(text, [], reasoning)
    else AssistantMsg(Join([ThinkTagContent(reasoning.value)] + if text == "" then [] else [text], "\n\n"), [], None)
  }

  /** One message: what is pending after it and what it adds to the transcript. */
  function Step(p: Option<Pending>, m: Message, mode: ReplayMode): Result<(Option<Pending>, seq<Out>)> {
    if !m.content.Blocks? then
      if m.role == User then Ok((None, Deferred(p, mode) + [PlainMessage(m, mode)]))
      else Ok((p, [PlainMessage(m, mode)]))
    else
      var blocks, reasoning := m.content.blocks, Clean(m.reasoning);
      if m.role == Assistant then
        if FirstError(blocks).Some? then Refused(FirstError(blocks).value)
        else if HasTools(blocks) then
          Ok((PendingOf(blocks, reasoning), Deferred(p, mode) + [CallMessage(blocks, reasoning, mode)]))
        else Ok((None, Deferred(p, mode) + [AssistantMessage(blocks, reasoning, mode)]))
      else if HasImage(blocks) then Refused(UserImage)
      else if p.None? || p.value.remaining == {} then Ok((None, Deferred(p, mode) + UserMessage(blocks)))
      else
        var t := UserTurn(blocks, p.value.remaining, Deferred(p, mode));
        Ok((if t.emitted > 0 then None else Some(p.value.(remaining := t.remaining)), t.out))
  }

  function ConvertFrom(p: Option<Pending>, messages: seq<Message>, mode: ReplayMode): Result<seq<Out>>
    decreases messages
  {
    if messages == [] then Ok(Deferred(p, mode))
    else
      var r := Step(p, messages[0], mode);
      if r.Refused? then Refused(r.error)
      else
        var rest := ConvertFrom(r.value.0, messages[1..], mode);
        if rest.Refused? then rest else Ok(r.value.1 + rest.value)
  }

  function Convert(messages: seq<Message>, mode: ReplayMode): Result<seq<Out>> {
    ConvertFrom(None, messages, mode)
  }

  // ---------------------------------------------------------------------------------------------
  // The converter
  // ---------------------------------------------------------------------------------------------

  class PendingAfterTools {
    var remainingToolIds: set<string>
    const deferredBlocks: seq<Block>
    const topLevelReasoning: Option<string>
    var deferredEmitted: bool

    ghost function View(): Pending
      reads this
    {
      Pending(remainingToolIds, deferredBlocks, topLevelReasoning)
    }

    constructor (ids: set<string>, blocks: seq<Block>, reasoning: Option<string>)
      ensures View() == Pending(ids, blocks, reasoning) && !deferredEmitted
    {
      remainingToolIds, deferredBlocks, topLevelReasoning, deferredEmitted := ids, blocks, reasoning, false;
    }

    predicate NeedsDeferred()
      reads this
    {
      deferredBlocks != [] && !deferredEmitted
    }
  }

  lemma NextBlock(blocks: seq<Block>, k: nat, mode: ReplayMode)
    requires k < |blocks|
    ensures Parts(blocks[..k + 1], mode) == Parts(blocks[..k], mode) + PartOf(blocks[k], mode)
    ensures Thoughts(blocks[..k + 1]) == Thoughts(blocks[..k]) + if blocks[k].Thinking? then [blocks[k].thinking] else []
    ensures CallsIn(blocks[..k + 1]) == CallsIn(blocks[..k])
            + if blocks[k].ToolUse? then [ToolCall(blocks[k].id, blocks[k].name, blocks[k].arguments)] else []
  {
    assert blocks[..k + 1][..k] == blocks[..k];
  }

  method ConvertAssistantMessage(blocks: seq<Block>, reasoning: Option<string>, mode: ReplayMode) returns (out: Out)
    ensures out == AssistantMessage(blocks, reasoning, mode)
  {
    var contentParts: seq<string>, thinkingParts: seq<string>, toolCalls: seq<ToolCall> := [], [], [];
    for k := 0 to |blocks|
      invariant contentParts == Parts(blocks[..k], mode)
      invariant mode == ReasoningContent && reasoning.None? ==> thinkingParts == Thoughts(blocks[..k])
      invariant toolCalls == CallsIn(blocks[..k])
    {
      NextBlock(blocks, k, mode);
      match blocks[k] {
        case Text(text) => contentParts := contentParts + [text];
        case Thinking(thinking) =>
          if mode == ThinkTagged {
            contentParts := contentParts + [ThinkTagContent(thinking)];
          } else if mode == ReasoningContent && reasoning.None? {
            thinkingParts := thinkingParts + [thinking];
          }
        case ToolUse(id, name, arguments) => toolCalls := toolCalls + [ToolCall(id, name, arguments)];
        case _ =>
      }
    }
    assert blocks[..|blocks|] == blocks;
    var content := Join(contentParts, "\n\n");
    if content == "" && toolCalls == [] {
      content := " ";
    }
    var replay := None;
    if mode == ReasoningContent {
      replay := Clean(if reasoning.Some? then reasoning else Some(Join(thinkingParts, "\n")));
    }
    out := AssistantMsg(content, toolCalls, replay);
  }

  /** The deferred text of a pending object. */
  method DeferredPostToolToMessages(pending: PendingAfterTools, mode: ReplayMode) returns (out: seq<Out>)
    ensures out == Deferred(Some(pending.View()), mode)
  {
    if pending.deferredBlocks == [] {
      return [];
    }
    var m := ConvertAssistantMessage(pending.deferredBlocks, pending.topLevelReasoning, mode);
    return [m];
  }

  lemma TakeNext(start: Turn, blocks: seq<Block>, k: nat, deferred: seq<Out>)
    requires k < |blocks|
    ensures TakeBlocks(start, blocks[..k + 1], deferred) == TakeBlock(TakeBlocks(start, blocks[..k], deferred), blocks[k], deferred)
  {
    assert blocks[..k + 1][..k] == blocks[..k];
  }

  method ConvertUserMessage(blocks: seq<Block>) returns (r: Result<seq<Out>>)
    ensures r == if HasImage(blocks) then Refused(UserImage) else Ok(UserMessage(blocks))
  {
    var result: seq<Out>, textParts: seq<string> := [], [];
    for k := 0 to |blocks|
      invariant forall i | 0 <= i < k :: !blocks[i].Image?
      invariant var t := TakeBlocks(Turn([], [], {}, 0), blocks[..k], []); t.out == result && t.texts == textParts && t.remaining == {}
    {
      assert blocks[..k + 1][..k] == blocks[..k];
      match blocks[k] {
        case Text(text) => textParts := textParts + [text];
        case Image =>
          assert blocks[k] in blocks;
          return Refused(UserImage);
        case ToolResult(id, content) =>
          if textParts != [] {
            result := result + [UserMsg(Join(textParts, "\n"))];
            textParts := [];
          }
          assert result + [ToolMsg(id, content)] + [] == result + [ToolMsg(id, content)];
          assert {} - {IdText(id)} == {};
          result := result + [ToolMsg(id, content)];
        case _ =>
      }
    }
    assert blocks[..|blocks|] == blocks;
    if textParts != [] {
      result := result + [UserMsg(Join(textParts, "\n"))];
    }
    return Ok(result);
  }

  /** Emits the deferred text at each tool result that leaves no awaited id. */
  method ConvertUserMessageWithInjection(blocks: seq<Block>, pending: PendingAfterTools, mode: ReplayMode)
    returns (r: Result<seq<Out>>, cleared: bool)
    requires pending.NeedsDeferred() && pending.remainingToolIds != {}
    modifies pending
    ensures r.Refused? <==> HasImage(blocks)
    ensures r.Refused? ==> r.error == UserImage
    ensures r.Ok? ==> var t := UserTurn(blocks, old(pending.remainingToolIds), Deferred(Some(old(pending.View())), mode));
              && r.value == t.out && cleared == (t.emitted > 0)
              && pending.remainingToolIds == t.remaining && pending.deferredEmitted == cleared
  {
    var result: seq<Out>, textParts: seq<string> := [], [];
    cleared := false;
    ghost var deferred := Deferred(Some(pending.View()), mode);
    ghost var start := Turn([], [], pending.remainingToolIds, 0);
    ghost var t := start;
    for k := 0 to |blocks|
      invariant forall i | 0 <= i < k :: !blocks[i].Image?
      invariant Deferred(Some(pending.View()), mode) == deferred
      invariant t == TakeBlocks(start, blocks[..k], deferred)
      invariant t == Turn(result, textParts, pending.remainingToolIds, t.emitted)
      invariant cleared == pending.deferredEmitted == (t.emitted > 0)
    {
      TakeNext(start, blocks, k, deferred);
      t := TakeBlock(t, blocks[k], deferred);
      match blocks[k] {
        case Text(text) => textParts := textParts + [text];
        case Image =>
          assert blocks[k] in blocks;
          return Refused(UserImage), false;
        case ToolResult(id, content) =>
          if textParts != [] {
            result := result + [UserMsg(Join(textParts, "\n"))];
            textParts := [];
          }
          result := result + [ToolMsg(id, content)];
          pending.remainingToolIds := pending.remainingToolIds - {IdText(id)};
          if pending.remainingToolIds == {} {
            var emitted := DeferredPostToolToMessages(pending, mode);
            result := result + emitted;
            pending.deferredEmitted := true;
            cleared := true;
          } else {
            assert result + [] == result;
          }
        case _ =>
      }
    }
    assert blocks[..|blocks|] == blocks;
    if textParts != [] {
      result := result + [UserMsg(Join(textParts, "\n"))];
    }
    return Ok(result), cleared;
  }

  method ConvertAssistantMessageWithSplit(blocks: seq<Block>, reasoning: Option<string>, mode: ReplayMode)
    returns (out: Out, pending: PendingAfterTools?)
    requires HasTools(blocks) && Clean(reasoning) == reasoning
    ensures out == CallMessage(blocks, reasoning, mode)
    ensures pending == null <==> PendingOf(blocks, reasoning) == None
    ensures pending != null ==> fresh(pending) && pending.NeedsDeferred() && Some(pending.View()) == PendingOf(blocks, reasoning)
  {
    var first := FirstToolUse(blocks);
    var pre, toolCalls := blocks[..first], CallsIn(blocks);
    if pre == [] {
      out := AssistantMsg("", toolCalls, if mode == ReasoningContent then reasoning else None);
    } else {
      out := ConvertAssistantMessage(pre, reasoning, mode);
      out := AssistantMsg(if out.content == " " then "" else out.content, toolCalls, out.reasoning);
    }
    pending := null;
    var deferred := OthersIn(blocks[first..]);
    if deferred != [] {
      pending := new PendingAfterTools(AwaitedIds(toolCalls), deferred, reasoning);
    }
  }

  ghost function ViewOf(pending: PendingAfterTools?): Option<Pending>
    reads pending
  {
    if pending == null then None else Some(pending.View())
  }

  /** One message of the loop of convert_messages. */
  method ConvertOne(pending: PendingAfterTools?, m: Message, mode: ReplayMode)
    returns (r: Result<seq<Out>>, after: PendingAfterTools?)
    requires pending != null ==> pending.NeedsDeferred()
    modifies pending
    ensures after == pending || after == null || fresh(after)
    ensures after != null ==> after.NeedsDeferred()
    ensures var s := Step(old(ViewOf(pending)), m, mode);
            r == (if s.Refused? then Refused(s.error) else Ok(s.value.1)) && (s.Ok? ==> ViewOf(after) == s.value.0)
  {
    var reasoning := Clean(m.reasoning);
    var flushed: seq<Out> := [];
    if pending != null {
      flushed := DeferredPostToolToMessages(pending, mode);
    }
    if !m.content.Blocks? {
      if m.role == User {
        return Ok(flushed + [PlainMessage(m, mode)]), null;
      }
      return Ok([PlainMessage(m, mode)]), pending;
    }
    var blocks := m.content.blocks;
    if m.role == Assistant {
      if FirstError(blocks).Some? {
        return Refused(FirstError(blocks).value), null;
      }
      if HasTools(blocks) {
        var out, next := ConvertAssistantMessageWithSplit(blocks, reasoning, mode);
        return Ok(flushed + [out]), next;
      }
      var out := ConvertAssistantMessage(blocks, reasoning, mode);
      return Ok(flushed + [out]), null;
    }
    if pending == null || pending.remainingToolIds == {} {
      var user := ConvertUserMessage(blocks);
      return if user.Refused? then user else Ok(flushed + user.value), null;
    }
    var pieces, cleared := ConvertUserMessageWithInjection(blocks, pending, mode);
    if pieces.Refused? || cleared {
      return pieces, null;
    }
    return pieces, pending;
  }

  lemma ConvertNext(p: Option<Pending>, messages: seq<Message>, k: nat, mode: ReplayMode)
    requires k < |messages|
    ensures var r := Step(p, messages[k], mode);
            ConvertFrom(p, messages[k..], mode) ==
            if r.Refused? then Refused(r.error)
            else
              var rest := ConvertFrom(r.value.0, messages[k + 1..], mode);
              if rest.Refused? then rest else Ok(r.value.1 + rest.value)
  {
    assert messages[k..][0] == messages[k] && messages[k..][1..] == messages[k + 1..];
  }

  /** The transcript so far and the transcript to come. */
  function Prefixed(done: seq<Out>, rest: Result<seq<Out>>): Result<seq<Out>> {
    if rest.Refused? then rest else Ok(done + rest.value)
  }

  lemma PrefixedTwice(done: seq<Out>, one: seq<Out>, rest: Result<seq<Out>>)
    ensures Prefixed(done + one, rest) == Prefixed(done, Prefixed(one, rest))
  {
    if rest.Ok? {
      assert done + one + rest.value == done + (one + rest.value);
    }
  }

  lemma PrefixedByNothing(rest: Result<seq<Out>>)
    ensures Prefixed([], rest) == rest
  {
    if rest.Ok? {
      assert [] + rest.value == rest.value;
    }
  }

  method ConvertMessages(messages: seq<Message>, mode: ReplayMode) returns (r: Result<seq<Out>>)
    ensures r == Convert(messages, mode)
  {
    var result: seq<Out> := [];
    var pending: PendingAfterTools? := null;
    PrefixedByNothing(Convert(messages, mode));
    assert messages[0..] == messages;
    for k := 0 to |messages|
      invariant pending != null ==> fresh(pending) && pending.NeedsDeferred()
      invariant Convert(messages, mode) == Prefixed(result, ConvertFrom(ViewOf(pending), messages[k..], mode))
    {
      ConvertNext(ViewOf(pending), messages, k, mode);
      var one, next := ConvertOne(pending, messages[k], mode);
      if one.Refused? {
        return one;
      }
      PrefixedTwice(result, one.value, ConvertFrom(ViewOf(next), messages[k + 1..], mode));
      result := result + one.value;
      pending := next;
    }
    assert messages[|messages|..] == [];
    if pending != null {
      var last := DeferredPostToolToMessages(pending, mode);
      result := result + last;
    } else {
      assert result + [] == result;
    }
    return Ok(result);
  }
}
