/** The builder of Anthropic event sequences: block bookkeeping on values, and the class that keeps
    it in fields. Events are returned as the sequence the source's generators yield. */
module SseBuilder {
  import opened Prelude
  import opened SseEvents

  datatype ToolCallState = ToolCallState(
    blockIndex: int,
    toolId: string,
    name: string,
    contents: seq<string>,
    started: bool,
    taskArgBuffer: string,
    taskArgsEmitted: bool,
    preStartArgs: string)

  /** toolOrder lists the keys of tools as first inserted, which is how the source's dict iterates.
      aliasBuffers, with aliasOrder, is the dict of argument text held back for tools whose argument keys
      were renamed; the source passes it along with the builder. */
  datatype Blocks = Blocks(
    nextIndex: int,
    thinkingIndex: int,
    textIndex: int,
    thinkingStarted: bool,
    textStarted: bool,
    tools: map<int, ToolCallState>,
    toolOrder: seq<int>,
    textParts: seq<string>,
    reasoningParts: seq<string>,
    aliasBuffers: map<int, string>,
    aliasOrder: seq<int>)

  const FRESH: Blocks := Blocks(0, -1, -1, false, false, map[], [], [], [], map[], [])

  function NewTool(name: string): ToolCallState {
    ToolCallState(-1, "", name, [], false, "", false, "")
  }

  function StopReason(finish: Option<string>): string {
    match finish
    case None => "end_turn"
    case Some(reason) =>
      if reason == "length" then "max_tokens"
      else if reason == "tool_calls" then "tool_use"
      else "end_turn"
  }

  /** json.loads of a buffered Task argument text: not JSON yet, JSON but not an object (the
      normalisation raises), or the normalised object dumped again. */
  datatype TaskArgs = Incomplete | NotAnObject | Normalized(json: string)

  // ---------------------------------------------------------------------------------------------
  // Text and thinking blocks
  // ---------------------------------------------------------------------------------------------

  function StopText(b: Blocks): (Blocks, seq<Event>) {
    if b.textStarted then (b.(textStarted := false), [BlockStop(b.textIndex)]) else (b, [])
  }

  function StopThinking(b: Blocks): (Blocks, seq<Event>) {
    if b.thinkingStarted then (b.(thinkingStarted := false), [BlockStop(b.thinkingIndex)]) else (b, [])
  }

  function StartText(b: Blocks): (Blocks, seq<Event>) {
    if b.textStarted then (b, [])
    else (b.(nextIndex := b.nextIndex + 1, textIndex := b.nextIndex, textStarted := true),
          [BlockStart(b.nextIndex, TextBlock(""))])
  }

  function StartThinking(b: Blocks): (Blocks, seq<Event>) {
    if b.thinkingStarted then (b, [])
    else (b.(nextIndex := b.nextIndex + 1, thinkingIndex := b.nextIndex, thinkingStarted := true),
          [BlockStart(b.nextIndex, ThinkingBlock(""))])
  }

  /** ensure_thinking_block followed by emit_thinking_delta. */
  function Think(b: Blocks, content: string): (Blocks, seq<Event>) {
    var (b1, out1) := StopText(b);
    var (b2, out2) := StartThinking(b1);
    (b2.(reasoningParts := b2.reasoningParts + [content]),
     out1 + out2 + [BlockDelta(b2.thinkingIndex, ThinkingDelta(content))])
  }

  /** ensure_text_block followed by emit_text_delta. */
  function Say(b: Blocks, content: string): (Blocks, seq<Event>) {
    var (b1, out1) := StopThinking(b);
    var (b2, out2) := StartText(b1);
    (b2.(textParts := b2.textParts + [content]),
     out1 + out2 + [BlockDelta(b2.textIndex, TextDelta(content))])
  }

  function CloseContent(b: Blocks): (Blocks, seq<Event>) {
    var (b1, out1) := StopThinking(b);
    var (b2, out2) := StopText(b1);
    (b2, out1 + out2)
  }

  // ---------------------------------------------------------------------------------------------
  // Tool blocks
  // ---------------------------------------------------------------------------------------------

  function PutTool(b: Blocks, i: int, t: ToolCallState): Blocks {
    b.(tools := b.tools[i := t], toolOrder := if i in b.tools then b.toolOrder else b.toolOrder + [i])
  }

  function EnsureTool(b: Blocks, i: int): Blocks {
    if i in b.tools then b else PutTool(b, i, NewTool(""))
  }

  function SetToolId(b: Blocks, i: int, id: string): Blocks {
    if id == "" then b
    else
      var b1 := EnsureTool(b, i);
      PutTool(b1, i, b1.tools[i].(toolId := id))
  }

  predicate StartsWith(s: string, prefix: string) {
    prefix <= s
  }

  function RegisterName(b: Blocks, i: int, name: string): Blocks {
    if i !in b.tools then PutTool(b, i, NewTool(name))
    else
      var prev := b.tools[i].name;
      if prev == "" || StartsWith(name, prev) then PutTool(b, i, b.tools[i].(name := name))
      else if !StartsWith(prev, name) then PutTool(b, i, b.tools[i].(name := prev + name))
      else b
  }

  function StartTool(b: Blocks, i: int, id: string, name: string): (Blocks, seq<Event>) {
    var t := if i in b.tools then b.tools[i] else NewTool(name);
    (PutTool(b.(nextIndex := b.nextIndex + 1), i, t.(blockIndex := b.nextIndex, toolId := id, started := true)),
     [BlockStart(b.nextIndex, ToolUseBlock(Some(id), Some(name), Some("{}")))])
  }

  function ToolDelta(b: Blocks, i: int, partialJson: string): (Blocks, seq<Event>)
    requires i in b.tools
  {
    var t := b.tools[i];
    (PutTool(b, i, t.(contents := t.contents + [partialJson])),
     [BlockDelta(t.blockIndex, InputJsonDelta(partialJson))])
  }

  /** buffer_task_args: the state with the fragment buffered, and what came of parsing it. */
  function BufferTaskArgs(b: Blocks, i: int, args: string, parse: string -> TaskArgs): (Blocks, TaskArgs) {
    if i !in b.tools || b.tools[i].taskArgsEmitted then (b, Incomplete)
    else
      var t := b.tools[i].(taskArgBuffer := b.tools[i].taskArgBuffer + args);
      match parse(t.taskArgBuffer)
      case Normalized(json) => (PutTool(b, i, t.(taskArgsEmitted := true, taskArgBuffer := "")), Normalized(json))
      case other => (PutTool(b, i, t), other)
  }

  /** flush_task_arg_buffers followed by the deltas it asks for; malformed JSON becomes {}. */
  function FlushTaskArgs(b: Blocks, order: seq<int>, parse: string -> TaskArgs): (Blocks, seq<Event>)
    decreases order
  {
    if order == [] then (b, [])
    else
      var i := order[0];
      if i !in b.tools || b.tools[i].taskArgBuffer == "" || b.tools[i].taskArgsEmitted then
        FlushTaskArgs(b, order[1..], parse)
      else
        var parsed := parse(b.tools[i].taskArgBuffer);
        var json := if parsed.Normalized? then parsed.json else "{}";
        var b1 := PutTool(b, i, b.tools[i].(taskArgsEmitted := true, taskArgBuffer := ""));
        var (b2, out2) := ToolDelta(b1, i, json);
        var (b3, out3) := FlushTaskArgs(b2, order[1..], parse);
        (b3, out2 + out3)
  }

  /** The argument text held back for a tool with renamed keys. */
  function AliasBuffer(b: Blocks, i: int): string {
    if i in b.aliasBuffers then b.aliasBuffers[i] else ""
  }

  function HoldAlias(b: Blocks, i: int, text: string): Blocks {
    b.(aliasBuffers := b.aliasBuffers[i := text], aliasOrder := if i in b.aliasBuffers then b.aliasOrder else b.aliasOrder + [i])
  }

  function LeaveOut(order: seq<int>, i: int): seq<int> {
    if order == [] then [] else (if order[0] == i then [] else [order[0]]) + LeaveOut(order[1..], i)
  }

  function DropAlias(b: Blocks, i: int): Blocks {
    if i in b.aliasBuffers then b.(aliasBuffers := b.aliasBuffers - {i}, aliasOrder := LeaveOut(b.aliasOrder, i)) else b
  }

  /** The stops of the started tools, in dict order; the states keep their started flags. */
  function ToolStops(tools: map<int, ToolCallState>, order: seq<int>): seq<Event> {
    if order == [] then []
    else
      (if order[0] in tools && tools[order[0]].started then [BlockStop(tools[order[0]].blockIndex)] else [])
      + ToolStops(tools, order[1..])
  }

  function CloseAll(b: Blocks): (Blocks, seq<Event>) {
    var (b1, out1) := CloseContent(b);
    (b1, out1 + ToolStops(b1.tools, b1.toolOrder))
  }

  predicate HasStartedTool(b: Blocks) {
    exists i | i in b.tools :: b.tools[i].started
  }

  function ErrorBlock(index: int, message: string): seq<Event> {
    [BlockStart(index, TextBlock("")), BlockDelta(index, TextDelta(message)), BlockStop(index)]
  }

  function EmitError(b: Blocks, message: string): (Blocks, seq<Event>) {
    (b.(nextIndex := b.nextIndex + 1), ErrorBlock(b.nextIndex, message))
  }

  // ---------------------------------------------------------------------------------------------
  // The estimate of output tokens
  // ---------------------------------------------------------------------------------------------

  /** The number of tokens of a text; None when the encoder raises, as it does on the text of a special
      token. */
  type Encoder = string -> Option<nat>

  function StartedCount(tools: map<int, ToolCallState>, order: seq<int>): nat {
    if order == [] then 0
    else (if order[0] in tools && tools[order[0]].started then 1 else 0) + StartedCount(tools, order[1..])
  }

  function ToolTokens(tools: map<int, ToolCallState>, order: seq<int>, encode: Encoder): Option<nat>
    decreases order
  {
    if order == [] then Some(0)
    else if order[0] !in tools then ToolTokens(tools, order[1..], encode)
    else
      var name, args := encode(tools[order[0]].name), encode(Concat(tools[order[0]].contents));
      var rest := ToolTokens(tools, order[1..], encode);
      if name.None? || args.None? || rest.None? then None else Some(name.value + args.value + 15 + rest.value)
  }

  function BlockCount(b: Blocks): nat {
    (if Concat(b.reasoningParts) != "" then 1 else 0) + (if Concat(b.textParts) != "" then 1 else 0)
    + StartedCount(b.tools, b.toolOrder)
  }

  /** Without an encoder the estimate goes by lengths and cannot raise. */
  function EstimateTokens(b: Blocks, encoder: Option<Encoder>): Option<nat> {
    var text, reasoning := Concat(b.textParts), Concat(b.reasoningParts);
    match encoder
    case None => Some(|text| / 4 + |reasoning| / 4 + StartedCount(b.tools, b.toolOrder) * 50)
    case Some(encode) =>
      var tools := ToolTokens(b.tools, b.toolOrder, encode);
      if encode(text).None? || encode(reasoning).None? || tools.None? then None
      else Some(encode(text).value + encode(reasoning).value + tools.value + BlockCount(b) * 4)
  }

  /** The encoder takes the name and the arguments of every listed tool. */
  predicate ToolsEncodable(tools: map<int, ToolCallState>, order: seq<int>, encode: Encoder) {
    forall i | i in order && i in tools :: encode(tools[i].name).Some? && encode(Concat(tools[i].contents)).Some?
  }

  lemma {:induction false} ToolTokensIff(tools: map<int, ToolCallState>, order: seq<int>, encode: Encoder)
    ensures ToolTokens(tools, order, encode).Some? <==> ToolsEncodable(tools, order, encode)
  {
    if order != [] {
      ToolTokensIff(tools, order[1..], encode);
      assert forall i :: i in order <==> i == order[0] || i in order[1..];
    }
  }

  /** The estimate succeeds if and only if the encoder takes the text, the reasoning, and the name and the
      arguments of every tool. */
  lemma EstimateSucceedsIff(b: Blocks, encode: Encoder)
    ensures EstimateTokens(b, Some(encode)).Some? <==>
              && encode(Concat(b.textParts)).Some? && encode(Concat(b.reasoningParts)).Some?
              && ToolsEncodable(b.tools, b.toolOrder, encode)
  {
    ToolTokensIff(b.tools, b.toolOrder, encode);
  }

  lemma {:induction false} ToolTokensAppend(tools: map<int, ToolCallState>, a: seq<int>, b: seq<int>, encode: Encoder)
    ensures StartedCount(tools, a + b) == StartedCount(tools, a) + StartedCount(tools, b)
    ensures ToolTokens(tools, a + b, encode) ==
            var x, y := ToolTokens(tools, a, encode), ToolTokens(tools, b, encode);
            if x.None? || y.None? then None else Some(x.value + y.value)
  {
    if a == [] {
      assert a + b == b;
    } else {
      assert (a + b)[0] == a[0] && (a + b)[1..] == a[1..] + b;
      ToolTokensAppend(tools, a[1..], b, encode);
    }
  }

  lemma {:induction false} ToolStopsAppend(tools: map<int, ToolCallState>, a: seq<int>, b: seq<int>)
    ensures ToolStops(tools, a + b) == ToolStops(tools, a) + ToolStops(tools, b)
  {
    if a == [] {
      assert a + b == b;
    } else {
      assert (a + b)[0] == a[0] && (a + b)[1..] == a[1..] + b;
      ToolStopsAppend(tools, a[1..], b);
    }
  }

  /** Each started tool has its stop, after those of the tools that stand before it in the table. */
  lemma StopsInOrder(tools: map<int, ToolCallState>, order: seq<int>, p: nat)
    requires p < |order| && order[p] in tools && tools[order[p]].started
    ensures var before := StartedCount(tools, order[..p]);
            && before < |ToolStops(tools, order)| == StartedCount(tools, order)
            && ToolStops(tools, order)[before] == BlockStop(tools[order[p]].blockIndex)
  {
    assert order == order[..p] + [order[p]] + order[p + 1..];
    ToolStopsAppend(tools, order[..p] + [order[p]], order[p + 1..]);
    ToolStopsAppend(tools, order[..p], [order[p]]);
    StopsAreCounted(tools, order[..p]);
    StopsAreCounted(tools, order);
    assert [order[p]][1..] == [];
  }

  lemma {:induction false} StopsAreCounted(tools: map<int, ToolCallState>, order: seq<int>)
    ensures |ToolStops(tools, order)| == StartedCount(tools, order)
  {
    if order != [] {
      StopsAreCounted(tools, order[1..]);
    }
  }

  /** One more tool of the loop; a tool that cannot be encoded makes the whole sum fail. */
  lemma CountNext(tools: map<int, ToolCallState>, order: seq<int>, k: nat, encode: Encoder)
    requires k < |order|
    ensures StartedCount(tools, order[..k + 1])
         == StartedCount(tools, order[..k]) + if order[k] in tools && tools[order[k]].started then 1 else 0
    ensures var x, y := ToolTokens(tools, order[..k], encode), ToolTokens(tools, [order[k]], encode);
            ToolTokens(tools, order[..k + 1], encode) == if x.None? || y.None? then None else Some(x.value + y.value)
    ensures ToolTokens(tools, [order[k]], encode) ==
            if order[k] !in tools then Some(0)
            else var name, args := encode(tools[order[k]].name), encode(Concat(tools[order[k]].contents));
                 if name.None? || args.None? then None else Some(name.value + args.value + 15)
    ensures ToolTokens(tools, [order[k]], encode).None? ==> ToolTokens(tools, order, encode).None?
  {
    assert order[..k + 1] == order[..k] + [order[k]] && [order[k]][1..] == [];
    ToolTokensAppend(tools, order[..k], [order[k]], encode);
    assert StartedCount(tools, [order[k]][1..]) == 0;
    assert order == order[..k + 1] + order[k + 1..];
    ToolTokensAppend(tools, order[..k + 1], order[k + 1..], encode);
  }

  // ---------------------------------------------------------------------------------------------
  // The class
  // ---------------------------------------------------------------------------------------------

  class SSEBuilder {
    var nextIndex: int
    var thinkingIndex: int
    var textIndex: int
    var thinkingStarted: bool
    var textStarted: bool
    var toolStates: map<int, ToolCallState>
    var toolOrder: seq<int>
    var accumulatedText: seq<string>
    var accumulatedReasoning: seq<string>
    var aliasBuffers: map<int, string>
    var aliasOrder: seq<int>

    function View(): Blocks
      reads this
    {
      Blocks(nextIndex, thinkingIndex, textIndex, thinkingStarted, textStarted,
             toolStates, toolOrder, accumulatedText, accumulatedReasoning, aliasBuffers, aliasOrder)
    }

    constructor ()
      ensures View() == FRESH
    {
      nextIndex, thinkingIndex, textIndex := 0, -1, -1;
      thinkingStarted, textStarted := false, false;
      toolStates, toolOrder := map[], [];
      accumulatedText, accumulatedReasoning := [], [];
      aliasBuffers, aliasOrder := map[], [];
    }

    method AllocateIndex() returns (index: int)
      modifies this`nextIndex
      ensures index == old(nextIndex) && nextIndex == old(nextIndex) + 1
    {
      index := nextIndex;
      nextIndex := nextIndex + 1;
    }

    method StopTextBlock() returns (out: seq<Event>)
      modifies this
      ensures (View(), out) == StopText(old(View()))
    {
      out := [];
      if textStarted {
        textStarted := false;
        out := [BlockStop(textIndex)];
      }
    }

    method StopThinkingBlock() returns (out: seq<Event>)
      modifies this
      ensures (View(), out) == StopThinking(old(View()))
    {
      out := [];
      if thinkingStarted {
        thinkingStarted := false;
        out := [BlockStop(thinkingIndex)];
      }
    }

    method EmitThinking(content: string) returns (out: seq<Event>)
      modifies this
      ensures (View(), out) == Think(old(View()), content)
    {
      out := StopTextBlock();
      assert out + [] == out;
      if !thinkingStarted {
        thinkingIndex := AllocateIndex();
        thinkingStarted := true;
        out := out + [BlockStart(thinkingIndex, ThinkingBlock(""))];
      }
      accumulatedReasoning := accumulatedReasoning + [content];
      out := out + [BlockDelta(thinkingIndex, ThinkingDelta(content))];
    }

    method EmitText(content: string) returns (out: seq<Event>)
      modifies this
      ensures (View(), out) == Say(old(View()), content)
    {
      out := StopThinkingBlock();
      assert out + [] == out;
      if !textStarted {
        textIndex := AllocateIndex();
        textStarted := true;
        out := out + [BlockStart(textIndex, TextBlock(""))];
      }
      accumulatedText := accumulatedText + [content];
      out := out + [BlockDelta(textIndex, TextDelta(content))];
    }

    method CloseContentBlocks() returns (out: seq<Event>)
      modifies this
      ensures (View(), out) == CloseContent(old(View()))
    {
      out := StopThinkingBlock();
      var more := StopTextBlock();
      out := out + more;
    }

    method SetTool(i: int, t: ToolCallState)
      modifies this`toolStates, this`toolOrder
      ensures View() == PutTool(old(View()), i, t)
    {
      if i !in toolStates {
        toolOrder := toolOrder + [i];
      }
      toolStates := toolStates[i := t];
    }

    method SetStreamToolId(i: int, id: string)
      modifies this
      ensures View() == SetToolId(old(View()), i, id)
    {
      if id == "" {
        return;
      }
      if i !in toolStates {
        SetTool(i, NewTool(""));
      }
      SetTool(i, toolStates[i].(toolId := id));
    }

    method RegisterToolName(i: int, name: string)
      modifies this
      ensures View() == RegisterName(old(View()), i, name)
    {
      if i !in toolStates {
        SetTool(i, NewTool(name));
        return;
      }
      var prev := toolStates[i].name;
      if prev == "" || StartsWith(name, prev) {
        SetTool(i, toolStates[i].(name := name));
      } else if !StartsWith(prev, name) {
        SetTool(i, toolStates[i].(name := prev + name));
      }
    }

    method StartToolBlock(i: int, id: string, name: string) returns (out: seq<Event>)
      modifies this
      ensures (View(), out) == StartTool(old(View()), i, id, name)
    {
      var index := AllocateIndex();
      if i in toolStates {
        SetTool(i, toolStates[i].(blockIndex := index, toolId := id, started := true));
      } else {
        SetTool(i, NewTool(name).(blockIndex := index, toolId := id, started := true));
      }
      out := [BlockStart(index, ToolUseBlock(Some(id), Some(name), Some("{}")))];
    }

    method EmitToolDelta(i: int, partialJson: string) returns (out: seq<Event>)
      requires i in toolStates
      modifies this
      ensures (View(), out) == ToolDelta(old(View()), i, partialJson)
    {
      var t := toolStates[i];
      SetTool(i, t.(contents := t.contents + [partialJson]));
      out := [BlockDelta(t.blockIndex, InputJsonDelta(partialJson))];
    }

    method CloseAllBlocks() returns (out: seq<Event>)
      modifies this
      ensures (View(), out) == CloseAll(old(View()))
    {
      out := CloseContentBlocks();
      ghost var before := out;
      for k := 0 to |toolOrder|
        invariant View() == CloseContent(old(View())).0
        invariant out == before + ToolStops(toolStates, toolOrder[..k])
      {
        var i := toolOrder[k];
        assert toolOrder[..k + 1] == toolOrder[..k] + [i];
        ToolStopsAppend(toolStates, toolOrder[..k], [i]);
        assert ToolStops(toolStates, [i][1..]) == [];
        if i in toolStates && toolStates[i].started {
          out := out + [BlockStop(toolStates[i].blockIndex)];
        }
      }
      assert toolOrder[..|toolOrder|] == toolOrder;
    }

    method SetAliasBuffer(i: int, text: string)
      modifies this`aliasBuffers, this`aliasOrder
      ensures View() == HoldAlias(old(View()), i, text)
    {
      if i !in aliasBuffers {
        aliasOrder := aliasOrder + [i];
      }
      aliasBuffers := aliasBuffers[i := text];
    }

    method PopAliasBuffer(i: int)
      modifies this`aliasBuffers, this`aliasOrder
      ensures View() == DropAlias(old(View()), i)
    {
      if i in aliasBuffers {
        aliasBuffers := aliasBuffers - {i};
        aliasOrder := LeaveOut(aliasOrder, i);
      }
    }

    method CountStarted() returns (started: nat)
      ensures started == StartedCount(toolStates, toolOrder)
    {
      started := 0;
      for k := 0 to |toolOrder|
        invariant started == StartedCount(toolStates, toolOrder[..k])
      {
        CountNext(toolStates, toolOrder, k, s => Some(0));
        if toolOrder[k] in toolStates && toolStates[toolOrder[k]].started {
          started := started + 1;
        }
      }
      assert toolOrder[..|toolOrder|] == toolOrder;
    }

    /** None where the source's encoder raises. */
    method EstimateOutputTokens(encoder: Option<Encoder>) returns (count: Option<nat>)
      ensures count == EstimateTokens(View(), encoder)
    {
      var text, reasoning := Concat(accumulatedText), Concat(accumulatedReasoning);
      var started: nat := 0;
      if encoder.None? {
        started := CountStarted();
        return Some(|text| / 4 + |reasoning| / 4 + started * 50);
      }
      var encode := encoder.value;
      var textTokens, reasoningTokens := encode(text), encode(reasoning);
      if textTokens.None? || reasoningTokens.None? {
        return None;
      }
      var toolTokens: nat := 0;
      for k := 0 to |toolOrder|
        invariant started == StartedCount(toolStates, toolOrder[..k])
        invariant ToolTokens(toolStates, toolOrder[..k], encode) == Some(toolTokens)
      {
        CountNext(toolStates, toolOrder, k, encode);
        if toolOrder[k] in toolStates {
          var state := toolStates[toolOrder[k]];
          var name, args := encode(state.name), encode(Concat(state.contents));
          if name.None? || args.None? {
            return None;
          }
          toolTokens := toolTokens + name.value + args.value + 15;
          if state.started {
            started := started + 1;
          }
        }
      }
      assert toolOrder[..|toolOrder|] == toolOrder;
      var blockCount := (if reasoning != "" then 1 else 0) + (if text != "" then 1 else 0) + started;
      return Some(textTokens.value + reasoningTokens.value + toolTokens + blockCount * 4);
    }

    method EmitErrorBlock(message: string) returns (out: seq<Event>)
      modifies this
      ensures (View(), out) == EmitError(old(View()), message)
    {
      var index := AllocateIndex();
      out := [BlockStart(index, TextBlock("")), BlockDelta(index, TextDelta(message)), BlockStop(index)];
    }
  }

  /** The events of a stream that ends in a provider error: a fresh builder's error block, with a
      message_start when nothing was sent before. */
  function ProviderErrorEvents(messageId: string, message: string, sentAnyEvent: bool): seq<Event> {
    (if sentAnyEvent then [] else [MessageStart(messageId)])
    + ErrorBlock(0, message) + [MessageDelta("end_turn", 1), MessageStop]
  }

  method IterProviderStreamError(messageId: string, message: string, sentAnyEvent: bool) returns (out: seq<Event>)
    ensures out == ProviderErrorEvents(messageId, message, sentAnyEvent)
  {
    var sse := new SSEBuilder();
    out := [];
    if !sentAnyEvent {
      out := [MessageStart(messageId)];
    }
    var block := sse.EmitErrorBlock(message);
    out := out + block + [MessageDelta("end_turn", 1)] + [MessageStop];
  }
}
