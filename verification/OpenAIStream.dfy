/** The OpenAI-to-Anthropic streaming loop. The heuristic tool parser, JSON parsing of Task
    arguments and uuid4 are parameters: the results hold for every choice of them. */
module OpenAIStream {
  import opened Prelude
  import opened SseEvents
  import opened SseBuilder
  import opened ThinkTags
  import opened ProviderAttempts

  /** input is the JSON text of the tool's (already normalised) input object. */
  datatype ToolUse = ToolUse(id: string, name: string, input: string)

  /** One tool call delta. A missing index (None) makes the loop raise, as comparing it does. */
  datatype ToolCallDelta = ToolCallDelta(index: Option<int>, id: Option<string>, name: Option<string>, arguments: string)

  /** One upstream chunk; empty texts and an empty call list are the source's falsy fields. NoDelta
      is a chunk without choices or without a delta, which the loop skips altogether. */
  datatype UpstreamChunk =
    | NoDelta
    | Delta(reasoning: string, content: string, toolCalls: seq<ToolCallDelta>, finish: Option<string>)

  /** How tool arguments are rewritten: parse for those of Task; aliased says which tools had argument keys
      renamed in the request, and restore gives the argument text with the original keys, None while it
      is not JSON yet. */
  datatype ArgRules = ArgRules(parse: string -> TaskArgs, aliased: string -> bool, restore: (string, string) -> Option<string>)

  datatype Env<!H> = Env(
    feed: (H, string) -> (H, string, seq<ToolUse>),
    flush: H -> seq<ToolUse>,
    rules: ArgRules,
    encoder: Option<Encoder>,
    uuid: int -> string,
    thinking: bool)

  datatype Session<H> = Session(blocks: Blocks, parser: Parser, heuristic: H, finish: Option<string>)

  // ---------------------------------------------------------------------------------------------
  // Tool calls
  // ---------------------------------------------------------------------------------------------

  /** A heuristic tool call is a complete block of its own. */
  function HeuristicTool(b: Blocks, tool: ToolUse): (Blocks, seq<Event>) {
    var (b1, out) := CloseContent(b);
    (b1.(nextIndex := b1.nextIndex + 1), out + WholeTool(b1.nextIndex, tool))
  }

  function WholeTool(i: int, tool: ToolUse): seq<Event> {
    [BlockStart(i, ToolUseBlock(Some(tool.id), Some(tool.name), Some("{}"))),
     BlockDelta(i, InputJsonDelta(tool.input)), BlockStop(i)]
  }

  function HeuristicTools(b: Blocks, tools: seq<ToolUse>): (Blocks, seq<Event>)
    decreases tools
  {
    if tools == [] then (b, [])
    else
      var (b1, out1) := HeuristicTool(b, tools[0]);
      var (b2, out2) := HeuristicTools(b1, tools[1..]);
      (b2, out1 + out2)
  }

  /** The last component tells whether an exception left the method. */
  function EmitArgs(b: Blocks, i: int, args: string, rules: ArgRules): (Blocks, seq<Event>, bool) {
    if args == "" || i !in b.tools then (b, [], false)
    else if b.tools[i].name == "Task" then
      var (b1, parsed) := BufferTaskArgs(b, i, args, rules.parse);
      match parsed
      case Incomplete => (b1, [], false)
      case NotAnObject => (b1, [], true)
      case Normalized(json) => var (b2, out) := ToolDelta(b1, i, json); (b2, out, false)
    else if rules.aliased(b.tools[i].name) then
      var (b1, out) := EmitAliased(b, i, args, rules); (b1, out, false)
    else var (b1, out) := ToolDelta(b, i, args); (b1, out, false)
  }

  /** Arguments with renamed keys are held back until they are complete. */
  function EmitAliased(b: Blocks, i: int, args: string, rules: ArgRules): (Blocks, seq<Event>)
    requires i in b.tools
  {
    var buffered := AliasBuffer(b, i) + args;
    match rules.restore(b.tools[i].name, buffered)
    case None => (HoldAlias(b, i, buffered), [])
    case Some(json) => ToolDelta(DropAlias(b, i), i, json)
  }

  /** What is left of such arguments at the end is sent as it is if it cannot be restored. */
  function FlushAliases(b: Blocks, order: seq<int>, rules: ArgRules): (Blocks, seq<Event>)
    decreases order
  {
    if order == [] then (b, [])
    else
      var (b1, out1) := FlushAlias(b, order[0], rules);
      var (b2, out2) := FlushAliases(b1, order[1..], rules);
      (b2, out1 + out2)
  }

  function FlushAlias(b: Blocks, i: int, rules: ArgRules): (Blocks, seq<Event>) {
    if AliasBuffer(b, i) == "" then (DropAlias(b, i), [])
    else if i !in b.tools || b.tools[i].name == "Task" || !rules.aliased(b.tools[i].name) then (b, [])
    else
      var restored := rules.restore(b.tools[i].name, AliasBuffer(b, i));
      var (b1, out) := ToolDelta(b, i, if restored.Some? then restored.value else AliasBuffer(b, i));
      (DropAlias(b1, i), out)
  }

  function ResolveIndex(b: Blocks, index: int): int {
    if index < 0 then |b.tools| else index
  }

  /** The id and the name are recorded before anything is emitted. */
  function Register(b: Blocks, i: int, tc: ToolCallDelta): Blocks {
    var b1 := if tc.id.Some? then SetToolId(b, i, tc.id.value) else b;
    if tc.name.Some? then RegisterName(b1, i, tc.name.value) else b1
  }

  function KnownName(b: Blocks, i: int): string {
    if i in b.tools then b.tools[i].name else ""
  }

  predicate IsStarted(b: Blocks, i: int) {
    i in b.tools && b.tools[i].started
  }

  function ToolId(b: Blocks, i: int, tc: ToolCallDelta, uuid: int -> string): string {
    if i in b.tools && b.tools[i].toolId != "" then b.tools[i].toolId
    else if tc.id.Some? && tc.id.value != "" then tc.id.value
    else "tool_" + uuid(b.nextIndex)
  }

  /** Start the block once the name is known, and release the arguments held back until then. */
  function StartIfNamed<H>(b: Blocks, i: int, tc: ToolCallDelta, env: Env<H>): (Blocks, seq<Event>, bool) {
    if IsStarted(b, i) || IsBlank(KnownName(b, i)) then (b, [], false)
    else
      var (b1, out1) := StartTool(b, i, ToolId(b, i, tc, env.uuid), Strip(KnownName(b, i)));
      var pre := b1.tools[i].preStartArgs;
      var b2 := PutTool(b1, i, b1.tools[i].(preStartArgs := ""));
      var (b3, out3, raised) := EmitArgs(b2, i, pre, env.rules);
      (b3, out1 + out3, raised)
  }

  function HoldArgs(b: Blocks, i: int, args: string): Blocks {
    var b1 := EnsureTool(b, i);
    PutTool(b1, i, b1.tools[i].(preStartArgs := b1.tools[i].preStartArgs + args))
  }

  function ProcessToolCall<H>(b: Blocks, tc: ToolCallDelta, env: Env<H>): (Blocks, seq<Event>, bool) {
    if tc.index.None? then (b, [], true)
    else
      var i := ResolveIndex(b, tc.index.value);
      var (b1, out1, raised1) := StartIfNamed(Register(b, i, tc), i, tc, env);
      if raised1 || tc.arguments == "" then (b1, out1, raised1)
      else if !IsStarted(b1, i) then (HoldArgs(b1, i, tc.arguments), out1, false)
      else
        var (b2, out2, raised2) := EmitArgs(b1, i, tc.arguments, env.rules);
        (b2, out1 + out2, raised2)
  }

  function ProcessToolCalls<H>(b: Blocks, tcs: seq<ToolCallDelta>, env: Env<H>): (Blocks, seq<Event>, bool)
    decreases tcs
  {
    if tcs == [] then (b, [], false)
    else
      var (b1, out1, raised1) := ProcessToolCall(b, tcs[0], env);
      if raised1 then (b1, out1, true)
      else
        var (b2, out2, raised2) := ProcessToolCalls(b1, tcs[1..], env);
        (b2, out1 + out2, raised2)
  }

  // ---------------------------------------------------------------------------------------------
  // Text
  // ---------------------------------------------------------------------------------------------

  /** One part of the think-tag parser: thinking, or text that may hide tool calls. */
  function EmitPart<H>(b: Blocks, h: H, part: ContentChunk, env: Env<H>): (Blocks, H, seq<Event>) {
    match part.kind
    case THINKING =>
      if env.thinking then var (b1, out) := Think(b, part.content); (b1, h, out) else (b, h, [])
    case TEXT =>
      var (h1, text, tools) := env.feed(h, part.content);
      var (b1, out1) := if text != "" then Say(b, text) else (b, []);
      var (b2, out2) := HeuristicTools(b1, tools);
      (b2, h1, out1 + out2)
  }

  function EmitParts<H>(b: Blocks, h: H, parts: seq<ContentChunk>, env: Env<H>): (Blocks, H, seq<Event>)
    decreases parts
  {
    if parts == [] then (b, h, [])
    else
      var (b1, h1, out1) := EmitPart(b, h, parts[0], env);
      var (b2, h2, out2) := EmitParts(b1, h1, parts[1..], env);
      (b2, h2, out1 + out2)
  }

  // ---------------------------------------------------------------------------------------------
  // The stream
  // ---------------------------------------------------------------------------------------------

  function Reason(b: Blocks, reasoning: string, thinking: bool): (Blocks, seq<Event>) {
    if thinking && reasoning != "" then Think(b, reasoning) else (b, [])
  }

  function Parts(p: Parser, content: string): (Parser, seq<ContentChunk>) {
    if content != "" then Feed(p, content) else (p, [])
  }

  function ToolPhase<H>(b: Blocks, tcs: seq<ToolCallDelta>, env: Env<H>): (Blocks, seq<Event>, bool) {
    if tcs == [] then (b, [], false)
    else
      var (b1, out1) := CloseContent(b);
      var (b2, out2, raised) := ProcessToolCalls(b1, tcs, env);
      (b2, out1 + out2, raised)
  }

  function ProcessChunk<H>(s: Session<H>, chunk: UpstreamChunk, env: Env<H>): (Session<H>, seq<Event>, bool) {
    match chunk
    case NoDelta => (s, [], false)
    case Delta(reasoning, content, toolCalls, finish) =>
      var (b1, out1) := Reason(s.blocks, reasoning, env.thinking);
      var (parser, parts) := Parts(s.parser, content);
      var (b2, h, out2) := EmitParts(b1, s.heuristic, parts, env);
      var (b3, out3, raised) := ToolPhase(b2, toolCalls, env);
      (Session(b3, parser, h, if finish.Some? && finish.value != "" then finish else s.finish),
       out1 + out2 + out3, raised)
  }

  /** Chunks until the list ends or one of them raises. */
  function ProcessChunks<H>(s: Session<H>, chunks: seq<UpstreamChunk>, env: Env<H>): (Session<H>, seq<Event>, bool)
    decreases chunks
  {
    if chunks == [] then (s, [], false)
    else
      var (s1, out1, raised1) := ProcessChunk(s, chunks[0], env);
      if raised1 then (s1, out1, true)
      else
        var (s2, out2, raised2) := ProcessChunks(s1, chunks[1..], env);
        (s2, out1 + out2, raised2)
  }

  /** The events after an exception: a second text block is avoided once a tool block was sent. */
  function FailureTail(b: Blocks, message: string): seq<Event> {
    var (b1, out) := CloseAll(b);
    out
    + (if HasStartedTool(b1) then [ErrorEvent(message)] else EmitError(b1, message).1)
    + [MessageDelta("end_turn", 1), MessageStop]
  }

  function FlushParser<H>(b: Blocks, parser: Parser, env: Env<H>): (Blocks, seq<Event>) {
    match Flush(parser).1
    case None => (b, [])
    case Some(rest) =>
      if rest.kind == TEXT then Say(b, rest.content)
      else if env.thinking then Think(b, rest.content)
      else (b, [])
  }

  predicate NeedsPlaceholder(b: Blocks) {
    if b.textIndex == -1 && b.thinkingIndex == -1 && !HasStartedTool(b) then true
    else !HasStartedTool(b) && IsBlank(Concat(b.textParts)) && !IsBlank(Concat(b.reasoningParts))
  }

  function Placeholder(b: Blocks): (Blocks, seq<Event>) {
    if NeedsPlaceholder(b) then Say(b, " ") else (b, [])
  }

  /** The builder when everything but the end of the message has been sent, and the events of that. */
  function Wind<H>(s: Session<H>, env: Env<H>): (Blocks, seq<Event>) {
    var (b1, out1) := FlushParser(s.blocks, s.parser, env);
    var (b2, out2) := HeuristicTools(b1, env.flush(s.heuristic));
    var (b3, out3) := Placeholder(b2);
    var (b4, out4) := FlushAliases(b3, b3.aliasOrder, env.rules);
    var (b5, out5) := FlushTaskArgs(b4, b4.toolOrder, env.rules.parse);
    var (b6, out6) := CloseAll(b5);
    (b6, out1 + out2 + out3 + out4 + out5 + out6)
  }

  /** The count of output tokens: the upstream's, or else the estimate, which raises where it is None. */
  function OutputTokens<H>(s: Session<H>, env: Env<H>, counted: Option<int>): Option<int> {
    if counted.Some? then counted
    else
      match EstimateTokens(Wind(s, env).0, env.encoder)
      case None => None
      case Some(count) => Some(count)
  }

  /** The events after the last chunk of a stream that did not fail, and whether the message was ended. An
      estimate that raises leaves it without an end. */
  function SuccessTail<H>(s: Session<H>, env: Env<H>, counted: Option<int>): (seq<Event>, bool) {
    match OutputTokens(s, env, counted)
    case None => (Wind(s, env).1, false)
    case Some(count) => (Wind(s, env).1 + [MessageDelta(StopReason(s.finish), count), MessageStop], true)
  }

  function Begin<H>(h: H): Session<H> {
    Session(FRESH, Parser("", false), h, None)
  }

  /** What follows the events of the chunks, and whether the stream completes. */
  function Tail<H>(s: Session<H>, raised: bool, failure: Option<string>, crash: string, env: Env<H>, counted: Option<int>): (seq<Event>, bool) {
    if raised then (FailureTail(s.blocks, crash), true)
    else if failure.Some? then (FailureTail(s.blocks, failure.value), true)
    else SuccessTail(s, env, counted)
  }

  /** The whole response of an upstream that opened: the chunks received, and the upstream failure after
      them if there was one. The flag is false if an exception escapes at the end. */
  function Response<H>(messageId: string, h: H, chunks: seq<UpstreamChunk>, failure: Option<string>,
                       crash: string, env: Env<H>, counted: Option<int>): (seq<Event>, bool)
  {
    var (s, out, raised) := ProcessChunks(Begin(h), chunks, env);
    var (tail, done) := Tail(s, raised, failure, crash, env, counted);
    ([MessageStart(messageId)] + out + tail, done)
  }

  /** What one upstream is to the transport: the request body may be refused, it may not open; then chunks
      come, and it may fail, and it may count the tokens. */
  datatype Upstream = Upstream(body: Option<BodyFault>, opening: Option<OpenError>, chunks: seq<UpstreamChunk>,
                               failure: Option<string>, counted: Option<int>)

  function AsAttempt(response: (seq<Event>, bool)): Attempt {
    Attempt(response.0, if response.1 then Completes else OtherException)
  }

  /** The transport's stream. A body that cannot be built raises before anything is sent. A failure to open
      is rendered like a failure after no chunks, or raised when the message_start has been sent. */
  function Attempted<H>(messageId: string, h: H, upstream: Upstream, mode: OnOpenError, crash: string, env: Env<H>): Attempt {
    if upstream.body.Some? then Attempt([], Escaping(upstream.body.value.mapped))
    else
      match upstream.opening
      case None => AsAttempt(Response(messageId, h, upstream.chunks, upstream.failure, crash, env, upstream.counted))
      case Some(error) =>
        if mode == Raise then Attempt([MessageStart(messageId)], Escaping(error.mapped))
        else AsAttempt(Response(messageId, h, [], Some(error.shown), crash, env, upstream.counted))
  }

  lemma Associate(a: seq<Event>, b: seq<Event>, c: seq<Event>)
    ensures a + (b + c) == a + b + c
  {
  }

  lemma CallsUnfold<H>(b: Blocks, tcs: seq<ToolCallDelta>, env: Env<H>, b1: Blocks, out1: seq<Event>, raised1: bool, sofar: seq<Event>)
    requires tcs != [] && ProcessToolCall(b, tcs[0], env) == (b1, out1, raised1)
    ensures raised1 ==> ProcessToolCalls(b, tcs, env) == (b1, out1, true)
    ensures !raised1 ==>
      var rest := ProcessToolCalls(b1, tcs[1..], env);
      && ProcessToolCalls(b, tcs, env) == (rest.0, out1 + rest.1, rest.2)
      && sofar + (out1 + rest.1) == sofar + out1 + rest.1
  {
    if !raised1 {
      Associate(sofar, out1, ProcessToolCalls(b1, tcs[1..], env).1);
    }
  }

  lemma PartsUnfold<H>(b: Blocks, h: H, parts: seq<ContentChunk>, env: Env<H>, b1: Blocks, h1: H, out1: seq<Event>, sofar: seq<Event>)
    requires parts != [] && EmitPart(b, h, parts[0], env) == (b1, h1, out1)
    ensures var rest := EmitParts(b1, h1, parts[1..], env);
            && EmitParts(b, h, parts, env).0 == rest.0
            && EmitParts(b, h, parts, env).1 == rest.1
            && sofar + EmitParts(b, h, parts, env).2 == sofar + out1 + rest.2
  {
    Associate(sofar, out1, EmitParts(b1, h1, parts[1..], env).2);
  }

  lemma ChunksUnfold<H>(s: Session<H>, chunks: seq<UpstreamChunk>, env: Env<H>, s1: Session<H>, out1: seq<Event>, raised1: bool, sofar: seq<Event>)
    requires chunks != [] && ProcessChunk(s, chunks[0], env) == (s1, out1, raised1)
    ensures raised1 ==> ProcessChunks(s, chunks, env) == (s1, out1, true)
    ensures !raised1 ==>
      var rest := ProcessChunks(s1, chunks[1..], env);
      && ProcessChunks(s, chunks, env) == (rest.0, out1 + rest.1, rest.2)
      && sofar + (out1 + rest.1) == sofar + out1 + rest.1
  {
    if !raised1 {
      Associate(sofar, out1, ProcessChunks(s1, chunks[1..], env).1);
    }
  }

  // ---------------------------------------------------------------------------------------------
  // The transport
  // ---------------------------------------------------------------------------------------------

  class OpenAIChatTransport<H> {
    const env: Env<H>
    const sse: SSEBuilder
    const thinkParser: ThinkTagParser
    var heuristic: H
    var finishReason: Option<string>

    function View(): Session<H>
      reads this, sse, thinkParser
    {
      Session(sse.View(), thinkParser.View(), heuristic, finishReason)
    }

    constructor (env: Env<H>, h: H)
      ensures View() == Begin(h) && this.env == env
      ensures fresh(sse) && fresh(thinkParser)
    {
      this.env := env;
      sse := new SSEBuilder();
      thinkParser := new ThinkTagParser();
      heuristic := h;
      finishReason := None;
    }

    method EmitToolArgDelta(i: int, args: string) returns (out: seq<Event>, raised: bool)
      modifies sse
      ensures (sse.View(), out, raised) == EmitArgs(old(sse.View()), i, args, env.rules)
    {
      if args == "" || i !in sse.toolStates {
        return [], false;
      }
      if sse.toolStates[i].name == "Task" {
        var parsed := BufferTask(i, args);
        match parsed {
          case Incomplete => return [], false;
          case NotAnObject => return [], true;
          case Normalized(json) =>
            out := sse.EmitToolDelta(i, json);
            raised := false;
        }
      } else if env.rules.aliased(sse.toolStates[i].name) {
        out := EmitAliasedDelta(i, args);
        raised := false;
      } else {
        out := sse.EmitToolDelta(i, args);
        raised := false;
      }
    }

    method EmitAliasedDelta(i: int, args: string) returns (out: seq<Event>)
      requires i in sse.toolStates
      modifies sse
      ensures (sse.View(), out) == EmitAliased(old(sse.View()), i, args, env.rules)
    {
      var bufferedArgs := (if i in sse.aliasBuffers then sse.aliasBuffers[i] else "") + args;
      var restored := env.rules.restore(sse.toolStates[i].name, bufferedArgs);
      if restored.None? {
        sse.SetAliasBuffer(i, bufferedArgs);
        return [];
      }
      sse.PopAliasBuffer(i);
      out := sse.EmitToolDelta(i, restored.value);
    }

    method BufferTask(i: int, args: string) returns (parsed: TaskArgs)
      modifies sse
      ensures (sse.View(), parsed) == BufferTaskArgs(old(sse.View()), i, args, env.rules.parse)
    {
      if i !in sse.toolStates || sse.toolStates[i].taskArgsEmitted {
        return Incomplete;
      }
      var t := sse.toolStates[i];
      t := t.(taskArgBuffer := t.taskArgBuffer + args);
      parsed := env.rules.parse(t.taskArgBuffer);
      if parsed.Normalized? {
        t := t.(taskArgsEmitted := true, taskArgBuffer := "");
      }
      sse.SetTool(i, t);
    }

    method ProcessCall(tc: ToolCallDelta) returns (out: seq<Event>, raised: bool)
      modifies sse
      ensures (sse.View(), out, raised) == ProcessToolCall(old(sse.View()), tc, env)
    {
      if tc.index == None {
        return [], true;
      }
      var i := tc.index.value;
      if i < 0 {
        i := |sse.toolStates|;
      }
      if tc.id.Some? {
        sse.SetStreamToolId(i, tc.id.value);
      }
      if tc.name.Some? {
        sse.RegisterToolName(i, tc.name.value);
      }
      assert sse.View() == Register(old(sse.View()), i, tc);
      out, raised := StartNamed(i, tc);
      if raised || tc.arguments == "" {
        return;
      }
      if i !in sse.toolStates || !sse.toolStates[i].started {
        HoldArguments(i, tc.arguments);
        return;
      }
      var more;
      more, raised := EmitToolArgDelta(i, tc.arguments);
      out := out + more;
    }

    method HoldArguments(i: int, args: string)
      modifies sse
      ensures sse.View() == HoldArgs(old(sse.View()), i, args)
    {
      if i !in sse.toolStates {
        sse.SetTool(i, NewTool(""));
      }
      var t := sse.toolStates[i];
      sse.SetTool(i, t.(preStartArgs := t.preStartArgs + args));
    }

    method StartNamed(i: int, tc: ToolCallDelta) returns (out: seq<Event>, raised: bool)
      modifies sse
      ensures (sse.View(), out, raised) == StartIfNamed(old(sse.View()), i, tc, env)
    {
      var name := if i in sse.toolStates then sse.toolStates[i].name else "";
      if (i in sse.toolStates && sse.toolStates[i].started) || IsBlank(name) {
        return [], false;
      }
      var id := ToolId(sse.View(), i, tc, env.uuid);
      out := sse.StartToolBlock(i, id, Strip(name));
      var pre := sse.toolStates[i].preStartArgs;
      sse.SetTool(i, sse.toolStates[i].(preStartArgs := ""));
      var more;
      more, raised := EmitToolArgDelta(i, pre);
      out := out + more;
    }

    method ProcessCalls(tcs: seq<ToolCallDelta>) returns (out: seq<Event>, raised: bool)
      modifies sse
      ensures (sse.View(), out, raised) == ToolPhase(old(sse.View()), tcs, env)
    {
      if tcs == [] {
        return [], false;
      }
      out := sse.CloseContentBlocks();
      ghost var closing := out;
      ghost var (end, emitted, failed) := ProcessToolCalls(sse.View(), tcs, env);
      raised := false;
      for k := 0 to |tcs|
        invariant !raised
        invariant ProcessToolCalls(sse.View(), tcs[k..], env).0 == end
        invariant out + ProcessToolCalls(sse.View(), tcs[k..], env).1 == closing + emitted
        invariant ProcessToolCalls(sse.View(), tcs[k..], env).2 == failed
      {
        assert tcs[k..][0] == tcs[k] && tcs[k..][1..] == tcs[k + 1..];
        ghost var b := sse.View();
        var more;
        more, raised := ProcessCall(tcs[k]);
        CallsUnfold(b, tcs[k..], env, sse.View(), more, raised, out);
        out := out + more;
        if raised {
          return;
        }
      }
      assert tcs[|tcs|..] == [] && out + [] == out;
    }

    method EmitHeuristicTools(tools: seq<ToolUse>) returns (out: seq<Event>)
      modifies sse
      ensures (sse.View(), out) == HeuristicTools(old(sse.View()), tools)
    {
      out := [];
      ghost var (end, emitted) := HeuristicTools(sse.View(), tools);
      for k := 0 to |tools|
        invariant HeuristicTools(sse.View(), tools[k..]).0 == end
        invariant out + HeuristicTools(sse.View(), tools[k..]).1 == emitted
      {
        assert tools[k..][0] == tools[k] && tools[k..][1..] == tools[k + 1..];
        ghost var b := sse.View();
        var closing := sse.CloseContentBlocks();
        var i := sse.AllocateIndex();
        var more := closing + WholeTool(i, tools[k]);
        assert HeuristicTool(b, tools[k]) == (sse.View(), more);
        Associate(out, more, HeuristicTools(sse.View(), tools[k + 1..]).1);
        out := out + more;
      }
      assert tools[|tools|..] == [] && out + [] == out;
    }

    method EmitContent(content: string) returns (out: seq<Event>)
      modifies this`heuristic, sse, thinkParser
      ensures var (parser, parts) := Parts(old(thinkParser.View()), content);
              && thinkParser.View() == parser
              && (sse.View(), heuristic, out) == EmitParts(old(sse.View()), old(heuristic), parts, env)
    {
      out := [];
      var parts := [];
      if content != "" {
        parts := thinkParser.FeedContent(content);
      }
      out := EmitAll(parts);
    }

    method EmitAll(parts: seq<ContentChunk>) returns (out: seq<Event>)
      modifies this`heuristic, sse
      ensures (sse.View(), heuristic, out) == EmitParts(old(sse.View()), old(heuristic), parts, env)
    {
      out := [];
      ghost var (end, endH, emitted) := EmitParts(sse.View(), heuristic, parts, env);
      for k := 0 to |parts|
        invariant EmitParts(sse.View(), heuristic, parts[k..], env).0 == end
        invariant EmitParts(sse.View(), heuristic, parts[k..], env).1 == endH
        invariant out + EmitParts(sse.View(), heuristic, parts[k..], env).2 == emitted
      {
        assert parts[k..][0] == parts[k] && parts[k..][1..] == parts[k + 1..];
        ghost var b, h := sse.View(), heuristic;
        var more := EmitOne(parts[k]);
        PartsUnfold(b, h, parts[k..], env, sse.View(), heuristic, more, out);
        out := out + more;
      }
      assert parts[|parts|..] == [] && out + [] == out;
    }

    method EmitOne(part: ContentChunk) returns (out: seq<Event>)
      modifies this`heuristic, sse
      ensures (sse.View(), heuristic, out) == EmitPart(old(sse.View()), old(heuristic), part, env)
    {
      if part.kind == THINKING {
        if !env.thinking {
          return [];
        }
        out := sse.EmitThinking(part.content);
      } else {
        var (h, text, tools) := env.feed(heuristic, part.content);
        heuristic := h;
        out := [];
        if text != "" {
          out := sse.EmitText(text);
        }
        var more := EmitHeuristicTools(tools);
        out := out + more;
      }
    }

    method HandleChunk(chunk: UpstreamChunk) returns (out: seq<Event>, raised: bool)
      modifies this, sse, thinkParser
      ensures (View(), out, raised) == ProcessChunk(old(View()), chunk, env)
    {
      if chunk == NoDelta {
        return [], false;
      }
      if chunk.finish.Some? && chunk.finish.value != "" {
        finishReason := chunk.finish;
      }
      out := [];
      if env.thinking && chunk.reasoning != "" {
        out := sse.EmitThinking(chunk.reasoning);
      }
      var content := EmitContent(chunk.content);
      var calls;
      calls, raised := ProcessCalls(chunk.toolCalls);
      out := out + content + calls;
    }

    method Fail(message: string) returns (out: seq<Event>)
      modifies sse
      ensures out == FailureTail(old(sse.View()), message)
    {
      out := sse.CloseAllBlocks();
      if HasStartedTool(sse.View()) {
        out := out + [ErrorEvent(message)];
      } else {
        var block := sse.EmitErrorBlock(message);
        out := out + block;
      }
      out := out + [MessageDelta("end_turn", 1), MessageStop];
    }

    method FlushTaskArgBuffers() returns (out: seq<Event>)
      modifies sse
      ensures (sse.View(), out) == FlushTaskArgs(old(sse.View()), old(sse.toolOrder), env.rules.parse)
    {
      out := [];
      var order := sse.toolOrder;
      ghost var (end, emitted) := FlushTaskArgs(sse.View(), order, env.rules.parse);
      for k := 0 to |order|
        invariant FlushTaskArgs(sse.View(), order[k..], env.rules.parse).0 == end
        invariant out + FlushTaskArgs(sse.View(), order[k..], env.rules.parse).1 == emitted
      {
        assert order[k..][0] == order[k] && order[k..][1..] == order[k + 1..];
        var i := order[k];
        if i in sse.toolStates && sse.toolStates[i].taskArgBuffer != "" && !sse.toolStates[i].taskArgsEmitted {
          var t := sse.toolStates[i];
          var parsed := env.rules.parse(t.taskArgBuffer);
          var json := if parsed.Normalized? then parsed.json else "{}";
          sse.SetTool(i, t.(taskArgsEmitted := true, taskArgBuffer := ""));
          var more := sse.EmitToolDelta(i, json);
          Associate(out, more, FlushTaskArgs(sse.View(), order[k + 1..], env.rules.parse).1);
          out := out + more;
        }
      }
      assert order[|order|..] == [] && out + [] == out;
    }

    method FlushRemaining() returns (out: seq<Event>)
      modifies sse, thinkParser
      ensures (sse.View(), out) == FlushParser(old(sse.View()), old(thinkParser.View()), env)
    {
      var rest := thinkParser.FlushRest();
      out := [];
      if rest.Some? {
        if rest.value.kind == TEXT {
          out := sse.EmitText(rest.value.content);
        } else if env.thinking {
          out := sse.EmitThinking(rest.value.content);
        }
      }
    }

    method FlushAliasBuffers() returns (out: seq<Event>)
      modifies sse
      ensures (sse.View(), out) == FlushAliases(old(sse.View()), old(sse.aliasOrder), env.rules)
    {
      out := [];
      var order := sse.aliasOrder;
      ghost var (end, emitted) := FlushAliases(sse.View(), order, env.rules);
      for k := 0 to |order|
        invariant FlushAliases(sse.View(), order[k..], env.rules).0 == end
        invariant out + FlushAliases(sse.View(), order[k..], env.rules).1 == emitted
      {
        assert order[k..][0] == order[k] && order[k..][1..] == order[k + 1..];
        var more := FlushAliasBuffer(order[k]);
        Associate(out, more, FlushAliases(sse.View(), order[k + 1..], env.rules).1);
        out := out + more;
      }
      assert order[|order|..] == [] && out + [] == out;
    }

    method FlushAliasBuffer(i: int) returns (out: seq<Event>)
      modifies sse
      ensures (sse.View(), out) == FlushAlias(old(sse.View()), i, env.rules)
    {
      out := [];
      var bufferedArgs := if i in sse.aliasBuffers then sse.aliasBuffers[i] else "";
      if bufferedArgs == "" {
        sse.PopAliasBuffer(i);
      } else if i in sse.toolStates && sse.toolStates[i].name != "Task" && env.rules.aliased(sse.toolStates[i].name) {
        var restored := env.rules.restore(sse.toolStates[i].name, bufferedArgs);
        out := sse.EmitToolDelta(i, if restored.Some? then restored.value else bufferedArgs);
        sse.PopAliasBuffer(i);
      }
    }

    /** Everything at the end of a stream but the end of the message. */
    method WindUp() returns (out: seq<Event>)
      modifies sse, thinkParser
      ensures (sse.View(), out) == Wind(old(View()), env)
    {
      out := FlushRemaining();
      var tools := EmitHeuristicTools(env.flush(heuristic));
      var filler := [];
      if NeedsPlaceholder(sse.View()) {
        filler := sse.EmitText(" ");
      }
      var aliased := FlushAliasBuffers();
      var args := FlushTaskArgBuffers();
      var closing := sse.CloseAllBlocks();
      out := out + tools + filler + aliased + args + closing;
    }

    method Finish(counted: Option<int>) returns (out: seq<Event>, done: bool)
      modifies sse, thinkParser
      ensures (out, done) == SuccessTail(old(View()), env, counted)
    {
      out := WindUp();
      var outputTokens := counted;
      if outputTokens.None? {
        var estimated := sse.EstimateOutputTokens(env.encoder);
        if estimated.None? {
          return out, false;
        }
        outputTokens := Some(estimated.value);
      }
      return out + [MessageDelta(StopReason(finishReason), outputTokens.value), MessageStop], true;
    }

    /** The chunks, until they end, one raises, or the upstream fails. */
    method StreamChunks(chunks: seq<UpstreamChunk>, failure: Option<string>, crash: string, counted: Option<int>)
      returns (out: seq<Event>, done: bool)
      modifies this, sse, thinkParser
      ensures var (s, sent, raised) := ProcessChunks(old(View()), chunks, env);
              var (tail, end) := Tail(s, raised, failure, crash, env, counted);
              out == sent + tail && done == end
    {
      out := [];
      ghost var (end, emitted, failed) := ProcessChunks(View(), chunks, env);
      for k := 0 to |chunks|
        invariant ProcessChunks(View(), chunks[k..], env).0 == end
        invariant out + ProcessChunks(View(), chunks[k..], env).1 == emitted
        invariant ProcessChunks(View(), chunks[k..], env).2 == failed
      {
        assert chunks[k..][0] == chunks[k] && chunks[k..][1..] == chunks[k + 1..];
        ghost var s := View();
        var more, raised := HandleChunk(chunks[k]);
        ChunksUnfold(s, chunks[k..], env, View(), more, raised, out);
        out := out + more;
        if raised {
          var tail := Fail(crash);
          return out + tail, true;
        }
      }
      assert chunks[|chunks|..] == [] && out + [] == out;
      var tail;
      if failure.Some? {
        tail := Fail(failure.value);
        done := true;
      } else {
        tail, done := Finish(counted);
      }
      out := out + tail;
    }

    /** One response. The body is built before anything is sent; a failure to open the upstream is rendered
        or raised. */
    method StreamResponse(messageId: string, upstream: Upstream, mode: OnOpenError, crash: string)
      returns (out: seq<Event>, outcome: Outcome)
      modifies this, sse, thinkParser
      requires View() == Begin(heuristic)
      ensures Attempt(out, outcome) == Attempted(messageId, old(heuristic), upstream, mode, crash, env)
    {
      if upstream.body.Some? {
        return [], Escaping(upstream.body.value.mapped);
      }
      out := [MessageStart(messageId)];
      if upstream.opening.Some? && mode == Raise {
        return out, Escaping(upstream.opening.value.mapped);
      }
      var more, done;
      ghost var sent: seq<Event> := [];
      if upstream.opening.Some? {
        more := Fail(upstream.opening.value.shown);
        done := true;
        assert ProcessChunks(Begin(old(heuristic)), [], env) == (Begin(old(heuristic)), sent, false);
      } else {
        sent := ProcessChunks(Begin(old(heuristic)), upstream.chunks, env).1;
        more, done := StreamChunks(upstream.chunks, upstream.failure, crash, upstream.counted);
      }
      assert more == sent + more[|sent|..];
      Associate(out, sent, more[|sent|..]);
      return out + more, if done then Completes else OtherException;
    }
  }
}
