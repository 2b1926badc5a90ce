/** The whole response: what the client is told, how the message ends, and what becomes of text that is
    passed through. */
module OpenAIResponseContent {
  import opened Prelude
  import opened SseEvents
  import opened StreamContract
  import opened SseBuilder
  import opened ThinkTags
  import opened OpenAIStream
  import opened OpenAIContract
  import opened OpenAIContent
  import opened OpenAIContentRuns
  import opened ToolArguments
  import opened ToolArgumentTotals

  // ---------------------------------------------------------------------------------------------
  // The end of a response
  // ---------------------------------------------------------------------------------------------

  lemma {:induction false} StopsAreMute(tools: map<int, ToolCallState>, order: seq<int>)
    ensures Mute(ToolStops(tools, order))
  {
    if order != [] {
      StopsAreMute(tools, order[1..]);
    }
  }

  lemma MuteBoth(a: seq<Event>, b: seq<Event>)
    requires Mute(a) && Mute(b)
    ensures Mute(a + b)
  {
  }

  lemma ClosingIsMute(b: Blocks)
    ensures var (b1, out) := CloseAll(b); Mute(out) && b1.tools == b.tools
  {
    var (b1, out1) := CloseContent(b);
    StopsAreMute(b1.tools, b1.toolOrder);
    MuteBoth(out1, ToolStops(b1.tools, b1.toolOrder));
  }

  lemma ErrorTells<H>(out: seq<Event>, message: string, env: Env<H>)
    requires Mute(out)
    ensures Tells(out + [ErrorEvent(message)] + [MessageDelta("end_turn", 1), MessageStop], [], env)
  {
    MuteBoth(out, [ErrorEvent(message)]);
    MuteBoth(out + [ErrorEvent(message)], [MessageDelta("end_turn", 1), MessageStop]);
    MuteTells(out + [ErrorEvent(message)] + [MessageDelta("end_turn", 1), MessageStop], env);
  }

  lemma ErrorBlockTells<H>(out: seq<Event>, i: int, message: string, env: Env<H>)
    requires Mute(out)
    ensures Tells(out + ErrorBlock(i, message) + [MessageDelta("end_turn", 1), MessageStop], [Says(message)], env)
  {
    var block, end := ErrorBlock(i, message), [MessageDelta("end_turn", 1), MessageStop];
    OneTells(out + [block[0]], block[1], [block[2]] + end, Says(message), env);
    assert out + block + end == out + [block[0]] + [block[1]] + ([block[2]] + end);
  }

  lemma FailureTells<H>(b: Blocks, wants: seq<Want>, message: string, env: Env<H>)
    requires Faces(b, wants)
    ensures Tells(FailureTail(b, message), FailureWants(wants, message), env)
  {
    var (b1, out) := CloseAll(b);
    ClosingIsMute(b);
    assert HasStartedTool(b1) <==> HasStartedTool(b);
    if HasStarted(wants) {
      ErrorTells(out, message, env);
    } else {
      ErrorBlockTells(out, b1.nextIndex, message, env);
    }
  }

  lemma RestTells<H>(b: Blocks, wants: seq<Want>, r: Reading<H>, env: Env<H>)
    requires Faces(b, wants)
    ensures var (b1, out1) := FlushParser(b, r.parser, env);
            var (b2, out2) := HeuristicTools(b1, env.flush(r.heuristic));
            Faces(b2, wants + WantRest(r, env)) && Tells(out1 + out2, WantRest(r, env), env) && b2.tools == b.tools
  {
    var (b1, out1) := FlushParser(b, r.parser, env);
    var last := WantFlush(r.parser, env);
    FlushFaces(b, wants, r.parser, env);
    FindAllFaces(b1, wants + last, env.flush(r.heuristic), env);
    WantsRegroup(wants, last, Found(env.flush(r.heuristic)));
    TellsBoth(out1, last, HeuristicTools(b1, env.flush(r.heuristic)).1, Found(env.flush(r.heuristic)), env);
  }

  lemma FlushFaces<H>(b: Blocks, wants: seq<Want>, p: Parser, env: Env<H>)
    requires Faces(b, wants)
    ensures var (b1, out1) := FlushParser(b, p, env);
            Faces(b1, wants + WantFlush(p, env)) && Tells(out1, WantFlush(p, env), env) && b1.tools == b.tools
  {
    NoMoreWants(wants);
    MuteTells([], env);
    match ThinkTags.Flush(p).1
    case None =>
    case Some(rest) =>
      if rest.kind == TEXT {
        SayFaces(b, wants, rest.content, env);
      } else if env.thinking {
        ThinkFaces(b, wants, rest.content, env);
      }
  }

  lemma FillerTells<H>(b: Blocks, wants: seq<Want>, env: Env<H>)
    requires Faces(b, wants)
    ensures Tells(Placeholder(b).1, Filler(wants), env)
  {
    MuteTells([], env);
    SayFaces(b, wants, " ", env);
  }

  lemma FlushAliasIsMute(b: Blocks, i: int, rules: ArgRules)
    ensures Mute(FlushAlias(b, i, rules).1)
  {
  }

  lemma {:induction false} FlushingIsMute(b: Blocks, order: seq<int>, rules: ArgRules)
    ensures Mute(FlushAliases(b, order, rules).1) && Mute(FlushTaskArgs(b, order, rules.parse).1)
    decreases order
  {
    if order != [] {
      var (b1, out1) := FlushAlias(b, order[0], rules);
      FlushAliasIsMute(b, order[0], rules);
      FlushingIsMute(b1, order[1..], rules);
      MuteBoth(out1, FlushAliases(b1, order[1..], rules).1);
      TasksAreMute(b, order, rules.parse);
    }
  }

  lemma {:induction false} TasksAreMute(b: Blocks, order: seq<int>, parse: string -> TaskArgs)
    ensures Mute(FlushTaskArgs(b, order, parse).1)
    decreases order
  {
    if order != [] {
      var i := order[0];
      if i !in b.tools || b.tools[i].taskArgBuffer == "" || b.tools[i].taskArgsEmitted {
        TasksAreMute(b, order[1..], parse);
      } else {
        var parsed := parse(b.tools[i].taskArgBuffer);
        var json := if parsed.Normalized? then parsed.json else "{}";
        var b1 := PutTool(b, i, b.tools[i].(taskArgsEmitted := true, taskArgBuffer := ""));
        var (b2, out2) := ToolDelta(b1, i, json);
        TasksAreMute(b2, order[1..], parse);
        MuteBoth(out2, FlushTaskArgs(b2, order[1..], parse).1);
      }
    }
  }

  lemma LastPartIsMute(b: Blocks, rules: ArgRules)
    ensures var (b1, out1) := FlushAliases(b, b.aliasOrder, rules);
            var (b2, out2) := FlushTaskArgs(b1, b1.toolOrder, rules.parse);
            Mute(out1 + out2 + CloseAll(b2).1)
  {
    var (b1, out1) := FlushAliases(b, b.aliasOrder, rules);
    var (b2, out2) := FlushTaskArgs(b1, b1.toolOrder, rules.parse);
    FlushingIsMute(b, b.aliasOrder, rules);
    TasksAreMute(b1, b1.toolOrder, rules.parse);
    ClosingIsMute(b2);
    MuteBoth(out1, out2);
    MuteBoth(out1 + out2, CloseAll(b2).1);
  }

  lemma WindForm(a: seq<Event>, b: seq<Event>, c: seq<Event>, d: seq<Event>, e: seq<Event>, f: seq<Event>)
    ensures a + b + c + d + e + f == a + b + c + (d + e + f)
  {
  }

  lemma WindTells<H>(s: Session<H>, r: Reading<H>, wants: seq<Want>, env: Env<H>)
    requires Stands(s, r, wants)
    ensures var more := WantRest(r, env); Tells(Wind(s, env).1, more + Filler(wants + more), env)
  {
    var more := WantRest(r, env);
    var (b1, out1) := FlushParser(s.blocks, s.parser, env);
    var (b2, out2) := HeuristicTools(b1, env.flush(s.heuristic));
    var (b3, out3) := Placeholder(b2);
    var (b4, out4) := FlushAliases(b3, b3.aliasOrder, env.rules);
    var (b5, out5) := FlushTaskArgs(b4, b4.toolOrder, env.rules.parse);
    RestTells(s.blocks, wants, r, env);
    FillerTells(b2, wants + more, env);
    TellsBoth(out1 + out2, more, out3, Filler(wants + more), env);
    LastPartIsMute(b3, env.rules);
    MuteAfter(out1 + out2 + out3, more + Filler(wants + more), out4 + out5 + CloseAll(b5).1, env);
    WindForm(out1, out2, out3, out4, out5, CloseAll(b5).1);
  }

  lemma MuteAfter<H>(out: seq<Event>, wants: seq<Want>, more: seq<Event>, env: Env<H>)
    requires Tells(out, wants, env) && Mute(more)
    ensures Tells(out + more, wants, env)
  {
    MuteTells(more, env);
    TellsBoth(out, wants, more, [], env);
    NoMoreWants(wants);
  }

  // ---------------------------------------------------------------------------------------------
  // The whole response
  // ---------------------------------------------------------------------------------------------

  /** What is said after the chunks. */
  function WantTail<H>(r: Reading<H>, said: seq<Want>, failed: Option<string>, env: Env<H>): seq<Want> {
    match failed
    case Some(message) => FailureWants(said, message)
    case None => WantRest(r, env) + Filler(said + WantRest(r, env))
  }

  /** What a response says: what the chunks that were read ask for, and at the end what is left of it, or the
      message of the failure. */
  function WantResponse<H>(h: H, read: seq<UpstreamChunk>, failed: Option<string>, env: Env<H>): seq<Want> {
    var (r, said) := WantAll(Opening(h), read, env);
    said + WantTail(r, said, failed, env)
  }

  /** The message a failed response shows. */
  function FailureOf<H>(h: H, chunks: seq<UpstreamChunk>, failure: Option<string>, crash: string, env: Env<H>): Option<string> {
    if ProcessChunks(Begin(h), chunks, env).2 then Some(crash) else failure
  }

  lemma FreshStands<H>(h: H)
    ensures Stands(Begin(h), Opening(h), [])
  {
  }

  lemma EndTells<H>(out: seq<Event>, wants: seq<Want>, reason: string, count: int, env: Env<H>)
    requires Tells(out, wants, env)
    ensures Tells(out + [MessageDelta(reason, count), MessageStop], wants, env)
  {
    MuteAfter(out, wants, [MessageDelta(reason, count), MessageStop], env);
  }

  lemma SuccessTells<H>(s: Session<H>, r: Reading<H>, said: seq<Want>, env: Env<H>, counted: Option<int>)
    requires Stands(s, r, said)
    ensures Tells(SuccessTail(s, env, counted).0, WantRest(r, env) + Filler(said + WantRest(r, env)), env)
  {
    WindTells(s, r, said, env);
    var (wind, wants) := (Wind(s, env).1, WantRest(r, env) + Filler(said + WantRest(r, env)));
    var count := OutputTokens(s, env, counted);
    if count.Some? {
      EndTells(wind, wants, StopReason(s.finish), count.value, env);
    }
  }

  lemma TailTells<H>(s: Session<H>, r: Reading<H>, said: seq<Want>, raised: bool, failure: Option<string>, crash: string, env: Env<H>,
                     counted: Option<int>)
    requires Stands(s, r, said)
    ensures Tells(Tail(s, raised, failure, crash, env, counted).0, WantTail(r, said, if raised then Some(crash) else failure, env), env)
  {
    if raised {
      FailureTells(s.blocks, said, crash, env);
    } else if failure.Some? {
      FailureTells(s.blocks, said, failure.value, env);
    } else {
      SuccessTells(s, r, said, env, counted);
    }
  }

  lemma ChunksTell<H>(h: H, chunks: seq<UpstreamChunk>, env: Env<H>)
    ensures var (r, said) := WantAll(Opening(h), Read(Begin(h), chunks, env), env);
            var (s, out, raised) := ProcessChunks(Begin(h), chunks, env);
            Stands(s, r, said) && Tells(out, said, env)
  {
    FreshStands(h);
    ChunksFace(Begin(h), Opening(h), [], chunks, env);
    NoMoreWants(WantAll(Opening(h), Read(Begin(h), chunks, env), env).1);
  }

  lemma WholeTells<H>(messageId: string, out: seq<Event>, said: seq<Want>, tail: seq<Event>, more: seq<Want>, env: Env<H>)
    requires Tells(out, said, env) && Tells(tail, more, env)
    ensures Tells([MessageStart(messageId)] + out + tail, said + more, env)
  {
    MuteTells([MessageStart(messageId)], env);
    TellsBoth([MessageStart(messageId)], [], out, said, env);
    assert [] + said == said;
    TellsBoth([MessageStart(messageId)] + out, said, tail, more, env);
  }

  /** For every response: the client is told exactly what the chunks that were read ask for, in their order:
      reasoning and tagged thinking if thinking is enabled, the text that the heuristic parser leaves, the tool
      uses it finds, and each native call, with the last id received for it and the name put together when it
      first has one. Unless a call makes the stream raise, all chunks are read. */
  lemma ResponseSays<H>(messageId: string, h: H, chunks: seq<UpstreamChunk>, failure: Option<string>, crash: string, env: Env<H>,
                        counted: Option<int>)
    ensures var es := Response(messageId, h, chunks, failure, crash, env, counted).0;
            var read := Read(Begin(h), chunks, env);
            && Tells(es, WantResponse(h, read, FailureOf(h, chunks, failure, crash, env), env), env)
            && (!ProcessChunks(Begin(h), chunks, env).2 ==> read == chunks)
  {
    var (s, out, raised) := ProcessChunks(Begin(h), chunks, env);
    var (r, said) := WantAll(Opening(h), Read(Begin(h), chunks, env), env);
    ChunksTell(h, chunks, env);
    AllIsRead(Begin(h), chunks, env);
    TailTells(s, r, said, raised, failure, crash, env, counted);
    WholeTells(messageId, out, said, Tail(s, raised, failure, crash, env, counted).0,
               WantTail(r, said, FailureOf(h, chunks, failure, crash, env), env), env);
  }

  // ---------------------------------------------------------------------------------------------
  // How the message ends
  // ---------------------------------------------------------------------------------------------

  function ReasonFor(finish: Option<string>): string {
    if finish == Some("length") then "max_tokens" else if finish == Some("tool_calls") then "tool_use" else "end_turn"
  }

  predicate EndsWith(es: seq<Event>, end: seq<Event>) {
    |end| <= |es| && es[|es| - |end|..] == end
  }

  lemma EndsAfter(a: seq<Event>, b: seq<Event>, end: seq<Event>)
    requires EndsWith(b, end)
    ensures EndsWith(a + b, end)
  {
  }

  lemma EndsHere(a: seq<Event>, end: seq<Event>)
    ensures EndsWith(a + end, end)
  {
  }

  /** The last events of a stream that failed. */
  function FailureEnd(said: seq<Want>, message: string): seq<Event> {
    (if HasStarted(said) then [ErrorEvent(message)] else []) + [MessageDelta("end_turn", 1), MessageStop]
  }

  lemma FailureEnds(b: Blocks, said: seq<Want>, message: string)
    requires Faces(b, said)
    ensures EndsWith(FailureTail(b, message), FailureEnd(said, message))
  {
    var (b1, out) := CloseAll(b);
    var end := [MessageDelta("end_turn", 1), MessageStop];
    ClosingIsMute(b);
    assert HasStartedTool(b1) <==> HasStartedTool(b);
    if HasStarted(said) {
      assert out + [ErrorEvent(message)] + end == out + ([ErrorEvent(message)] + end);
      EndsHere(out, [ErrorEvent(message)] + end);
    } else {
      assert [] + end == end;
      EndsHere(out + EmitError(b1, message).1, end);
    }
  }

  lemma SuccessEnds<H>(s: Session<H>, env: Env<H>, counted: Option<int>, count: int)
    requires OutputTokens(s, env, counted) == Some(count)
    ensures var (tail, done) := SuccessTail(s, env, counted);
            done && EndsWith(tail, [MessageDelta(ReasonFor(s.finish), count), MessageStop])
  {
    EndsHere(Wind(s, env).1, [MessageDelta(ReasonFor(s.finish), count), MessageStop]);
  }

  /** The response, as its tail has it. */
  lemma TailIsLast<H>(messageId: string, h: H, chunks: seq<UpstreamChunk>, failure: Option<string>, crash: string, env: Env<H>,
                      counted: Option<int>, end: seq<Event>)
    requires var (s, out, raised) := ProcessChunks(Begin(h), chunks, env);
             EndsWith(Tail(s, raised, failure, crash, env, counted).0, end)
    ensures EndsWith(Response(messageId, h, chunks, failure, crash, env, counted).0, end)
  {
    var (s, out, raised) := ProcessChunks(Begin(h), chunks, env);
    EndsAfter([MessageStart(messageId)] + out, Tail(s, raised, failure, crash, env, counted).0, end);
  }

  /** A response that fails ends its message in the ordinary way, after an error event if a native call was
      started. */
  lemma FailedResponseEnds<H>(messageId: string, h: H, chunks: seq<UpstreamChunk>, failure: Option<string>, crash: string, env: Env<H>,
                              counted: Option<int>)
    requires FailureOf(h, chunks, failure, crash, env).Some?
    ensures var said := WantAll(Opening(h), Read(Begin(h), chunks, env), env).1;
            EndsWith(Response(messageId, h, chunks, failure, crash, env, counted).0,
                     FailureEnd(said, FailureOf(h, chunks, failure, crash, env).value))
  {
    var said := WantAll(Opening(h), Read(Begin(h), chunks, env), env).1;
    var message := FailureOf(h, chunks, failure, crash, env).value;
    ChunksTell(h, chunks, env);
    FailureEnds(ProcessChunks(Begin(h), chunks, env).0.blocks, said, message);
    TailIsLast(messageId, h, chunks, failure, crash, env, counted, FailureEnd(said, message));
  }

  /** One that does not, and is ended, has the stop reason for the last reason the upstream gave, and the
      upstream's count if it counted. */
  lemma ResponseEnds<H>(messageId: string, h: H, chunks: seq<UpstreamChunk>, crash: string, env: Env<H>, counted: Option<int>)
    requires !ProcessChunks(Begin(h), chunks, env).2
    ensures var (es, done) := Response(messageId, h, chunks, None, crash, env, counted);
            var reason := ReasonFor(WantAll(Opening(h), chunks, env).0.finish);
            && (counted.Some? ==> done && EndsWith(es, [MessageDelta(reason, counted.value), MessageStop]))
            && (done ==> exists count :: EndsWith(es, [MessageDelta(reason, count), MessageStop]))
  {
    var s := ProcessChunks(Begin(h), chunks, env).0;
    var reason := ReasonFor(s.finish);
    ChunksTell(h, chunks, env);
    AllIsRead(Begin(h), chunks, env);
    var count := OutputTokens(s, env, counted);
    if count.Some? {
      SuccessEnds(s, env, counted, count.value);
      TailIsLast(messageId, h, chunks, None, crash, env, counted, [MessageDelta(reason, count.value), MessageStop]);
    }
  }

  // ---------------------------------------------------------------------------------------------
  // The estimate of tokens
  // ---------------------------------------------------------------------------------------------

  function StartedOf(tools: map<int, ToolCallState>, order: seq<int>): set<int> {
    set i | i in order && i in tools && tools[i].started
  }

  lemma {:induction false} StartedCountIs(tools: map<int, ToolCallState>, order: seq<int>)
    requires Distinct(order)
    ensures StartedCount(tools, order) == |StartedOf(tools, order)|
  {
    if order != [] {
      var first, rest := order[0], order[1..];
      StartedCountIs(tools, rest);
      assert order == [first] + rest && first !in rest;
      var one := if first in tools && tools[first].started then {first} else {};
      SameSet(StartedOf(tools, order), StartedOf(tools, rest) + one);
    }
  }

  /** A fourth of the characters, and fifty for each native call. */
  function Estimated(wants: seq<Want>): nat {
    |SaidText(wants)| / 4 + |ThoughtText(wants)| / 4 + 50 * StartsIn(wants)
  }

  lemma StartedCountOf(b: Blocks, wants: seq<Want>)
    requires Faces(b, wants) && TablesOk(b)
    ensures StartedCount(b.tools, b.toolOrder) == StartsIn(wants)
  {
    StartedCountIs(b.tools, b.toolOrder);
    SameSet(StartedOf(b.tools, b.toolOrder), StartedTools(b));
  }

  /** The estimate for what has been said, by lengths. */
  lemma EstimateByLength(b: Blocks, wants: seq<Want>)
    requires Faces(b, wants) && TablesOk(b)
    ensures EstimateTokens(b, None) == Some(Estimated(wants))
  {
    StartedCountOf(b, wants);
  }

  function NamesOf(tools: map<int, ToolCallState>, order: seq<int>): seq<string> {
    if order == [] then []
    else (if order[0] in tools then [tools[order[0]].name] else []) + NamesOf(tools, order[1..])
  }

  function ArgumentsOf(tools: map<int, ToolCallState>, order: seq<int>): seq<string> {
    if order == [] then []
    else (if order[0] in tools then [Concat(tools[order[0]].contents)] else []) + ArgumentsOf(tools, order[1..])
  }

  /** The tokens of some texts, if the encoder takes them all. */
  function TokensOf(texts: seq<string>, encode: Encoder): Option<nat> {
    if texts == [] then Some(0)
    else
      var first, rest := encode(texts[0]), TokensOf(texts[1..], encode);
      if first == None || rest == None then None else Some(first.value + rest.value)
  }

  lemma TokensNext(text: string, texts: seq<string>, encode: Encoder)
    ensures TokensOf([text] + texts, encode)
         == var first, rest := encode(text), TokensOf(texts, encode);
            if first == None || rest == None then None else Some(first.value + rest.value)
  {
    assert ([text] + texts)[0] == text && ([text] + texts)[1..] == texts;
  }

  /** The tools cost the tokens of their names and arguments, and fifteen each. */
  lemma {:induction false} ToolTokensMeaning(tools: map<int, ToolCallState>, order: seq<int>, encode: Encoder)
    ensures var names, arguments := NamesOf(tools, order), ArgumentsOf(tools, order);
            ToolTokens(tools, order, encode) ==
            if TokensOf(names, encode) == None || TokensOf(arguments, encode) == None then None
            else Some(TokensOf(names, encode).value + TokensOf(arguments, encode).value + 15 * |names|)
  {
    if order != [] {
      ToolTokensMeaning(tools, order[1..], encode);
      if order[0] in tools {
        TokensNext(tools[order[0]].name, NamesOf(tools, order[1..]), encode);
        TokensNext(Concat(tools[order[0]].contents), ArgumentsOf(tools, order[1..]), encode);
      } else {
        assert [] + NamesOf(tools, order[1..]) == NamesOf(tools, order[1..]);
        assert [] + ArgumentsOf(tools, order[1..]) == ArgumentsOf(tools, order[1..]);
      }
    }
  }

  /** The estimate for what has been said, with an encoder: its tokens, those of the names and the arguments of
      the native calls and fifteen for each, and four for each kind of text and each call that was started. */
  lemma EstimateByTokens(b: Blocks, wants: seq<Want>, encode: Encoder)
    requires Faces(b, wants) && TablesOk(b)
    ensures var said, thought := encode(SaidText(wants)), encode(ThoughtText(wants));
            var names, arguments := TokensOf(NamesOf(b.tools, b.toolOrder), encode), TokensOf(ArgumentsOf(b.tools, b.toolOrder), encode);
            EstimateTokens(b, Some(encode)) ==
            if said == None || thought == None || names == None || arguments == None then None
            else Some(said.value + thought.value + names.value + arguments.value + 15 * |NamesOf(b.tools, b.toolOrder)|
                      + 4 * ((if SaidText(wants) == "" then 0 else 1) + (if ThoughtText(wants) == "" then 0 else 1) + StartsIn(wants)))
  {
    StartedCountOf(b, wants);
    ToolTokensMeaning(b.tools, b.toolOrder, encode);
  }

  lemma FlushAliasFace(b: Blocks, i: int, rules: ArgRules)
    ensures SameFace(b, FlushAlias(b, i, rules).0)
  {
    if AliasBuffer(b, i) != "" && i in b.tools && b.tools[i].name != "Task" && rules.aliased(b.tools[i].name) {
      var restored := rules.restore(b.tools[i].name, AliasBuffer(b, i));
      DeltaFace(b, i, if restored.Some? then restored.value else AliasBuffer(b, i));
    }
  }

  lemma {:induction false} FlushAliasesFace(b: Blocks, order: seq<int>, rules: ArgRules)
    ensures SameFace(b, FlushAliases(b, order, rules).0)
    decreases order
  {
    if order != [] {
      var b1 := FlushAlias(b, order[0], rules).0;
      FlushAliasFace(b, order[0], rules);
      FlushAliasesFace(b1, order[1..], rules);
      SameFaceThen(b, b1, FlushAliases(b1, order[1..], rules).0);
    }
  }

  lemma FlushedFace(b: Blocks, i: int, json: string)
    requires i in b.tools
    ensures SameFace(b, FlushedOne(b, i, json).0)
  {
    var b1 := PutTool(b, i, b.tools[i].(taskArgsEmitted := true, taskArgBuffer := ""));
    DeltaFace(b1, i, json);
    SameFaceThen(b, b1, ToolDelta(b1, i, json).0);
  }

  lemma {:induction false} FlushTasksFace(b: Blocks, order: seq<int>, parse: string -> TaskArgs)
    ensures SameFace(b, FlushTaskArgs(b, order, parse).0)
    decreases order
  {
    if order != [] {
      var i := order[0];
      if i !in b.tools || b.tools[i].taskArgBuffer == "" || b.tools[i].taskArgsEmitted {
        FlushTasksFace(b, order[1..], parse);
      } else {
        var parsed := parse(b.tools[i].taskArgBuffer);
        var json := if parsed.Normalized? then parsed.json else "{}";
        var b2 := FlushedOne(b, i, json).0;
        FlushedFace(b, i, json);
        FlushTasksFace(b2, order[1..], parse);
        SameFaceThen(b, b2, FlushTaskArgs(b2, order[1..], parse).0);
      }
    }
  }

  lemma LastPartFaces(b3: Blocks, wants: seq<Want>, rules: ArgRules)
    requires Faces(b3, wants)
    ensures var b4 := FlushAliases(b3, b3.aliasOrder, rules).0;
            var b5 := FlushTaskArgs(b4, b4.toolOrder, rules.parse).0;
            Faces(CloseAll(b5).0, wants)
  {
    var b4 := FlushAliases(b3, b3.aliasOrder, rules).0;
    var b5 := FlushTaskArgs(b4, b4.toolOrder, rules.parse).0;
    FlushAliasesFace(b3, b3.aliasOrder, rules);
    SameFaceKeeps(b3, b4, wants, []);
    FlushTasksFace(b4, b4.toolOrder, rules.parse);
    SameFaceKeeps(b4, b5, wants, []);
  }

  lemma FillerFaces<H>(b: Blocks, wants: seq<Want>, env: Env<H>)
    requires Faces(b, wants)
    ensures Faces(Placeholder(b).0, wants + Filler(wants))
  {
    NoMoreWants(wants);
    SayFaces(b, wants, " ", env);
  }

  lemma WindFaces<H>(s: Session<H>, r: Reading<H>, wants: seq<Want>, env: Env<H>)
    requires Stands(s, r, wants)
    ensures var more := wants + WantRest(r, env); Faces(Wind(s, env).0, more + Filler(more))
  {
    var more := wants + WantRest(r, env);
    var b1 := FlushParser(s.blocks, s.parser, env).0;
    var b2 := HeuristicTools(b1, env.flush(s.heuristic)).0;
    RestTells(s.blocks, wants, r, env);
    FillerFaces(b2, more, env);
    LastPartFaces(Placeholder(b2).0, more + Filler(more), env.rules);
  }

  lemma LastPartTables(b3: Blocks, c3: Check, rules: ArgRules)
    requires Sim(b3, c3)
    ensures var b4 := FlushAliases(b3, b3.aliasOrder, rules).0;
            var b5 := FlushTaskArgs(b4, b4.toolOrder, rules.parse).0;
            TablesOk(CloseAll(b5).0)
  {
    FlushAliasesKeep(b3, c3, b3.aliasOrder, rules);
    var (b4, out4) := FlushAliases(b3, b3.aliasOrder, rules);
    FlushTaskArgsKeeps(b4, Fold(c3, out4).value, b4.toolOrder, rules.parse);
    SameTables(FlushTaskArgs(b4, b4.toolOrder, rules.parse).0);
  }

  lemma SameTables(b: Blocks)
    requires TablesOk(b)
    ensures TablesOk(CloseAll(b).0)
  {
    var b1 := CloseAll(b).0;
    assert b1.tools == b.tools && b1.toolOrder == b.toolOrder && b1.aliasBuffers == b.aliasBuffers && b1.aliasOrder == b.aliasOrder;
  }

  lemma WindTables<H>(s: Session<H>, c: Check, env: Env<H>)
    requires Sim(s.blocks, c)
    ensures TablesOk(Wind(s, env).0)
  {
    LastTextKeeps(s, c, env);
    var (b1, out1) := FlushParser(s.blocks, s.parser, env);
    var (b2, out2) := HeuristicTools(b1, env.flush(s.heuristic));
    var (b3, out3) := Placeholder(b2);
    LastPartTables(b3, Fold(c, out1 + out2 + out3).value, env.rules);
  }

  lemma WindEstimate<H>(s: Session<H>, r: Reading<H>, said: seq<Want>, c: Check, env: Env<H>)
    requires Stands(s, r, said) && Sim(s.blocks, c) && env.encoder == None
    ensures OutputTokens(s, env, None) == Some(Estimated(said + (WantRest(r, env) + Filler(said + WantRest(r, env)))))
  {
    var more := said + WantRest(r, env);
    WindFaces(s, r, said, env);
    WindTables(s, c, env);
    EstimateByLength(Wind(s, env).0, more + Filler(more));
    WantsRegroup(said, WantRest(r, env), Filler(more));
  }

  lemma CountIs<H>(h: H, chunks: seq<UpstreamChunk>, env: Env<H>)
    requires !ProcessChunks(Begin(h), chunks, env).2 && env.encoder == None
    ensures var s := ProcessChunks(Begin(h), chunks, env).0;
            && OutputTokens(s, env, None) == Some(Estimated(WantResponse(h, chunks, None, env)))
            && s.finish == WantAll(Opening(h), chunks, env).0.finish
  {
    var (s, out, raised) := ProcessChunks(Begin(h), chunks, env);
    var (r, said) := WantAll(Opening(h), chunks, env);
    ChunksTell(h, chunks, env);
    AllIsRead(Begin(h), chunks, env);
    FreshSim();
    ChunksKeep(Begin(h), EMPTY, chunks, env);
    WindEstimate(s, r, said, Fold(EMPTY, out).value, env);
  }

  /** Where the upstream does not count and there is no encoder, a response that does not fail counts a fourth
      of the characters it has shown, and fifty for each native call. */
  lemma EstimatedResponse<H>(messageId: string, h: H, chunks: seq<UpstreamChunk>, crash: string, env: Env<H>)
    requires !ProcessChunks(Begin(h), chunks, env).2 && env.encoder == None
    ensures var (es, done) := Response(messageId, h, chunks, None, crash, env, None);
            var reason, count := ReasonFor(WantAll(Opening(h), chunks, env).0.finish), Estimated(WantResponse(h, chunks, None, env));
            done && EndsWith(es, [MessageDelta(reason, count), MessageStop])
  {
    var s := ProcessChunks(Begin(h), chunks, env).0;
    var count := Estimated(WantResponse(h, chunks, None, env));
    CountIs(h, chunks, env);
    SuccessEnds(s, env, None, count);
    TailIsLast(messageId, h, chunks, None, crash, env, None, [MessageDelta(ReasonFor(s.finish), count), MessageStop]);
  }

  // ---------------------------------------------------------------------------------------------
  // Tool uses found in the text
  // ---------------------------------------------------------------------------------------------

  lemma {:induction false} SeenStays(c: Check, es: seq<Event>, d: int)
    requires Fold(c, es).Some? && d in c.seen
    ensures d in Fold(c, es).value.seen
    decreases es
  {
    if es != [] {
      SeenStays(Step(c, es[0]).value, es[1..], d);
    }
  }

  /** Before a block is started, nothing is sent to it. */
  lemma {:induction false} NothingEarlier(c: Check, es: seq<Event>, d: int)
    requires Fold(c, es).Some? && d !in Fold(c, es).value.seen && (forall i | i in c.open :: i in c.seen)
    ensures Silent(es, d)
    decreases es
  {
    if es != [] {
      if d in c.seen {
        SeenStays(c, es, d);
      }
      NothingEarlier(Step(c, es[0]).value, es[1..], d);
      assert forall k | 1 <= k < |es| :: es[k] == es[1..][k - 1];
    }
  }

  /** Nor after it has been stopped. */
  lemma {:induction false} NothingLater(c: Check, es: seq<Event>, d: int)
    requires Fold(c, es).Some? && d in c.seen && d !in c.open
    ensures Silent(es, d)
    decreases es
  {
    if es != [] {
      NothingLater(Step(c, es[0]).value, es[1..], d);
      assert forall k | 1 <= k < |es| :: es[k] == es[1..][k - 1];
    }
  }

  lemma WholeIsAll(es: seq<Event>, p: int, d: int, input: string)
    requires Fold(EMPTY, es).Some? && WholeAt(es, p, d, input)
    ensures Payloads(es, d) == [input]
  {
    var before, start, delta, stop, after := es[..p], es[p], es[p + 1], es[p + 2], es[p + 3..];
    var whole := [start] + [delta] + [stop];
    assert es == before + (whole + after);
    FoldAppend(EMPTY, before, whole + after);
    var c := Fold(EMPTY, before).value;
    FoldAppend(c, whole, after);
    FoldAppend(c, [start] + [delta], [stop]);
    FoldAppend(c, [start], [delta]);
    FoldOne(c, start);
    var c1 := Step(c, start).value;
    FoldOne(c1, delta);
    FoldOne(c1, stop);
    NothingEarlier(EMPTY, before, d);
    NothingLater(Step(c1, stop).value, after, d);
    WholePayload(before, start, delta, stop, after, d, input);
  }

  lemma WholePayload(before: seq<Event>, start: Event, delta: Event, stop: Event, after: seq<Event>, d: int, input: string)
    requires Silent(before, d) && Silent(after, d) && start.BlockStart? && stop.BlockStop? && delta == BlockDelta(d, InputJsonDelta(input))
    ensures Payloads(before + ([start] + [delta] + [stop] + after), d) == [input]
  {
    SilentHasNone(before, d);
    SilentHasNone(after, d);
    SilentHasNone([start], d);
    SilentHasNone([stop], d);
    assert [delta][1..] == [];
    PayloadsAppend([start], [delta], d);
    PayloadsAppend([start] + [delta], [stop], d);
    PayloadsAppend([start] + [delta] + [stop], after, d);
    PayloadsAppend(before, [start] + [delta] + [stop] + after, d);
  }

  lemma ResponseIsLegal<H>(messageId: string, h: H, chunks: seq<UpstreamChunk>, failure: Option<string>, crash: string, env: Env<H>,
                           counted: Option<int>)
    ensures Fold(EMPTY, Response(messageId, h, chunks, failure, crash, env, counted).0).Some?
  {
    var (s, out, raised) := ProcessChunks(Begin(h), chunks, env);
    FreshSim();
    ChunksKeep(Begin(h), EMPTY, chunks, env);
    TailCompletes(s, Fold(EMPTY, out).value, raised, failure, crash, env, counted);
    FoldOne(EMPTY, MessageStart(messageId));
    FoldAppend(EMPTY, [MessageStart(messageId)], out);
    FoldAppend(EMPTY, [MessageStart(messageId)] + out, Tail(s, raised, failure, crash, env, counted).0);
  }

  /** For every response: the block of a tool use that was found in the text gets its input, in one piece, and
      nothing else. */
  lemma FoundToolsAreWhole<H>(messageId: string, h: H, chunks: seq<UpstreamChunk>, failure: Option<string>, crash: string, env: Env<H>,
                              counted: Option<int>, k: int)
    requires var wants := WantResponse(h, Read(Begin(h), chunks, env), FailureOf(h, chunks, failure, crash, env), env);
             0 <= k < |wants| && wants[k].Finds?
    ensures var es := Response(messageId, h, chunks, failure, crash, env, counted).0;
            var wants := WantResponse(h, Read(Begin(h), chunks, env), FailureOf(h, chunks, failure, crash, env), env);
            |Items(es)| == |wants| && Items(es)[k].Called? && Payloads(es, Items(es)[k].number) == [wants[k].tool.input]
  {
    var es := Response(messageId, h, chunks, failure, crash, env, counted).0;
    var wants := WantResponse(h, Read(Begin(h), chunks, env), FailureOf(h, chunks, failure, crash, env), env);
    ResponseSays(messageId, h, chunks, failure, crash, env, counted);
    ResponseIsLegal(messageId, h, chunks, failure, crash, env, counted);
    assert IsWhole(es, Items(es)[k], wants[k]);
    var p :| WholeAt(es, p, Items(es)[k].number, wants[k].tool.input);
    WholeIsAll(es, p, Items(es)[k].number, wants[k].tool.input);
  }

  // ---------------------------------------------------------------------------------------------
  // Text that is passed through
  // ---------------------------------------------------------------------------------------------

  /** The heuristic parser finds nothing and leaves the text as it is. */
  ghost predicate PassesThrough<H(!new)>(env: Env<H>) {
    && (forall h: H, text: string :: env.feed(h, text).1 == text && env.feed(h, text).2 == [])
    && (forall h: H :: env.flush(h) == [])
  }

  /** The texts of the chunks. */
  function Contents(chunks: seq<UpstreamChunk>): seq<string> {
    if chunks == [] then []
    else (if chunks[0].Delta? && chunks[0].content != "" then [chunks[0].content] else []) + Contents(chunks[1..])
  }

  /** The characters of one kind. */
  function Chars(kind: ContentType, typed: seq<Typed>): string {
    if typed == [] then "" else Chars(kind, typed[..|typed| - 1]) + if typed[|typed| - 1].kind == kind then [typed[|typed| - 1].c] else []
  }

  lemma {:induction false} CharsAppend(kind: ContentType, a: seq<Typed>, b: seq<Typed>)
    ensures Chars(kind, a + b) == Chars(kind, a) + Chars(kind, b)
  {
    if b == [] {
      assert a + b == a;
    } else {
      assert (a + b)[..|a + b| - 1] == a + b[..|b| - 1];
      CharsAppend(kind, a, b[..|b| - 1]);
    }
  }

  lemma {:induction false} CharsOfText(kind: ContentType, text: string)
    ensures Chars(kind, TypedText(kind, text)) == text
    ensures forall other | other != kind :: Chars(other, TypedText(kind, text)) == ""
    decreases |text|
  {
    if text != "" {
      var front := text[..|text| - 1];
      CharsOfText(kind, front);
      assert TypedText(kind, text)[..|text| - 1] == TypedText(kind, front);
      assert text == front + [text[|text| - 1]];
    }
  }

  lemma {:induction false} TextsAppend(a: seq<Want>, b: seq<Want>)
    ensures SaidText(a + b) == SaidText(a) + SaidText(b) && ThoughtText(a + b) == ThoughtText(a) + ThoughtText(b)
  {
    if b == [] {
      assert a + b == a;
    } else {
      assert (a + b)[..|a + b| - 1] == a + b[..|b| - 1];
      TextsAppend(a, b[..|b| - 1]);
    }
  }

  lemma TextsOfOne(w: Want)
    ensures SaidText([w]) == (if w.Says? then w.text else "") && ThoughtText([w]) == (if w.Thinks? then w.text else "")
  {
    assert [w][..0] == [];
    assert "" + SaidText([w]) == SaidText([w]);
  }

  /** What the wants say is the text of that kind; thinking only if it is enabled. */
  ghost predicate SaysTyped<H>(wants: seq<Want>, typed: seq<Typed>, env: Env<H>) {
    SaidText(wants) == Chars(TEXT, typed) && (ThoughtText(wants) == if env.thinking then Chars(THINKING, typed) else "")
  }

  lemma TypedBoth<H>(x: seq<Want>, a: seq<Typed>, y: seq<Want>, b: seq<Typed>, env: Env<H>)
    requires SaysTyped(x, a, env) && SaysTyped(y, b, env)
    ensures SaysTyped(x + y, a + b, env)
  {
    TextsAppend(x, y);
    CharsAppend(TEXT, a, b);
    CharsAppend(THINKING, a, b);
  }

  lemma PartTyped<H(!new)>(h: H, part: ContentChunk, env: Env<H>)
    requires PassesThrough(env)
    ensures SaysTyped(WantPart(h, part, env).1, TypedText(part.kind, part.content), env)
  {
    CharsOfText(part.kind, part.content);
    if part.kind == THINKING {
      if env.thinking {
        TextsOfOne(Thinks(part.content));
      }
    } else {
      NoMoreWants(if part.content == "" then [] else [Says(part.content)]);
      TextsOfOne(Says(part.content));
    }
  }

  lemma {:induction false} PartsTyped<H(!new)>(h: H, parts: seq<ContentChunk>, env: Env<H>)
    requires PassesThrough(env)
    ensures SaysTyped(WantParts(h, parts, env).1, TypedChunks(parts), env)
    decreases parts
  {
    if parts != [] {
      var (h1, first) := WantPart(h, parts[0], env);
      PartTyped(h, parts[0], env);
      PartsTyped(h1, parts[1..], env);
      TypedBoth(first, TypedText(parts[0].kind, parts[0].content), WantParts(h1, parts[1..], env).1, TypedChunks(parts[1..]), env);
    }
  }

  predicate NoReasoning(chunks: seq<UpstreamChunk>) {
    forall k | 0 <= k < |chunks| && chunks[k].Delta? :: chunks[k].reasoning == ""
  }

  lemma {:induction false} CallsSayNothing(log: Log, tcs: seq<ToolCallDelta>)
    ensures SaidText(WantCalls(log, tcs)) == "" && ThoughtText(WantCalls(log, tcs)) == ""
    decreases tcs
  {
    if tcs != [] {
      var first := WantCall(log, tcs[0]);
      CallsSayNothing(LogCall(log, tcs[0]), tcs[1..]);
      TextsAppend(first, WantCalls(LogCall(log, tcs[0]), tcs[1..]));
      if first != [] {
        TextsOfOne(first[0]);
        assert first == [first[0]];
      }
    }
  }

  lemma ChunkTyped<H(!new)>(r: Reading<H>, chunk: UpstreamChunk, env: Env<H>)
    requires PassesThrough(env) && (chunk.Delta? ==> chunk.reasoning == "")
    ensures var (r1, wants) := WantChunk(r, chunk, env);
            var (p, parts) := FeedAll(r.parser, Contents([chunk]));
            r1.parser == p && SaysTyped(wants, TypedChunks(parts), env)
  {
    assert [chunk][1..] == [] && Contents([chunk][1..]) == [];
    if chunk.Delta? {
      var (p, parts) := if chunk.content == "" then (r.parser, []) else Feed(r.parser, chunk.content);
      var said := WantParts(r.heuristic, parts, env).1;
      assert [chunk.content][1..] == [] && parts + [] == parts;
      PartsTyped(r.heuristic, parts, env);
      CallsSayNothing(r.log, chunk.toolCalls);
      TextsAppend(said, WantCalls(r.log, chunk.toolCalls));
      NoMoreWants(said);
      NoMoreText(SaidText(said));
      NoMoreText(ThoughtText(said));
    }
  }

  lemma {:induction false} FeedAllTwo(p: Parser, a: seq<string>, b: seq<string>)
    ensures var (p1, x) := FeedAll(p, a);
            var (p2, y) := FeedAll(p1, b);
            FeedAll(p, a + b) == (p2, x + y)
    decreases a
  {
    if a == [] {
      assert a + b == b;
      assert [] + FeedAll(p, b).1 == FeedAll(p, b).1;
    } else {
      assert (a + b)[0] == a[0] && (a + b)[1..] == a[1..] + b;
      var (p1, x1) := Feed(p, a[0]);
      FeedAllTwo(p1, a[1..], b);
      var (p2, x2) := FeedAll(p1, a[1..]);
      var (p3, y) := FeedAll(p2, b);
      assert x1 + (x2 + y) == x1 + x2 + y;
    }
  }

  lemma FeedNext(p: Parser, chunks: seq<UpstreamChunk>)
    requires chunks != []
    ensures var (p1, parts1) := FeedAll(p, Contents([chunks[0]]));
            var (p2, parts2) := FeedAll(p1, Contents(chunks[1..]));
            && FeedAll(p, Contents(chunks)) == (p2, parts1 + parts2)
            && TypedChunks(parts1 + parts2) == TypedChunks(parts1) + TypedChunks(parts2)
  {
    var (p1, parts1) := FeedAll(p, Contents([chunks[0]]));
    FeedAllTwo(p, Contents([chunks[0]]), Contents(chunks[1..]));
    assert [chunks[0]][1..] == [] && Contents([chunks[0]][1..]) == [];
    assert Contents(chunks) == Contents([chunks[0]]) + Contents(chunks[1..]);
    TypedChunksAppend(parts1, FeedAll(p1, Contents(chunks[1..])).1);
  }

  lemma {:induction false} ChunksTyped<H(!new)>(r: Reading<H>, chunks: seq<UpstreamChunk>, env: Env<H>)
    requires PassesThrough(env) && NoReasoning(chunks)
    ensures var (r1, wants) := WantAll(r, chunks, env);
            var (p, parts) := FeedAll(r.parser, Contents(chunks));
            r1.parser == p && SaysTyped(wants, TypedChunks(parts), env)
    decreases chunks
  {
    if chunks != [] {
      var (r1, first) := WantChunk(r, chunks[0], env);
      var (p1, parts1) := FeedAll(r.parser, Contents([chunks[0]]));
      var parts2 := FeedAll(p1, Contents(chunks[1..])).1;
      ChunkTyped(r, chunks[0], env);
      ChunksTyped(r1, chunks[1..], env);
      FeedNext(r.parser, chunks);
      TypedBoth(first, TypedChunks(parts1), WantAll(r1, chunks[1..], env).1, TypedChunks(parts2), env);
    }
  }

  lemma RestPartTyped<H>(rest: ContentChunk, env: Env<H>)
    ensures SaysTyped(if rest.kind == TEXT then [Says(rest.content)] else if env.thinking then [Thinks(rest.content)] else [],
                      TypedText(rest.kind, rest.content), env)
  {
    CharsOfText(rest.kind, rest.content);
    if rest.kind == TEXT {
      TextsOfOne(Says(rest.content));
    } else if env.thinking {
      TextsOfOne(Thinks(rest.content));
    }
  }

  lemma FlushTyped<H>(p: Parser, env: Env<H>)
    ensures SaysTyped(WantFlush(p, env), TypedChunk(ThinkTags.Flush(p).1), env)
  {
    var rest := ThinkTags.Flush(p).1;
    if rest.Some? {
      RestPartTyped(rest.value, env);
    }
  }

  lemma RestTyped<H(!new)>(r: Reading<H>, env: Env<H>)
    requires PassesThrough(env)
    ensures SaysTyped(WantRest(r, env), TypedChunk(ThinkTags.Flush(r.parser).1), env)
  {
    FlushTyped(r.parser, env);
    assert Found(env.flush(r.heuristic)) == [];
    NoMoreWants(WantFlush(r.parser, env));
  }

  /** With a heuristic parser that finds nothing, the text and the thinking a response that does not fail
      shows are, however the upstream cut it, exactly what the scanner makes of the whole text: all text, and
      all thinking if that is enabled. */
  lemma TextIsScanned<H(!new)>(h: H, chunks: seq<UpstreamChunk>, env: Env<H>)
    requires PassesThrough(env) && NoReasoning(chunks)
    ensures var (r, said) := WantAll(Opening(h), chunks, env);
            SaysTyped(said + WantRest(r, env), Scan(Concat(Contents(chunks)), false), env)
  {
    var (r, said) := WantAll(Opening(h), chunks, env);
    var (p, parts) := FeedAll(Parser("", false), Contents(chunks));
    ChunksTyped(Opening(h), chunks, env);
    RestTyped(r, env);
    TypedBoth(said, TypedChunks(parts), WantRest(r, env), TypedChunk(ThinkTags.Flush(p).1), env);
    CutsDoNotMatter(Contents(chunks));
  }
}
