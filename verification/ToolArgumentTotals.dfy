/** Tool arguments over a whole response: all that was received for a native tool has been sent when it
    ends, exactly if the tool was ever named. */
module ToolArgumentTotals {
  import opened Prelude
  import opened SseEvents
  import opened StreamContract
  import opened SseBuilder
  import opened ThinkTags
  import opened OpenAIStream
  import opened OpenAIContract
  import opened ToolArguments

  // ---------------------------------------------------------------------------------------------
  // A tool is started as soon as it has a name
  // ---------------------------------------------------------------------------------------------

  predicate NamedIfStarted(b: Blocks, t: int) {
    IsStarted(b, t) <==> !IsBlank(KnownName(b, t))
  }

  ghost predicate AllNamedIfStarted(b: Blocks) {
    forall t {:trigger NamedIfStarted(b, t)} :: NamedIfStarted(b, t)
  }

  lemma BlankParts(a: string, b: string)
    ensures IsBlank(a + b) <==> IsBlank(a) && IsBlank(b)
  {
    assert forall i | 0 <= i < |a| :: (a + b)[i] == a[i];
    assert forall i | 0 <= i < |b| :: (a + b)[|a| + i] == b[i];
  }

  /** A name never becomes blank again. */
  lemma NameStays(b: Blocks, i: int, name: string)
    requires !IsBlank(KnownName(b, i))
    ensures !IsBlank(KnownName(RegisterName(b, i, name), i))
  {
    var prev := KnownName(b, i);
    BlankParts(prev, name);
    if StartsWith(name, prev) {
      assert name == prev + name[|prev|..];
      BlankParts(prev, name[|prev|..]);
    }
  }

  lemma OthersStay(b: Blocks, i: int, tc: ToolCallDelta, t: int)
    requires t != i && NamedIfStarted(b, t)
    ensures NamedIfStarted(Register(b, i, tc), t)
  {
  }

  lemma RegisterStarts(b: Blocks, i: int, tc: ToolCallDelta)
    requires NamedIfStarted(b, i)
    ensures IsStarted(Register(b, i, tc), i) ==> !IsBlank(KnownName(Register(b, i, tc), i))
  {
    var b1 := if tc.id.Some? then SetToolId(b, i, tc.id.value) else b;
    assert IsStarted(b1, i) <==> IsStarted(b, i);
    if IsStarted(b, i) && tc.name.Some? {
      assert KnownName(b1, i) == KnownName(b, i);
      NameStays(b1, i, tc.name.value);
    }
  }

  predicate NamesStay(b: Blocks, b1: Blocks, t: int) {
    (IsStarted(b1, t) <==> IsStarted(b, t)) && KnownName(b1, t) == KnownName(b, t)
  }

  lemma EmitArgsNames(b: Blocks, i: int, args: string, rules: ArgRules, t: int)
    ensures NamesStay(b, EmitArgs(b, i, args, rules).0, t)
  {
    if i in b.tools {
      BufferNames(b, i, args, rules.parse, t);
      DeltaNames(b, i, args, t);
      var (b1, parsed) := BufferTaskArgs(b, i, args, rules.parse);
      if parsed.Normalized? {
        DeltaNames(b1, i, parsed.json, t);
      }
      AliasedNames(b, i, args, rules, t);
    }
  }

  lemma BufferNames(b: Blocks, i: int, args: string, parse: string -> TaskArgs, t: int)
    requires i in b.tools
    ensures var b1 := BufferTaskArgs(b, i, args, parse).0;
            i in b1.tools && NamesStay(b, b1, t)
  {
  }

  lemma DeltaNames(b: Blocks, i: int, json: string, t: int)
    requires i in b.tools
    ensures NamesStay(b, ToolDelta(b, i, json).0, t)
  {
  }

  lemma AliasedNames(b: Blocks, i: int, args: string, rules: ArgRules, t: int)
    requires i in b.tools
    ensures NamesStay(b, EmitAliased(b, i, args, rules).0, t)
  {
  }

  lemma StartNames<H>(b: Blocks, i: int, tc: ToolCallDelta, env: Env<H>, t: int)
    requires if t == i then IsStarted(b, i) ==> !IsBlank(KnownName(b, i)) else NamedIfStarted(b, t)
    ensures NamedIfStarted(StartIfNamed(b, i, tc, env).0, t)
  {
    if !(IsStarted(b, i) || IsBlank(KnownName(b, i))) {
      var b1 := StartTool(b, i, ToolId(b, i, tc, env.uuid), Strip(KnownName(b, i))).0;
      var b2 := PutTool(b1, i, b1.tools[i].(preStartArgs := ""));
      assert (IsStarted(b2, t) <==> IsStarted(b, t) || t == i) && KnownName(b2, t) == KnownName(b, t);
      EmitArgsNames(b2, i, b1.tools[i].preStartArgs, env.rules, t);
    }
  }

  lemma HoldNames(b: Blocks, i: int, args: string, t: int)
    ensures NamesStay(b, HoldArgs(b, i, args), t)
  {
  }

  lemma ToolNames<H>(b: Blocks, i: int, tc: ToolCallDelta, env: Env<H>, t: int)
    requires AllNamedIfStarted(b) && Target(b, tc) == Some(i)
    ensures NamedIfStarted(ProcessToolCall(b, tc, env).0, t)
  {
    var b0 := Register(b, i, tc);
    var b1 := StartIfNamed(b0, i, tc, env).0;
    assert NamedIfStarted(b, t) && NamedIfStarted(b, i);
    RegisterStarts(b, i, tc);
    if t != i {
      OthersStay(b, i, tc, t);
    }
    StartNames(b0, i, tc, env, t);
    EmitArgsNames(b1, i, tc.arguments, env.rules, t);
    HoldNames(b1, i, tc.arguments, t);
  }

  lemma CallNames<H>(b: Blocks, tc: ToolCallDelta, env: Env<H>)
    requires AllNamedIfStarted(b)
    ensures AllNamedIfStarted(ProcessToolCall(b, tc, env).0)
  {
    if tc.index.Some? {
      forall t
        ensures NamedIfStarted(ProcessToolCall(b, tc, env).0, t) {
        ToolNames(b, ResolveIndex(b, tc.index.value), tc, env, t);
      }
    }
  }

  lemma {:induction false} CallsName<H>(b: Blocks, tcs: seq<ToolCallDelta>, env: Env<H>)
    requires AllNamedIfStarted(b)
    ensures AllNamedIfStarted(ProcessToolCalls(b, tcs, env).0)
    decreases tcs
  {
    if tcs != [] {
      CallNames(b, tcs[0], env);
      var (b1, out1, raised1) := ProcessToolCall(b, tcs[0], env);
      CallsUnfold(b, tcs, env, b1, out1, raised1, []);
      if !raised1 {
        CallsName(b1, tcs[1..], env);
      }
    }
  }

  lemma SameTools(b: Blocks, b1: Blocks)
    requires AllNamedIfStarted(b) && b1.tools == b.tools
    ensures AllNamedIfStarted(b1)
  {
    forall t
      ensures NamedIfStarted(b1, t) {
      assert NamedIfStarted(b, t);
    }
  }

  /** Reasoning and text leave the native tools alone. */
  lemma TextLeavesTools<H>(s: Session<H>, c: Check, chunk: UpstreamChunk, env: Env<H>)
    requires Sim(s.blocks, c) && chunk.Delta?
    ensures BeforeCalls(s, chunk, env).tools == s.blocks.tools
    ensures chunk.toolCalls == [] ==> ProcessChunk(s, chunk, env).0.blocks.tools == s.blocks.tools
    ensures chunk.toolCalls != [] ==>
              ProcessChunk(s, chunk, env).0.blocks == ProcessToolCalls(BeforeCalls(s, chunk, env), chunk.toolCalls, env).0
  {
    KeepsNothing(c, s.blocks);
    if env.thinking && chunk.reasoning != "" {
      ThinkKeeps(s.blocks, c, chunk.reasoning);
    }
    var (b1, out1) := Reason(s.blocks, chunk.reasoning, env.thinking);
    assert b1.tools == s.blocks.tools;
    PartsLeave(b1, s.heuristic, Fold(c, out1).value, Parts(s.parser, chunk.content).1, env);
  }

  lemma {:induction false} ChunksName<H>(s: Session<H>, c: Check, chunks: seq<UpstreamChunk>, env: Env<H>)
    requires Sim(s.blocks, c) && AllNamedIfStarted(s.blocks)
    ensures AllNamedIfStarted(ProcessChunks(s, chunks, env).0.blocks)
    decreases chunks
  {
    if chunks != [] {
      var (s1, out1, raised1) := ProcessChunk(s, chunks[0], env);
      if chunks[0].Delta? {
        TextLeavesTools(s, c, chunks[0], env);
        SameTools(s.blocks, BeforeCalls(s, chunks[0], env));
        if chunks[0].toolCalls == [] {
          SameTools(s.blocks, s1.blocks);
        } else {
          CallsName(BeforeCalls(s, chunks[0], env), chunks[0].toolCalls, env);
        }
      }
      ChunkKeeps(s, c, chunks[0], env);
      ChunksUnfold(s, chunks, env, s1, out1, raised1, []);
      if !raised1 {
        ChunksName(s1, Fold(c, out1).value, chunks[1..], env);
      }
    }
  }

  // ---------------------------------------------------------------------------------------------
  // The end of a response says nothing more for a tool
  // ---------------------------------------------------------------------------------------------

  lemma SilentBoth(a: seq<Event>, b: seq<Event>, d: int)
    requires Silent(a, d) && Silent(b, d)
    ensures Silent(a + b, d)
  {
  }

  lemma {:induction false} StopsAreSilent(tools: map<int, ToolCallState>, order: seq<int>, d: int)
    ensures Silent(ToolStops(tools, order), d)
  {
    if order != [] {
      StopsAreSilent(tools, order[1..], d);
    }
  }

  lemma ClosingIsSilent(b: Blocks, d: int)
    ensures Silent(CloseAll(b).1, d)
  {
    var (b1, out1) := CloseContent(b);
    StopsAreSilent(b1.tools, b1.toolOrder, d);
    assert Silent(out1, d);
  }

  lemma FailureIsSilent(b: Blocks, message: string, d: int)
    ensures Silent(FailureTail(b, message), d)
  {
    var (b1, out) := CloseAll(b);
    var middle := if HasStartedTool(b1) then [ErrorEvent(message)] else EmitError(b1, message).1;
    ClosingIsSilent(b, d);
    SilentBoth(out, middle, d);
    SilentBoth(out + middle, [MessageDelta("end_turn", 1), MessageStop], d);
  }

  /** Flushing Task arguments is not for tools without a buffer. */
  lemma {:induction false} FlushingIsSilent(b: Blocks, c: Check, order: seq<int>, parse: string -> TaskArgs, t: int)
    requires Sim(b, c) && IsStarted(b, t) && b.tools[t].taskArgBuffer == ""
    ensures Silent(FlushTaskArgs(b, order, parse).1, b.tools[t].blockIndex)
    decreases order
  {
    if order != [] {
      var i := order[0];
      if i !in b.tools || b.tools[i].taskArgBuffer == "" || b.tools[i].taskArgsEmitted {
        FlushingIsSilent(b, c, order[1..], parse, t);
      } else {
        var parsed := parse(b.tools[i].taskArgBuffer);
        var json := if parsed.Normalized? then parsed.json else "{}";
        FlushOne(b, c, i, json, t);
        var (b2, out2) := FlushedOne(b, i, json);
        FlushingIsSilent(b2, Fold(c, out2).value, order[1..], parse, t);
        SilentBoth(out2, FlushTaskArgs(b2, order[1..], parse).1, b.tools[t].blockIndex);
      }
    }
  }

  function FlushedOne(b: Blocks, i: int, json: string): (Blocks, seq<Event>)
    requires i in b.tools
  {
    ToolDelta(PutTool(b, i, b.tools[i].(taskArgsEmitted := true, taskArgBuffer := "")), i, json)
  }

  lemma FlushOne(b: Blocks, c: Check, i: int, json: string, t: int)
    requires Sim(b, c) && IsStarted(b, t) && b.tools[t].taskArgBuffer == "" && i in b.tools && b.tools[i].taskArgBuffer != ""
    ensures var (b2, out2) := FlushedOne(b, i, json);
            && Keeps(c, out2, b2) && Silent(out2, b.tools[t].blockIndex)
            && IsStarted(b2, t) && b2.tools[t] == b.tools[t]
  {
    var b1 := PutTool(b, i, b.tools[i].(taskArgsEmitted := true, taskArgBuffer := ""));
    assert IsStarted(b, i) && b.tools[i].blockIndex != b.tools[t].blockIndex;
    EditToolKeeps(b, c, i, b1.tools[i]);
    ToolDeltaKeeps(b1, c, i, json);
  }

  lemma FlushParserLeaves<H>(b: Blocks, c: Check, parser: Parser, env: Env<H>)
    requires Sim(b, c)
    ensures var (b1, out) := FlushParser(b, parser, env); LeavesTools(b, b1, out)
  {
    var rest := Flush(parser).1;
    if rest.Some? {
      TextLeaves(b, c, rest.value.content);
    }
  }

  /** The text and the heuristic tools that come out at the end. */
  lemma EndLeaves<H>(s: Session<H>, c: Check, env: Env<H>)
    requires Sim(s.blocks, c)
    ensures var (b1, out1) := FlushParser(s.blocks, s.parser, env);
            var (b2, out2) := HeuristicTools(b1, env.flush(s.heuristic));
            var (b3, out3) := Placeholder(b2);
            && LeavesTools(s.blocks, b3, out1 + out2 + out3)
            && Keeps(c, out1 + out2 + out3, b3)
  {
    LastTextKeeps(s, c, env);
    FlushParserKeeps(s.blocks, c, s.parser, env);
    FlushParserLeaves(s.blocks, c, s.parser, env);
    var (b1, out1) := FlushParser(s.blocks, s.parser, env);
    var c1 := Fold(c, out1).value;
    HeuristicToolsKeep(b1, c1, env.flush(s.heuristic));
    HeuristicLeaves(b1, c1, env.flush(s.heuristic));
    var (b2, out2) := HeuristicTools(b1, env.flush(s.heuristic));
    LeavesThen(s.blocks, b1, b2, out1, out2);
    TextLeaves(b2, Fold(c1, out2).value, " ");
    var (b3, out3) := Placeholder(b2);
    LeavesThen(s.blocks, b2, b3, out1 + out2, out3);
  }

  /** Nor is flushing arguments with renamed keys for tools that have none. */
  lemma FlushAliasIsSilent(b: Blocks, c: Check, i: int, rules: ArgRules, t: int)
    requires Sim(b, c) && IsStarted(b, t) && t !in b.aliasBuffers
    ensures var (b1, out) := FlushAlias(b, i, rules);
            && Silent(out, b.tools[t].blockIndex)
            && IsStarted(b1, t) && b1.tools[t] == b.tools[t] && t !in b1.aliasBuffers
  {
    if i in b.aliasBuffers {
      assert IsStarted(b, i) && b.tools[i].blockIndex != b.tools[t].blockIndex;
    }
  }

  lemma {:induction false} FlushAliasesAreSilent(b: Blocks, c: Check, order: seq<int>, rules: ArgRules, t: int)
    requires Sim(b, c) && IsStarted(b, t) && t !in b.aliasBuffers
    ensures var (b1, out) := FlushAliases(b, order, rules);
            Silent(out, b.tools[t].blockIndex) && IsStarted(b1, t) && b1.tools[t] == b.tools[t]
    decreases order
  {
    if order != [] {
      FlushAliasIsSilent(b, c, order[0], rules, t);
      FlushAliasKeeps(b, c, order[0], rules);
      var (b1, out1) := FlushAlias(b, order[0], rules);
      FlushAliasesAreSilent(b1, Fold(c, out1).value, order[1..], rules, t);
      SilentBoth(out1, FlushAliases(b1, order[1..], rules).1, b.tools[t].blockIndex);
    }
  }

  /** The part that flushes and closes. */
  lemma ClosingPartIsSilent(b3: Blocks, c: Check, rules: ArgRules, t: int)
    requires Sim(b3, c) && IsStarted(b3, t) && b3.tools[t].taskArgBuffer == "" && t !in b3.aliasBuffers
    ensures var (b4, out4) := FlushAliases(b3, b3.aliasOrder, rules);
            var (b5, out5) := FlushTaskArgs(b4, b4.toolOrder, rules.parse);
            Silent(out4 + out5 + CloseAll(b5).1, b3.tools[t].blockIndex)
  {
    var d := b3.tools[t].blockIndex;
    FlushAliasesAreSilent(b3, c, b3.aliasOrder, rules, t);
    FlushAliasesKeep(b3, c, b3.aliasOrder, rules);
    var (b4, out4) := FlushAliases(b3, b3.aliasOrder, rules);
    FlushingIsSilent(b4, Fold(c, out4).value, b4.toolOrder, rules.parse, t);
    var (b5, out5) := FlushTaskArgs(b4, b4.toolOrder, rules.parse);
    ClosingIsSilent(b5, d);
    SilentBoth(out4, out5, d);
    SilentBoth(out4 + out5, CloseAll(b5).1, d);
  }

  lemma WindIsSilent<H>(s: Session<H>, c: Check, env: Env<H>, t: int)
    requires Sim(s.blocks, c) && IsStarted(s.blocks, t) && s.blocks.tools[t].taskArgBuffer == "" && t !in s.blocks.aliasBuffers
    ensures Silent(Wind(s, env).1, s.blocks.tools[t].blockIndex)
  {
    var d := s.blocks.tools[t].blockIndex;
    EndLeaves(s, c, env);
    assert IsOpen(c, d, ToolOpen);
    var (b1, out1) := FlushParser(s.blocks, s.parser, env);
    var (b2, out2) := HeuristicTools(b1, env.flush(s.heuristic));
    var (b3, out3) := Placeholder(b2);
    var sofar := out1 + out2 + out3;
    ClosingPartIsSilent(b3, Fold(c, sofar).value, env.rules, t);
    var (b4, out4) := FlushAliases(b3, b3.aliasOrder, env.rules);
    var (b5, out5) := FlushTaskArgs(b4, b4.toolOrder, env.rules.parse);
    SilentParts(sofar, out4, out5, CloseAll(b5).1, d);
  }

  lemma SilentParts(sofar: seq<Event>, x: seq<Event>, y: seq<Event>, z: seq<Event>, d: int)
    requires Silent(sofar, d) && Silent(x + y + z, d)
    ensures Silent(sofar + x + y + z, d)
  {
    assert sofar + x + y + z == sofar + (x + y + z);
    SilentBoth(sofar, x + y + z, d);
  }

  // ---------------------------------------------------------------------------------------------
  // The whole response
  // ---------------------------------------------------------------------------------------------

  /** The arguments the client gets for tool t: the fragments of its block, if it has one. */
  function SentFor(b: Blocks, all: seq<Event>, t: int): string {
    if IsStarted(b, t) then Concat(Payloads(all, b.tools[t].blockIndex)) else ""
  }

  lemma OnlyTheMiddle(id: string, out: seq<Event>, tail: seq<Event>, d: int)
    requires Silent(tail, d)
    ensures Payloads([MessageStart(id)] + out + tail, d) == Payloads(out, d)
  {
    SilentHasNone([MessageStart(id)], d);
    SilentHasNone(tail, d);
    PayloadsAppend([MessageStart(id)], out, d);
    PayloadsAppend([MessageStart(id)] + out, tail, d);
  }

  lemma TailIsSilent<H>(s: Session<H>, c: Check, raised: bool, failure: Option<string>, crash: string, env: Env<H>,
                        counted: Option<int>, t: int)
    requires Sim(s.blocks, c) && IsStarted(s.blocks, t) && s.blocks.tools[t].taskArgBuffer == "" && t !in s.blocks.aliasBuffers
    ensures Silent(Tail(s, raised, failure, crash, env, counted).0, s.blocks.tools[t].blockIndex)
  {
    var d := s.blocks.tools[t].blockIndex;
    if raised {
      FailureIsSilent(s.blocks, crash, d);
    } else if failure.Some? {
      FailureIsSilent(s.blocks, failure.value, d);
    } else {
      WindIsSilent(s, c, env, t);
      var count := OutputTokens(s, env, counted);
      if count.Some? {
        SilentBoth(Wind(s, env).1, [MessageDelta(StopReason(s.finish), count.value), MessageStop], d);
      }
    }
  }

  /** For every response, however it ends, and every native tool whose arguments are never rewritten: the fragments sent to
      its block are all that was received for it if and only if it was named, or nothing was received.
      What was held back for a tool that never gets a name is lost at the end. */
  lemma ArgumentsArriveIffNamed<H>(messageId: string, h: H, chunks: seq<UpstreamChunk>, failure: Option<string>,
                                   crash: string, env: Env<H>, counted: Option<int>, t: int)
    requires StaysPlain(Begin(h), chunks, env, t)
    ensures var b := ProcessChunks(Begin(h), chunks, env).0.blocks;
            var received := Received(Begin(h), chunks, env, t);
            var all := Response(messageId, h, chunks, failure, crash, env, counted).0;
            SentFor(b, all, t) == received <==> received == "" || !IsBlank(KnownName(b, t))
  {
    var (s, out, raised) := ProcessChunks(Begin(h), chunks, env);
    FreshSim();
    ChunksKeep(Begin(h), EMPTY, chunks, env);
    ChunksName(Begin(h), EMPTY, chunks, env);
    ChunksConserve(Begin(h), EMPTY, [], t, "", chunks, env);
    ConservedFromNothing(s.blocks, out, t, Received(Begin(h), chunks, env, t));
    assert NamedIfStarted(s.blocks, t);
    if IsStarted(s.blocks, t) {
      SentInTheMiddle(messageId, s, Fold(EMPTY, out).value, out, raised, failure, crash, env, counted, t);
    }
  }

  lemma SentInTheMiddle<H>(messageId: string, s: Session<H>, c: Check, out: seq<Event>, raised: bool, failure: Option<string>,
                           crash: string, env: Env<H>, counted: Option<int>, t: int)
    requires Sim(s.blocks, c) && IsStarted(s.blocks, t) && s.blocks.tools[t].taskArgBuffer == "" && t !in s.blocks.aliasBuffers
    ensures SentFor(s.blocks, [MessageStart(messageId)] + out + Tail(s, raised, failure, crash, env, counted).0, t)
         == Concat(Payloads(out, s.blocks.tools[t].blockIndex))
  {
    TailIsSilent(s, c, raised, failure, crash, env, counted, t);
    OnlyTheMiddle(messageId, out, Tail(s, raised, failure, crash, env, counted).0, s.blocks.tools[t].blockIndex);
  }
}
