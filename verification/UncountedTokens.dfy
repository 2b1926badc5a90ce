/** A stream that is never ended: the upstream gives no count of tokens, and the encoder that would
    estimate it raises on what was streamed. */
module UncountedTokens {
  import opened Prelude
  import opened SseEvents
  import opened StreamContract
  import opened SseBuilder
  import opened ThinkTags
  import opened OpenAIStream
  import opened OpenAIContract

  lemma {:induction false} HeuristicsAddNoReasoning(b: Blocks, tools: seq<ToolUse>)
    ensures HeuristicTools(b, tools).0.reasoningParts == b.reasoningParts
    decreases tools
  {
    if tools != [] {
      HeuristicsAddNoReasoning(HeuristicTool(b, tools[0]).0, tools[1..]);
    }
  }

  lemma {:induction false} AliasesAddNoReasoning(b: Blocks, order: seq<int>, rules: ArgRules)
    ensures FlushAliases(b, order, rules).0.reasoningParts == b.reasoningParts
    decreases order
  {
    if order != [] {
      AliasesAddNoReasoning(FlushAlias(b, order[0], rules).0, order[1..], rules);
    }
  }

  lemma {:induction false} TasksAddNoReasoning(b: Blocks, order: seq<int>, parse: string -> TaskArgs)
    ensures FlushTaskArgs(b, order, parse).0.reasoningParts == b.reasoningParts
    decreases order
  {
    if order != [] {
      var i := order[0];
      if i !in b.tools || b.tools[i].taskArgBuffer == "" || b.tools[i].taskArgsEmitted {
        TasksAddNoReasoning(b, order[1..], parse);
      } else {
        var parsed := parse(b.tools[i].taskArgBuffer);
        var json := if parsed.Normalized? then parsed.json else "{}";
        var b1 := PutTool(b, i, b.tools[i].(taskArgsEmitted := true, taskArgBuffer := ""));
        TasksAddNoReasoning(ToolDelta(b1, i, json).0, order[1..], parse);
      }
    }
  }

  /** With nothing left in the tag parser, the end of a stream adds no reasoning. */
  lemma EndAddsNoReasoning<H>(s: Session<H>, env: Env<H>)
    requires s.parser.buffer == ""
    ensures Wind(s, env).0.reasoningParts == s.blocks.reasoningParts
  {
    var b1 := FlushParser(s.blocks, s.parser, env).0;
    HeuristicsAddNoReasoning(b1, env.flush(s.heuristic));
    var b3 := Placeholder(HeuristicTools(b1, env.flush(s.heuristic)).0).0;
    AliasesAddNoReasoning(b3, b3.aliasOrder, env.rules);
    var b4 := FlushAliases(b3, b3.aliasOrder, env.rules).0;
    TasksAddNoReasoning(b4, b4.toolOrder, env.rules.parse);
  }

  lemma OneReasoning<H>(h: H, reasoning: string, env: Env<H>)
    requires env.thinking && reasoning != ""
    ensures var (s, out, raised) := ProcessChunks(Begin(h), [Delta(reasoning, "", [], None)], env);
            !raised && s.blocks.reasoningParts == [reasoning] && s.parser.buffer == ""
  {
    var chunk := Delta(reasoning, "", [], None);
    assert [chunk][1..] == [];
    assert [] + [reasoning] == [reasoning];
  }

  /** One chunk of reasoning that the encoder does not take, such as the name of a special token, and no
      count: the blocks are closed, an exception escapes, and the client gets no contract stream. */
  lemma UncountedReasoning<H>(messageId: string, h: H, reasoning: string, crash: string, env: Env<H>)
    requires env.thinking && reasoning != "" && env.encoder.Some? && env.encoder.value(reasoning).None?
    ensures var (es, done) := Response(messageId, h, [Delta(reasoning, "", [], None)], None, crash, env, None);
            !done && !Contract(es, true)
  {
    var chunks := [Delta(reasoning, "", [], None)];
    var s := ProcessChunks(Begin(h), chunks, env).0;
    OneReasoning(h, reasoning, env);
    EndAddsNoReasoning(s, env);
    assert Concat([reasoning]) == reasoning by {
      assert [reasoning][1..] == [] && reasoning + "" == reasoning;
    }
    ResponseMeetsContract(messageId, h, chunks, None, crash, env, None);
  }

  /** The text of a special token is such an input. */
  lemma EndOfTextIsNeverEnded<H>(messageId: string, h: H, crash: string, env: Env<H>)
    requires env.thinking && env.encoder.Some? && env.encoder.value("<|endoftext|>").None?
    ensures !Contract(Response(messageId, h, [Delta("<|endoftext|>", "", [], None)], None, crash, env, None).0, true)
  {
    UncountedReasoning(messageId, h, "<|endoftext|>", crash, env);
  }
}
