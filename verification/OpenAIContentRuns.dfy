/** Over every response, the events say what the chunks ask for. */
module OpenAIContentRuns {
  import opened Prelude
  import opened SseEvents
  import opened SseBuilder
  import opened ThinkTags
  import opened OpenAIStream
  import opened OpenAIContent
  import opened ToolArguments

  // ---------------------------------------------------------------------------------------------
  // The builder and what it has said
  // ---------------------------------------------------------------------------------------------

  /** The builder remembers what it said. */
  ghost predicate Faces(b: Blocks, wants: seq<Want>) {
    && 0 <= b.nextIndex
    && (b.textStarted ==> b.textIndex != -1) && (b.thinkingStarted ==> b.thinkingIndex != -1)
    && (b.textIndex == -1 <==> !HasSaid(wants)) && (b.thinkingIndex == -1 <==> !HasThought(wants))
    && Concat(b.textParts) == SaidText(wants) && Concat(b.reasoningParts) == ThoughtText(wants)
    && (HasStartedTool(b) <==> HasStarted(wants)) && |StartedTools(b)| == StartsIn(wants)
  }

  function StartedTools(b: Blocks): set<int> {
    set i | i in b.tools && b.tools[i].started
  }

  ghost predicate KnowsTool(b: Blocks, log: Log, i: int) {
    && (i in b.tools <==> i in Mentioned(log))
    && KnownName(b, i) == NameSoFar(log, i)
    && (IsStarted(b, i) <==> !IsBlank(NameSoFar(log, i)))
    && (i in b.tools && !IsStarted(b, i) ==> b.tools[i].toolId == IdSoFar(log, i))
  }

  ghost predicate Knows(b: Blocks, log: Log) {
    forall i :: KnowsTool(b, log, i)
  }

  lemma WantsSnoc(wants: seq<Want>, w: Want)
    ensures var all := wants + [w];
            && (HasSaid(all) <==> HasSaid(wants) || w.Says?) && (HasThought(all) <==> HasThought(wants) || w.Thinks?)
            && (HasStarted(all) <==> HasStarted(wants) || w.Starts?) && StartsIn(all) == StartsIn(wants) + (if w.Starts? then 1 else 0)
            && SaidText(all) == SaidText(wants) + (if w.Says? then w.text else "")
            && ThoughtText(all) == ThoughtText(wants) + (if w.Thinks? then w.text else "")
  {
    var all := wants + [w];
    assert all[..|wants|] == wants && all[|wants|] == w;
    assert forall k | 0 <= k < |wants| :: all[k] == wants[k];
  }

  lemma NoMoreText(s: string)
    ensures s + "" == s
  {
  }

  lemma ThinkKeeps(b: Blocks, wants: seq<Want>, content: string)
    requires Faces(b, wants)
    ensures var b1 := Think(b, content).0; Faces(b1, wants + [Thinks(content)]) && b1.tools == b.tools
  {
    WantsSnoc(wants, Thinks(content));
    NoMoreText(SaidText(wants));
    ConcatSnoc(b.reasoningParts, content);
  }

  lemma ThinkTells<H>(b: Blocks, content: string, env: Env<H>)
    ensures Tells(Think(b, content).1, [Thinks(content)], env)
  {
    var (b1, out1) := StopText(b);
    var (b2, out2) := StartThinking(b1);
    var e := BlockDelta(b2.thinkingIndex, ThinkingDelta(content));
    OneTells(out1 + out2, e, [], Thinks(content), env);
    assert out1 + out2 + [e] + [] == out1 + out2 + [e];
  }

  lemma ThinkFaces<H>(b: Blocks, wants: seq<Want>, content: string, env: Env<H>)
    requires Faces(b, wants)
    ensures var (b1, out) := Think(b, content);
            Faces(b1, wants + [Thinks(content)]) && Tells(out, [Thinks(content)], env) && b1.tools == b.tools
  {
    ThinkKeeps(b, wants, content);
    ThinkTells(b, content, env);
  }

  lemma SayKeeps(b: Blocks, wants: seq<Want>, content: string)
    requires Faces(b, wants)
    ensures var b1 := Say(b, content).0; Faces(b1, wants + [Says(content)]) && b1.tools == b.tools
  {
    WantsSnoc(wants, Says(content));
    NoMoreText(ThoughtText(wants));
    ConcatSnoc(b.textParts, content);
  }

  lemma SayTells<H>(b: Blocks, content: string, env: Env<H>)
    ensures Tells(Say(b, content).1, [Says(content)], env)
  {
    var (b1, out1) := StopThinking(b);
    var (b2, out2) := StartText(b1);
    var e := BlockDelta(b2.textIndex, TextDelta(content));
    OneTells(out1 + out2, e, [], Says(content), env);
    assert out1 + out2 + [e] + [] == out1 + out2 + [e];
  }

  lemma SayFaces<H>(b: Blocks, wants: seq<Want>, content: string, env: Env<H>)
    requires Faces(b, wants)
    ensures var (b1, out) := Say(b, content);
            Faces(b1, wants + [Says(content)]) && Tells(out, [Says(content)], env) && b1.tools == b.tools
  {
    SayKeeps(b, wants, content);
    SayTells(b, content, env);
  }

  lemma FindKeeps(b: Blocks, wants: seq<Want>, tool: ToolUse)
    requires Faces(b, wants)
    ensures var b1 := HeuristicTool(b, tool).0; Faces(b1, wants + [Finds(tool)]) && b1.tools == b.tools
  {
    WantsSnoc(wants, Finds(tool));
    NoMoreText(SaidText(wants));
    NoMoreText(ThoughtText(wants));
  }

  lemma FindTells<H>(b: Blocks, tool: ToolUse, env: Env<H>)
    ensures Tells(HeuristicTool(b, tool).1, [Finds(tool)], env)
  {
    var (b1, out1) := CloseContent(b);
    var whole := WholeTool(b1.nextIndex, tool);
    assert out1 + whole == out1 + [whole[0]] + whole[1..];
    assert WholeAt(out1 + [whole[0]] + whole[1..], |out1|, b1.nextIndex, tool.input);
    OneTells(out1, whole[0], whole[1..], Finds(tool), env);
  }

  lemma FindFaces<H>(b: Blocks, wants: seq<Want>, tool: ToolUse, env: Env<H>)
    requires Faces(b, wants)
    ensures var (b1, out) := HeuristicTool(b, tool);
            Faces(b1, wants + [Finds(tool)]) && Tells(out, [Finds(tool)], env) && b1.tools == b.tools
  {
    FindKeeps(b, wants, tool);
    FindTells(b, tool, env);
  }

  lemma WantsRegroup(a: seq<Want>, b: seq<Want>, c: seq<Want>)
    ensures a + (b + c) == a + b + c
  {
  }

  lemma NoMoreWants(a: seq<Want>)
    ensures a + [] == a && [] + a == a
  {
  }

  lemma {:induction false} FindAllFaces<H>(b: Blocks, wants: seq<Want>, tools: seq<ToolUse>, env: Env<H>)
    requires Faces(b, wants)
    ensures var (b1, out) := HeuristicTools(b, tools);
            Faces(b1, wants + Found(tools)) && Tells(out, Found(tools), env) && b1.tools == b.tools
    decreases tools
  {
    if tools == [] {
      NoMoreWants(wants);
      MuteTells([], env);
    } else {
      var (b1, out1) := HeuristicTool(b, tools[0]);
      FindFaces(b, wants, tools[0], env);
      FindAllFaces(b1, wants + [Finds(tools[0])], tools[1..], env);
      WantsRegroup(wants, [Finds(tools[0])], Found(tools[1..]));
      TellsBoth(out1, [Finds(tools[0])], HeuristicTools(b1, tools[1..]).1, Found(tools[1..]), env);
    }
  }

  lemma PartFaces<H>(b: Blocks, wants: seq<Want>, h: H, part: ContentChunk, env: Env<H>)
    requires Faces(b, wants)
    ensures var (b1, h1, out) := EmitPart(b, h, part, env);
            var (h2, more) := WantPart(h, part, env);
            h1 == h2 && Faces(b1, wants + more) && Tells(out, more, env) && b1.tools == b.tools
  {
    NoMoreWants(wants);
    MuteTells([], env);
    if part.kind == THINKING {
      if env.thinking {
        ThinkFaces(b, wants, part.content, env);
      }
    } else {
      var (h1, text, tools) := env.feed(h, part.content);
      var said := if text == "" then [] else [Says(text)];
      var (b1, out1) := if text != "" then Say(b, text) else (b, []);
      if text != "" {
        SayFaces(b, wants, text, env);
      }
      FindAllFaces(b1, wants + said, tools, env);
      WantsRegroup(wants, said, Found(tools));
      TellsBoth(out1, said, HeuristicTools(b1, tools).1, Found(tools), env);
    }
  }

  lemma {:induction false} PartsFace<H>(b: Blocks, wants: seq<Want>, h: H, parts: seq<ContentChunk>, env: Env<H>)
    requires Faces(b, wants)
    ensures var (b1, h1, out) := EmitParts(b, h, parts, env);
            var (h2, more) := WantParts(h, parts, env);
            h1 == h2 && Faces(b1, wants + more) && Tells(out, more, env) && b1.tools == b.tools
    decreases parts
  {
    if parts == [] {
      NoMoreWants(wants);
      MuteTells([], env);
    } else {
      var (b1, h1, out1) := EmitPart(b, h, parts[0], env);
      var first := WantPart(h, parts[0], env).1;
      PartFaces(b, wants, h, parts[0], env);
      PartsFace(b1, wants + first, h1, parts[1..], env);
      var rest := WantParts(h1, parts[1..], env).1;
      WantsRegroup(wants, first, rest);
      TellsBoth(out1, first, EmitParts(b1, h1, parts[1..], env).2, rest, env);
    }
  }

  // ---------------------------------------------------------------------------------------------
  // Native calls
  // ---------------------------------------------------------------------------------------------

  lemma LogNext(log: Log, i: int, tc: ToolCallDelta, t: int)
    ensures var now := log + [(i, tc)];
            && NameSoFar(now, t) == (if t == i && tc.name.Some? then JoinName(NameSoFar(log, t), tc.name.value) else NameSoFar(log, t))
            && IdSoFar(now, t) == (if t == i && tc.id.Some? && tc.id.value != "" then tc.id.value else IdSoFar(log, t))
            && (t in Mentioned(now) <==> t in Mentioned(log) || (t == i && SaysSomething(tc)))
  {
    var now := log + [(i, tc)];
    assert now[..|log|] == log;
    assert (i, tc) in now;
    assert forall r | r in log :: r in now;
  }

  lemma BlankJoins(before: string, name: string)
    ensures !IsBlank(before) ==> !IsBlank(JoinName(before, name))
  {
    if k :| 0 <= k < |before| && !IsSpace(before[k]) {
      assert JoinName(before, name)[k] == before[k];
    }
  }

  lemma {:induction false} UnmentionedIsNameless(log: Log, i: int)
    requires i !in Mentioned(log)
    ensures NameSoFar(log, i) == "" && IdSoFar(log, i) == ""
  {
    if log != [] {
      var front, last := log[..|log| - 1], log[|log| - 1];
      assert log == front + [last];
      LogNext(front, last.0, last.1, i);
      UnmentionedIsNameless(front, i);
    }
  }

  lemma IdForm(b: Blocks, i: int, id: string)
    ensures var b1 := SetToolId(b, i, id);
            && (i in b1.tools <==> i in b.tools || id != "")
            && KnownName(b1, i) == KnownName(b, i) && (IsStarted(b1, i) <==> IsStarted(b, i))
            && (i in b1.tools ==> b1.tools[i].toolId == if id != "" then id else b.tools[i].toolId)
  {
  }

  lemma NameForm(b: Blocks, i: int, name: string)
    ensures var b1 := RegisterName(b, i, name);
            && i in b1.tools && KnownName(b1, i) == JoinName(KnownName(b, i), name) && (IsStarted(b1, i) <==> IsStarted(b, i))
            && b1.tools[i].toolId == if i in b.tools then b.tools[i].toolId else ""
  {
  }

  /** Nothing but tool i changes. */
  ghost predicate OnlyTool(b: Blocks, b1: Blocks, i: int) {
    && b1 == b.(tools := b1.tools, toolOrder := b1.toolOrder)
    && forall t | t != i :: (t in b1.tools <==> t in b.tools) && (t in b.tools ==> b1.tools[t] == b.tools[t])
  }

  lemma OnlyThen(b: Blocks, b1: Blocks, b2: Blocks, i: int)
    requires OnlyTool(b, b1, i) && OnlyTool(b1, b2, i)
    ensures OnlyTool(b, b2, i)
  {
  }

  lemma PutOnly(b: Blocks, i: int, tool: ToolCallState)
    ensures OnlyTool(b, PutTool(b, i, tool), i)
  {
  }

  lemma SetIdOnly(b: Blocks, i: int, id: string)
    ensures OnlyTool(b, SetToolId(b, i, id), i)
  {
    if id != "" {
      var b1 := EnsureTool(b, i);
      PutOnly(b, i, NewTool(""));
      PutOnly(b1, i, b1.tools[i].(toolId := id));
      OnlyThen(b, b1, SetToolId(b, i, id), i);
    }
  }

  lemma NameOnly(b: Blocks, i: int, name: string)
    ensures OnlyTool(b, RegisterName(b, i, name), i)
  {
    NameForm(b, i, name);
    PutOnly(b, i, RegisterName(b, i, name).tools[i]);
  }

  lemma RegisterOnly(b: Blocks, i: int, tc: ToolCallDelta)
    ensures OnlyTool(b, Register(b, i, tc), i)
  {
    var b1 := if tc.id.Some? then SetToolId(b, i, tc.id.value) else b;
    if tc.id.Some? {
      SetIdOnly(b, i, tc.id.value);
    }
    if tc.name.Some? {
      NameOnly(b1, i, tc.name.value);
      OnlyThen(b, b1, Register(b, i, tc), i);
    }
  }

  /** The tool after its id and name have been recorded. */
  lemma RegisterForm(b: Blocks, log: Log, i: int, tc: ToolCallDelta)
    requires Knows(b, log)
    ensures var (b0, now) := (Register(b, i, tc), log + [(i, tc)]);
            && KnownName(b0, i) == NameSoFar(now, i) && (IsStarted(b0, i) <==> IsStarted(b, i))
            && (i in b0.tools <==> i in Mentioned(log) || (tc.id.Some? && tc.id.value != "") || tc.name.Some?)
            && (i in b0.tools && !IsStarted(b0, i) ==> b0.tools[i].toolId == IdSoFar(now, i))
  {
    assert KnowsTool(b, log, i);
    LogNext(log, i, tc, i);
    if i !in b.tools {
      UnmentionedIsNameless(log, i);
    }
    var b1 := if tc.id.Some? then SetToolId(b, i, tc.id.value) else b;
    if tc.id.Some? {
      IdForm(b, i, tc.id.value);
    }
    if tc.name.Some? {
      NameForm(b1, i, tc.name.value);
    }
  }

  /** Nothing that is seen of the tools changes. */
  ghost predicate SameFace(b: Blocks, b1: Blocks) {
    && b1 == b.(tools := b1.tools, toolOrder := b1.toolOrder, aliasBuffers := b1.aliasBuffers, aliasOrder := b1.aliasOrder)
    && b1.tools.Keys == b.tools.Keys
    && forall i | i in b.tools ::
         b1.tools[i].name == b.tools[i].name && b1.tools[i].started == b.tools[i].started && b1.tools[i].toolId == b.tools[i].toolId
  }

  lemma SameFaceKeeps(b: Blocks, b1: Blocks, wants: seq<Want>, log: Log)
    requires SameFace(b, b1)
    ensures Faces(b, wants) ==> Faces(b1, wants)
    ensures Knows(b, log) ==> Knows(b1, log)
  {
    if Faces(b, wants) {
      SameSet(StartedTools(b1), StartedTools(b));
      assert HasStartedTool(b1) <==> HasStartedTool(b) by {
        if i :| i in b.tools && b.tools[i].started {
          assert i in b1.tools && b1.tools[i].started;
        }
        if i :| i in b1.tools && b1.tools[i].started {
          assert i in b.tools && b.tools[i].started;
        }
      }
    }
    if Knows(b, log) {
      forall i
        ensures KnowsTool(b1, log, i) {
        assert KnowsTool(b, log, i);
      }
    }
  }

  lemma DeltaFace(b: Blocks, i: int, json: string)
    requires i in b.tools
    ensures var (b1, out) := ToolDelta(b, i, json); SameFace(b, b1) && Mute(out)
  {
  }

  lemma SameFaceThen(b: Blocks, b1: Blocks, b2: Blocks)
    requires SameFace(b, b1) && SameFace(b1, b2)
    ensures SameFace(b, b2)
  {
  }

  lemma BufferFace(b: Blocks, i: int, args: string, parse: string -> TaskArgs)
    requires i in b.tools
    ensures var b1 := BufferTaskArgs(b, i, args, parse).0; SameFace(b, b1) && i in b1.tools
  {
  }

  lemma AliasFace(b: Blocks, i: int, args: string, rules: ArgRules)
    requires i in b.tools
    ensures var (b1, out) := EmitAliased(b, i, args, rules); SameFace(b, b1) && Mute(out)
  {
    var restored := rules.restore(b.tools[i].name, AliasBuffer(b, i) + args);
    if restored.Some? {
      DeltaFace(DropAlias(b, i), i, restored.value);
    }
  }

  lemma ArgsFace(b: Blocks, i: int, args: string, rules: ArgRules)
    ensures var (b1, out, raised) := EmitArgs(b, i, args, rules); SameFace(b, b1) && Mute(out)
  {
    if args != "" && i in b.tools {
      if b.tools[i].name == "Task" {
        var (b1, parsed) := BufferTaskArgs(b, i, args, rules.parse);
        BufferFace(b, i, args, rules.parse);
        if parsed.Normalized? {
          DeltaFace(b1, i, parsed.json);
          SameFaceThen(b, b1, ToolDelta(b1, i, parsed.json).0);
        }
      } else if rules.aliased(b.tools[i].name) {
        AliasFace(b, i, args, rules);
      } else {
        DeltaFace(b, i, args);
      }
    }
  }

  /** The call's id and name are recorded, and nothing has been sent for it. */
  ghost predicate Ready(b0: Blocks, log: Log, now: Log, i: int) {
    && (forall t | t != i :: KnowsTool(b0, now, t))
    && KnownName(b0, i) == NameSoFar(now, i) && (i in b0.tools ==> i in Mentioned(now))
    && (IsStarted(b0, i) <==> !IsBlank(NameSoFar(log, i)))
    && (i in b0.tools && !IsStarted(b0, i) ==> b0.tools[i].toolId == IdSoFar(now, i))
  }

  lemma RegisterReady(b: Blocks, wants: seq<Want>, log: Log, i: int, tc: ToolCallDelta)
    requires Knows(b, log) && Faces(b, wants)
    ensures var (b0, now) := (Register(b, i, tc), log + [(i, tc)]); Ready(b0, log, now, i) && Faces(b0, wants)
  {
    var (b0, now) := (Register(b, i, tc), log + [(i, tc)]);
    RegisterForm(b, log, i, tc);
    RegisterOnly(b, i, tc);
    LogNext(log, i, tc, i);
    assert KnowsTool(b, log, i);
    forall t | t != i
      ensures KnowsTool(b0, now, t) {
      LogNext(log, i, tc, t);
      assert KnowsTool(b, log, t);
    }
    StartedAlike(b, b0, i);
  }

  lemma StartedAlike(b: Blocks, b0: Blocks, i: int)
    requires OnlyTool(b, b0, i) && (IsStarted(b0, i) <==> IsStarted(b, i))
    ensures (HasStartedTool(b0) <==> HasStartedTool(b)) && StartedTools(b0) == StartedTools(b)
  {
    forall t
      ensures t in StartedTools(b0) <==> t in StartedTools(b) {
      assert IsStarted(b0, t) <==> IsStarted(b, t);
    }
    SameSet(StartedTools(b0), StartedTools(b));
    if t :| t in b.tools && b.tools[t].started {
      assert IsStarted(b0, t);
    }
    if t :| t in b0.tools && b0.tools[t].started {
      assert IsStarted(b, t);
    }
  }

  /** A tool that stays as it is: it was started before, or it still has no name. */
  lemma StaysReady(b0: Blocks, log: Log, now: Log, i: int)
    requires Ready(b0, log, now, i) && i in b0.tools
    requires IsStarted(b0, i) <==> !IsBlank(NameSoFar(now, i))
    ensures Knows(b0, now)
  {
    forall t
      ensures KnowsTool(b0, now, t) {
    }
  }

  lemma StartEvent<H>(b: Blocks, i: int, id: string, name: string, want: Want, env: Env<H>)
    requires want.Starts? && want.name == name && id == if want.id == "" then "tool_" + env.uuid(b.nextIndex) else want.id
    ensures Tells(StartTool(b, i, id, name).1, [want], env)
  {
    var e := StartTool(b, i, id, name).1[0];
    OneTells([], e, [], want, env);
    assert [] + [e] + [] == [e];
  }

  /** The start of a block, with nothing held back from before. */
  lemma StartKnows(b0: Blocks, log: Log, now: Log, i: int, id: string, name: string)
    requires Ready(b0, log, now, i) && i in b0.tools && !IsStarted(b0, i) && !IsBlank(NameSoFar(now, i))
    ensures var b1 := StartTool(b0, i, id, name).0;
            Knows(PutTool(b1, i, b1.tools[i].(preStartArgs := "")), now)
  {
    var b1 := StartTool(b0, i, id, name).0;
    var b2 := PutTool(b1, i, b1.tools[i].(preStartArgs := ""));
    forall t
      ensures KnowsTool(b2, now, t) {
      if t != i {
        assert KnowsTool(b0, now, t);
      }
    }
  }

  lemma StartFaces(b0: Blocks, wants: seq<Want>, i: int, id: string, name: string, want: Want)
    requires Faces(b0, wants) && want.Starts? && i in b0.tools && !IsStarted(b0, i)
    ensures var b1 := StartTool(b0, i, id, name).0;
            Faces(PutTool(b1, i, b1.tools[i].(preStartArgs := "")), wants + [want])
  {
    var b1 := StartTool(b0, i, id, name).0;
    var b2 := PutTool(b1, i, b1.tools[i].(preStartArgs := ""));
    WantsSnoc(wants, want);
    NoMoreText(SaidText(wants));
    NoMoreText(ThoughtText(wants));
    assert i in b2.tools && b2.tools[i].started;
    OneMoreStarted(b0, b2, i);
  }

  lemma OneMoreStarted(b: Blocks, b1: Blocks, i: int)
    requires !IsStarted(b, i) && IsStarted(b1, i) && forall t | t != i :: IsStarted(b1, t) <==> IsStarted(b, t)
    ensures |StartedTools(b1)| == |StartedTools(b)| + 1
  {
    forall t
      ensures t in StartedTools(b1) <==> t in StartedTools(b) + {i} {
      assert t in StartedTools(b1) <==> IsStarted(b1, t);
      assert t in StartedTools(b) <==> IsStarted(b, t);
    }
    SameSet(StartedTools(b1), StartedTools(b) + {i});
  }

  lemma IdOfStart<H>(b0: Blocks, now: Log, log: Log, i: int, tc: ToolCallDelta, env: Env<H>)
    requires now == log + [(i, tc)] && i in b0.tools && b0.tools[i].toolId == IdSoFar(now, i)
    ensures ToolId(b0, i, tc, env.uuid) == if IdSoFar(now, i) == "" then "tool_" + env.uuid(b0.nextIndex) else IdSoFar(now, i)
  {
    LogNext(log, i, tc, i);
  }

  /** Starting, if the name is there: the client is told of it, with the id and the name so far. */
  lemma StartIfNamedFaces<H>(b0: Blocks, wants: seq<Want>, log: Log, i: int, tc: ToolCallDelta, env: Env<H>)
    requires var now := log + [(i, tc)];
             Faces(b0, wants) && Ready(b0, log, now, i) && (!IsBlank(NameSoFar(log, i)) ==> !IsBlank(NameSoFar(now, i)))
    ensures var now := log + [(i, tc)];
            var (b1, out, raised) := StartIfNamed(b0, i, tc, env);
            var more := if IsBlank(NameSoFar(log, i)) && !IsBlank(NameSoFar(now, i)) then [Starts(IdSoFar(now, i), Strip(NameSoFar(now, i)))] else [];
            && Faces(b1, wants + more) && Tells(out, more, env)
            && (if i in b0.tools then Knows(b1, now) else b1 == b0 && !raised && IsBlank(NameSoFar(now, i)))
            && (IsStarted(b1, i) <==> !IsBlank(NameSoFar(now, i)))
  {
    var now := log + [(i, tc)];
    NoMoreWants(wants);
    MuteTells([], env);
    if IsStarted(b0, i) || IsBlank(KnownName(b0, i)) {
      if i in b0.tools {
        StaysReady(b0, log, now, i);
      }
    } else {
      var want := Starts(IdSoFar(now, i), Strip(NameSoFar(now, i)));
      var id := ToolId(b0, i, tc, env.uuid);
      var (b1, out1) := StartTool(b0, i, id, want.name);
      var b2 := PutTool(b1, i, b1.tools[i].(preStartArgs := ""));
      var pre := b1.tools[i].preStartArgs;
      IdOfStart(b0, now, log, i, tc, env);
      StartEvent(b0, i, id, want.name, want, env);
      StartKnows(b0, log, now, i, id, want.name);
      StartFaces(b0, wants, i, id, want.name, want);
      ArgsAfter(b2, wants + [want], now, i, pre, out1, [want], env);
      assert KnowsTool(StartIfNamed(b0, i, tc, env).0, now, i);
    }
  }

  /** Arguments change nothing of that. */
  lemma ArgsAfter<H>(b: Blocks, wants: seq<Want>, now: Log, i: int, args: string, out: seq<Event>, told: seq<Want>, env: Env<H>)
    requires Faces(b, wants) && Knows(b, now) && Tells(out, told, env)
    ensures var (b1, out1, raised) := EmitArgs(b, i, args, env.rules);
            Faces(b1, wants) && Knows(b1, now) && Tells(out + out1, told, env)
  {
    var (b1, out1, raised) := EmitArgs(b, i, args, env.rules);
    ArgsFace(b, i, args, env.rules);
    SameFaceKeeps(b, b1, wants, now);
    MuteTells(out1, env);
    TellsBoth(out, told, out1, [], env);
    NoMoreWants(told);
  }

  lemma HoldKnows(b: Blocks, wants: seq<Want>, log: Log, now: Log, i: int, args: string)
    requires Faces(b, wants) && Ready(b, log, now, i) && !IsStarted(b, i) && IsBlank(NameSoFar(now, i)) && i in Mentioned(now)
    requires i !in b.tools ==> IdSoFar(now, i) == ""
    ensures var b1 := HoldArgs(b, i, args); Faces(b1, wants) && Knows(b1, now)
  {
    var b1 := HoldArgs(b, i, args);
    var e := EnsureTool(b, i);
    PutOnly(b, i, NewTool(""));
    PutOnly(e, i, e.tools[i].(preStartArgs := e.tools[i].preStartArgs + args));
    OnlyThen(b, e, b1, i);
    StartedAlike(b, b1, i);
    forall t
      ensures KnowsTool(b1, now, t) {
      if t != i {
        assert KnowsTool(b, now, t);
      }
    }
  }

  lemma ResolveForm(b: Blocks, log: Log, index: int)
    requires Knows(b, log)
    ensures ResolveIndex(b, index) == ForIndex(log, index)
  {
    forall i
      ensures i in b.tools.Keys <==> i in Mentioned(log) {
      assert KnowsTool(b, log, i);
    }
    SameSet(b.tools.Keys, Mentioned(log));
  }

  lemma UnnamedStays<H>(b0: Blocks, i: int, tc: ToolCallDelta, env: Env<H>)
    requires !IsStarted(b0, i) && IsBlank(KnownName(b0, i))
    ensures StartIfNamed(b0, i, tc, env) == (b0, [], false)
  {
  }

  lemma NothingToKnow(b0: Blocks, log: Log, now: Log, i: int)
    requires Ready(b0, log, now, i) && i !in b0.tools && i !in Mentioned(now)
    ensures Knows(b0, now)
  {
    UnmentionedIsNameless(now, i);
    forall t
      ensures KnowsTool(b0, now, t) {
    }
  }

  /** The call after its name is known or not: arguments are sent, or held back. */
  lemma CallEnds<H>(b: Blocks, wants: seq<Want>, log: Log, i: int, tc: ToolCallDelta, env: Env<H>)
    requires tc.index.Some? && i == ResolveIndex(b, tc.index.value) && Knows(b, log) && Faces(b, wants)
    requires IsBlank(NameSoFar(log + [(i, tc)], i))
    ensures var (b1, out, raised) := ProcessToolCall(b, tc, env);
            Faces(b1, wants) && Knows(b1, log + [(i, tc)]) && out == []
  {
    var (b0, now) := (Register(b, i, tc), log + [(i, tc)]);
    RegisterReady(b, wants, log, i, tc);
    RegisterForm(b, log, i, tc);
    LogNext(log, i, tc, i);
    NameStaysBlank(log, i, tc);
    UnnamedStays(b0, i, tc, env);
    if tc.arguments != "" {
      if i !in b0.tools {
        UnmentionedIsNameless(log, i);
      }
      HoldKnows(b0, wants, log, now, i, tc.arguments);
    } else if i in b0.tools {
      StaysReady(b0, log, now, i);
    } else {
      NothingToKnow(b0, log, now, i);
    }
  }

  lemma NameStaysBlank(log: Log, i: int, tc: ToolCallDelta)
    ensures IsBlank(NameSoFar(log + [(i, tc)], i)) ==> IsBlank(NameSoFar(log, i))
  {
    LogNext(log, i, tc, i);
    if tc.name.Some? {
      BlankJoins(NameSoFar(log, i), tc.name.value);
    }
  }

  lemma NamedCall<H>(b: Blocks, wants: seq<Want>, log: Log, i: int, tc: ToolCallDelta, env: Env<H>)
    requires tc.index.Some? && i == ResolveIndex(b, tc.index.value) && Knows(b, log) && Faces(b, wants)
    requires !IsBlank(NameSoFar(log + [(i, tc)], i))
    ensures var now := log + [(i, tc)];
            var (b1, out, raised) := ProcessToolCall(b, tc, env);
            var more := if IsBlank(NameSoFar(log, i)) then [Starts(IdSoFar(now, i), Strip(NameSoFar(now, i)))] else [];
            Faces(b1, wants + more) && Knows(b1, now) && Tells(out, more, env)
  {
    var (b0, now) := (Register(b, i, tc), log + [(i, tc)]);
    RegisterReady(b, wants, log, i, tc);
    NameStaysBlank(log, i, tc);
    StartIfNamedFaces(b0, wants, log, i, tc, env);
    var (b1, out1, raised1) := StartIfNamed(b0, i, tc, env);
    var more := if IsBlank(NameSoFar(log, i)) then [Starts(IdSoFar(now, i), Strip(NameSoFar(now, i)))] else [];
    if !raised1 && tc.arguments != "" {
      ArgsAfter(b1, wants + more, now, i, tc.arguments, out1, more, env);
    }
  }

  /** One call delta. */
  lemma CallFaces<H>(b: Blocks, wants: seq<Want>, log: Log, tc: ToolCallDelta, env: Env<H>)
    requires Knows(b, log) && Faces(b, wants)
    ensures var (b1, out, raised) := ProcessToolCall(b, tc, env);
            Faces(b1, wants + WantCall(log, tc)) && Knows(b1, LogCall(log, tc)) && Tells(out, WantCall(log, tc), env)
  {
    NoMoreWants(wants);
    MuteTells([], env);
    if tc.index.Some? {
      ResolveForm(b, log, tc.index.value);
      var i := ForIndex(log, tc.index.value);
      if IsBlank(NameSoFar(log + [(i, tc)], i)) {
        CallEnds(b, wants, log, i, tc, env);
      } else {
        NamedCall(b, wants, log, i, tc, env);
      }
    }
  }

  // ---------------------------------------------------------------------------------------------
  // Chunks
  // ---------------------------------------------------------------------------------------------

  /** The calls up to the one that makes the stream raise. */
  function ReadCalls<H>(b: Blocks, tcs: seq<ToolCallDelta>, env: Env<H>): seq<ToolCallDelta>
    decreases tcs
  {
    if tcs == [] then []
    else
      var (b1, out1, raised) := ProcessToolCall(b, tcs[0], env);
      [tcs[0]] + if raised then [] else ReadCalls(b1, tcs[1..], env)
  }

  function ReadOf<H>(s: Session<H>, chunk: UpstreamChunk, env: Env<H>): UpstreamChunk {
    if chunk.Delta? then chunk.(toolCalls := ReadCalls(BeforeCalls(s, chunk, env), chunk.toolCalls, env)) else chunk
  }

  /** The part of a list of chunks that is read: all of it, or up to the call that makes the stream raise. */
  function Read<H>(s: Session<H>, chunks: seq<UpstreamChunk>, env: Env<H>): seq<UpstreamChunk>
    decreases chunks
  {
    if chunks == [] then []
    else
      var (s1, out1, raised) := ProcessChunk(s, chunks[0], env);
      [ReadOf(s, chunks[0], env)] + if raised then [] else Read(s1, chunks[1..], env)
  }

  lemma {:induction false} AllCallsRead<H>(b: Blocks, tcs: seq<ToolCallDelta>, env: Env<H>)
    ensures ReadCalls(b, tcs, env) <= tcs && (!ProcessToolCalls(b, tcs, env).2 ==> ReadCalls(b, tcs, env) == tcs)
    decreases tcs
  {
    if tcs != [] {
      var (b1, out1, raised) := ProcessToolCall(b, tcs[0], env);
      assert tcs == [tcs[0]] + tcs[1..];
      if !raised {
        AllCallsRead(b1, tcs[1..], env);
      }
    }
  }

  /** A stream that does not raise is read to its end. */
  lemma {:induction false} AllIsRead<H>(s: Session<H>, chunks: seq<UpstreamChunk>, env: Env<H>)
    ensures !ProcessChunks(s, chunks, env).2 ==> Read(s, chunks, env) == chunks
    decreases chunks
  {
    if chunks != [] {
      var (s1, out1, raised) := ProcessChunk(s, chunks[0], env);
      assert chunks == [chunks[0]] + chunks[1..];
      if !raised {
        if chunks[0].Delta? {
          AllCallsRead(BeforeCalls(s, chunks[0], env), chunks[0].toolCalls, env);
        }
        AllIsRead(s1, chunks[1..], env);
      }
    }
  }

  lemma {:induction false} CallsFace<H>(b: Blocks, wants: seq<Want>, log: Log, tcs: seq<ToolCallDelta>, env: Env<H>)
    requires Knows(b, log) && Faces(b, wants)
    ensures var (b1, out, raised) := ProcessToolCalls(b, tcs, env);
            var read := ReadCalls(b, tcs, env);
            && Faces(b1, wants + WantCalls(log, read)) && Knows(b1, LogCalls(log, read))
            && Tells(out, WantCalls(log, read), env)
    decreases tcs
  {
    if tcs == [] {
      NoMoreWants(wants);
      MuteTells([], env);
    } else {
      var (b1, out1, raised) := ProcessToolCall(b, tcs[0], env);
      var first, log1 := WantCall(log, tcs[0]), LogCall(log, tcs[0]);
      CallFaces(b, wants, log, tcs[0], env);
      if raised {
        assert [tcs[0]] + [] == [tcs[0]] && [tcs[0]][1..] == [];
        NoMoreWants(first);
      } else {
        CallsFace(b1, wants + first, log1, tcs[1..], env);
        var rest := ReadCalls(b1, tcs[1..], env);
        assert ([tcs[0]] + rest)[0] == tcs[0] && ([tcs[0]] + rest)[1..] == rest;
        WantsRegroup(wants, first, WantCalls(log1, rest));
        TellsBoth(out1, first, ProcessToolCalls(b1, tcs[1..], env).1, WantCalls(log1, rest), env);
      }
    }
  }

  lemma CloseFaces<H>(b: Blocks, wants: seq<Want>, env: Env<H>)
    requires Faces(b, wants)
    ensures var (b1, out) := CloseContent(b); Faces(b1, wants) && b1.tools == b.tools && Mute(out) && Tells(out, [], env)
  {
    MuteTells(CloseContent(b).1, env);
  }

  lemma SameToolsKnown(b: Blocks, b1: Blocks, log: Log)
    requires Knows(b, log) && b1.tools == b.tools
    ensures Knows(b1, log)
  {
    forall i
      ensures KnowsTool(b1, log, i) {
      assert KnowsTool(b, log, i);
    }
  }

  lemma ToolPhaseFaces<H>(b: Blocks, wants: seq<Want>, log: Log, tcs: seq<ToolCallDelta>, env: Env<H>)
    requires Knows(b, log) && Faces(b, wants)
    ensures var (b1, out, raised) := ToolPhase(b, tcs, env);
            var read := ReadCalls(CloseContent(b).0, tcs, env);
            && Faces(b1, wants + WantCalls(log, read)) && Knows(b1, LogCalls(log, read))
            && Tells(out, WantCalls(log, read), env)
  {
    if tcs == [] {
      NoMoreWants(wants);
      MuteTells([], env);
    } else {
      var (b1, out1) := CloseContent(b);
      CloseFaces(b, wants, env);
      SameToolsKnown(b, b1, log);
      CallsFace(b1, wants, log, tcs, env);
      var more := WantCalls(log, ReadCalls(b1, tcs, env));
      TellsBoth(out1, [], ProcessToolCalls(b1, tcs, env).1, more, env);
      NoMoreWants(more);
    }
  }

  /** The stream has been read that far, and has said these things. */
  ghost predicate Stands<H>(s: Session<H>, r: Reading<H>, wants: seq<Want>) {
    && s.parser == r.parser && s.heuristic == r.heuristic && s.finish == r.finish
    && Faces(s.blocks, wants) && Knows(s.blocks, r.log)
  }

  lemma ReasonFaces<H>(b: Blocks, wants: seq<Want>, reasoning: string, env: Env<H>)
    requires Faces(b, wants)
    ensures var (b1, out) := Reason(b, reasoning, env.thinking);
            var more := if env.thinking && reasoning != "" then [Thinks(reasoning)] else [];
            Faces(b1, wants + more) && Tells(out, more, env) && b1.tools == b.tools
  {
    NoMoreWants(wants);
    MuteTells([], env);
    if env.thinking && reasoning != "" {
      ThinkFaces(b, wants, reasoning, env);
    }
  }

  lemma ChunkFaces<H>(s: Session<H>, r: Reading<H>, wants: seq<Want>, chunk: UpstreamChunk, env: Env<H>)
    requires Stands(s, r, wants)
    ensures var (s1, out, raised) := ProcessChunk(s, chunk, env);
            var (r1, more) := WantChunk(r, ReadOf(s, chunk, env), env);
            Stands(s1, r1, wants + more) && Tells(out, more, env)
  {
    NoMoreWants(wants);
    MuteTells([], env);
    if chunk.Delta? {
      var (b1, out1) := Reason(s.blocks, chunk.reasoning, env.thinking);
      var (parser, parts) := Parts(s.parser, chunk.content);
      var (b2, h, out2) := EmitParts(b1, s.heuristic, parts, env);
      var thought := if env.thinking && chunk.reasoning != "" then [Thinks(chunk.reasoning)] else [];
      var said := WantParts(s.heuristic, parts, env).1;
      ReasonFaces(s.blocks, wants, chunk.reasoning, env);
      PartsFace(b1, wants + thought, s.heuristic, parts, env);
      SameToolsKnown(s.blocks, b2, r.log);
      ToolPhaseFaces(b2, wants + thought + said, r.log, chunk.toolCalls, env);
      var read := ReadCalls(CloseContent(b2).0, chunk.toolCalls, env);
      ThreeTell(wants, out1, thought, out2, said, ToolPhase(b2, chunk.toolCalls, env).1, WantCalls(r.log, read), env);
    }
  }

  lemma ThreeWants(wants: seq<Want>, x: seq<Want>, y: seq<Want>, z: seq<Want>)
    ensures wants + (x + y + z) == wants + x + y + z
  {
  }

  lemma ThreeTell<H>(wants: seq<Want>, out1: seq<Event>, x: seq<Want>, out2: seq<Event>, y: seq<Want>, out3: seq<Event>, z: seq<Want>, env: Env<H>)
    requires Tells(out1, x, env) && Tells(out2, y, env) && Tells(out3, z, env)
    ensures Tells(out1 + out2 + out3, x + y + z, env) && wants + (x + y + z) == wants + x + y + z
  {
    TellsBoth(out1, x, out2, y, env);
    TellsBoth(out1 + out2, x + y, out3, z, env);
    ThreeWants(wants, x, y, z);
  }

  lemma {:induction false} ChunksFace<H>(s: Session<H>, r: Reading<H>, wants: seq<Want>, chunks: seq<UpstreamChunk>, env: Env<H>)
    requires Stands(s, r, wants)
    ensures var (s1, out, raised) := ProcessChunks(s, chunks, env);
            var (r1, more) := WantAll(r, Read(s, chunks, env), env);
            Stands(s1, r1, wants + more) && Tells(out, more, env)
    decreases chunks
  {
    if chunks == [] {
      NoMoreWants(wants);
      MuteTells([], env);
    } else {
      var (s1, out1, raised) := ProcessChunk(s, chunks[0], env);
      var read := ReadOf(s, chunks[0], env);
      var (r1, first) := WantChunk(r, read, env);
      ChunkFaces(s, r, wants, chunks[0], env);
      if raised {
        assert [read] + [] == [read] && [read][1..] == [];
        NoMoreWants(first);
      } else {
        ChunksFace(s1, r1, wants + first, chunks[1..], env);
        var rest := Read(s1, chunks[1..], env);
        assert ([read] + rest)[0] == read && ([read] + rest)[1..] == rest;
        WantsRegroup(wants, first, WantAll(r1, rest, env).1);
        TellsBoth(out1, first, ProcessChunks(s1, chunks[1..], env).1, WantAll(r1, rest, env).1, env);
      }
    }
  }
}
