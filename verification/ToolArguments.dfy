/** Tool arguments on their way through the OpenAI stream: after any chunks, what was sent and what is
    held back are what was received, however the upstream splits names, ids and arguments. */
module ToolArguments {
  import opened Prelude
  import opened SseEvents
  import opened StreamContract
  import opened SseBuilder
  import opened ThinkTags
  import opened OpenAIStream
  import opened OpenAIContract

  /** The JSON fragments sent to the block at index d, in order. */
  function Payloads(out: seq<Event>, d: int): seq<string> {
    if out == [] then [] else PayloadOf(out[0], d) + Payloads(out[1..], d)
  }

  function PayloadOf(e: Event, d: int): seq<string> {
    if e.BlockDelta? && e.index == d && e.delta.InputJsonDelta? then [e.delta.partialJson] else []
  }

  lemma {:induction false} PayloadsAppend(a: seq<Event>, b: seq<Event>, d: int)
    ensures Payloads(a + b, d) == Payloads(a, d) + Payloads(b, d)
  {
    if a == [] {
      assert a + b == b;
    } else {
      assert (a + b)[0] == a[0] && (a + b)[1..] == a[1..] + b;
      PayloadsAppend(a[1..], b, d);
      Together(PayloadOf(a[0], d), Payloads(a[1..], d), Payloads(b, d));
    }
  }

  lemma Together(a: seq<string>, b: seq<string>, c: seq<string>)
    ensures a + (b + c) == a + b + c
  {
  }

  /** No JSON fragment in the events is for block d. */
  predicate Silent(out: seq<Event>, d: int) {
    forall k | 0 <= k < |out| && out[k].BlockDelta? && out[k].delta.InputJsonDelta? :: out[k].index != d
  }

  lemma {:induction false} SilentHasNone(out: seq<Event>, d: int)
    requires Silent(out, d)
    ensures Payloads(out, d) == []
  {
    if out != [] {
      assert out[0] == out[0];
      assert forall k | 0 <= k < |out[1..]| :: out[1..][k] == out[k + 1];
      SilentHasNone(out[1..], d);
    }
  }

  /** JSON fragments go to allocated blocks only. */
  predicate Below(out: seq<Event>, next: int) {
    forall k | 0 <= k < |out| && out[k].BlockDelta? :: out[k].index < next
  }

  /** What tool t was sent and what it holds back add up to what was received for it. */
  ghost predicate Conserved(b: Blocks, out: seq<Event>, t: int, received: string) {
    && Below(out, b.nextIndex) && t !in b.aliasBuffers
    && (t !in b.tools ==> received == "")
    && (t in b.tools ==>
          var tool := b.tools[t];
          && Concat(tool.contents) + tool.preStartArgs == received && tool.taskArgBuffer == ""
          && (if tool.started then Payloads(out, tool.blockIndex) == tool.contents && tool.preStartArgs == ""
              else tool.contents == []))
  }

  /** Events that say nothing for tool t, from a step that leaves it alone. */
  lemma QuietStep(b: Blocks, b1: Blocks, out: seq<Event>, out1: seq<Event>, t: int, received: string)
    requires Conserved(b, out, t, received)
    requires b.nextIndex <= b1.nextIndex && Below(out1, b1.nextIndex)
    requires (t in b1.tools <==> t in b.tools) && t !in b1.aliasBuffers
    requires t in b.tools ==>
      && b1.tools[t].started == b.tools[t].started && b1.tools[t].blockIndex == b.tools[t].blockIndex
      && b1.tools[t].contents == b.tools[t].contents && b1.tools[t].preStartArgs == b.tools[t].preStartArgs
      && b1.tools[t].taskArgBuffer == b.tools[t].taskArgBuffer
    requires IsStarted(b, t) ==> Silent(out1, b.tools[t].blockIndex)
    ensures Conserved(b1, out + out1, t, received)
  {
    if IsStarted(b, t) {
      SilentHasNone(out1, b.tools[t].blockIndex);
      PayloadsAppend(out, out1, b.tools[t].blockIndex);
    }
  }

  lemma {:induction false} ConcatOne(parts: seq<string>, last: string)
    ensures Concat(parts + [last]) == Concat(parts) + last
  {
    ConcatSnoc(parts, last);
  }

  lemma DeltaConserves(b: Blocks, out: seq<Event>, t: int, received: string, args: string)
    requires Conserved(b, out, t, received) && IsStarted(b, t)
    requires b.tools[t].blockIndex < b.nextIndex
    ensures var (b1, out1) := ToolDelta(b, t, args); Conserved(b1, out + out1, t, received + args)
  {
    var (b1, out1) := ToolDelta(b, t, args);
    PayloadsGrow(out, b.tools[t].blockIndex, args);
    ContentsGrow(b.tools[t].contents, received, args);
  }

  lemma PayloadsGrow(out: seq<Event>, d: int, args: string)
    ensures Payloads(out + [BlockDelta(d, InputJsonDelta(args))], d) == Payloads(out, d) + [args]
  {
    var delta := [BlockDelta(d, InputJsonDelta(args))];
    PayloadsAppend(out, delta, d);
    assert delta[1..] == [] && Payloads(delta, d) == [args];
  }

  lemma ContentsGrow(contents: seq<string>, received: string, args: string)
    requires Concat(contents) + "" == received
    ensures Concat(contents + [args]) + "" == received + args
  {
    ConcatOne(contents, args);
    assert Concat(contents) + "" == Concat(contents);
    assert Concat(contents + [args]) + "" == Concat(contents + [args]);
  }

  /** Arguments of a tool of this name are sent as they come. */
  predicate PlainName(name: string, rules: ArgRules) {
    name != "Task" && !rules.aliased(name)
  }

  /** EmitArgs for the tool itself, when its arguments are sent as they come. */
  lemma ArgsConserve(b: Blocks, out: seq<Event>, t: int, received: string, args: string, rules: ArgRules)
    requires Conserved(b, out, t, received) && IsStarted(b, t) && PlainName(b.tools[t].name, rules)
    requires b.tools[t].blockIndex < b.nextIndex
    ensures var (b1, out1, raised) := EmitArgs(b, t, args, rules);
            !raised && Conserved(b1, out + out1, t, received + args)
  {
    if args == "" {
      assert received + args == received && out + [] == out;
    } else {
      DeltaConserves(b, out, t, received, args);
    }
  }

  lemma EmitArgsForm(b: Blocks, i: int, args: string, rules: ArgRules)
    requires i in b.tools
    ensures var (b1, out, raised) := EmitArgs(b, i, args, rules);
            && i in b1.tools && b1 == PutTool(b, i, b1.tools[i]).(aliasBuffers := b1.aliasBuffers, aliasOrder := b1.aliasOrder)
            && (forall t | t != i :: (t in b1.aliasBuffers <==> t in b.aliasBuffers) && AliasBuffer(b1, t) == AliasBuffer(b, t))
            && (out == [] || (|out| == 1 && out[0].BlockDelta? && out[0].index == b.tools[i].blockIndex))
  {
    PutSame(b, i);
    if args != "" && b.tools[i].name == "Task" {
      var (b1, parsed) := BufferTaskArgs(b, i, args, rules.parse);
      if parsed.Normalized? {
        PutTwice(b, i, b1.tools[i], ToolDelta(b1, i, parsed.json).0.tools[i]);
      }
    }
  }

  lemma PutSame(b: Blocks, i: int)
    requires i in b.tools
    ensures PutTool(b, i, b.tools[i]) == b
  {
    assert b.tools[i := b.tools[i]] == b.tools;
  }

  lemma PutTwice(b: Blocks, i: int, t1: ToolCallState, t2: ToolCallState)
    ensures PutTool(PutTool(b, i, t1), i, t2) == PutTool(b, i, t2)
  {
    assert b.tools[i := t1][i := t2] == b.tools[i := t2];
  }

  /** EmitArgs for another started tool. */
  lemma OtherArgs(b: Blocks, c: Check, out: seq<Event>, t: int, received: string, i: int, args: string, rules: ArgRules)
    requires Sim(b, c) && Conserved(b, out, t, received) && IsStarted(b, i) && i != t
    ensures var (b1, out1, raised) := EmitArgs(b, i, args, rules); Conserved(b1, out + out1, t, received)
  {
    var (b1, out1, raised) := EmitArgs(b, i, args, rules);
    assert IsOpen(c, b.tools[i].blockIndex, ToolOpen);
    EmitArgsForm(b, i, args, rules);
    QuietStep(b, b1, out, out1, t, received);
  }

  /** Sequences of events and of received text may be regrouped. */
  lemma Regroup(b: Blocks, out: seq<Event>, out1: seq<Event>, out2: seq<Event>, t: int, r: string, r1: string, r2: string)
    requires Conserved(b, out + out1 + out2, t, r + r1 + r2)
    ensures Conserved(b, out + (out1 + out2), t, r + (r1 + r2))
  {
    assert out + (out1 + out2) == out + out1 + out2;
    assert r + (r1 + r2) == r + r1 + r2;
  }

  lemma NothingMore(b: Blocks, out: seq<Event>, t: int, r: string)
    requires Conserved(b, out, t, r)
    ensures Conserved(b, out + [], t, r + "")
  {
    assert out + [] == out && r + "" == r;
  }

  lemma NoText(b: Blocks, out: seq<Event>, t: int, r: string)
    ensures Conserved(b, out, t, r + "") <==> Conserved(b, out, t, r)
  {
    assert r + "" == r;
  }

  /** Changing what a tool knows about itself, but not its arguments. */
  lemma EditConserves(b: Blocks, out: seq<Event>, t: int, received: string, i: int, tool: ToolCallState)
    requires Conserved(b, out, t, received)
    requires i in b.tools ==>
      && tool.started == b.tools[i].started && tool.blockIndex == b.tools[i].blockIndex
      && tool.contents == b.tools[i].contents && tool.preStartArgs == b.tools[i].preStartArgs
      && tool.taskArgBuffer == b.tools[i].taskArgBuffer
    requires i !in b.tools ==> !tool.started && tool.contents == [] && tool.preStartArgs == "" && tool.taskArgBuffer == ""
    ensures Conserved(PutTool(b, i, tool), out, t, received)
    ensures IsStarted(PutTool(b, i, tool), i) <==> IsStarted(b, i)
  {
    if i == t && i !in b.tools {
      assert Concat<char>([]) + "" == "";
    }
  }

  lemma SetIdConserves(b: Blocks, out: seq<Event>, t: int, received: string, i: int, id: string)
    requires Conserved(b, out, t, received)
    ensures Conserved(SetToolId(b, i, id), out, t, received)
    ensures IsStarted(SetToolId(b, i, id), i) <==> IsStarted(b, i)
  {
    if id != "" {
      if i !in b.tools {
        EditConserves(b, out, t, received, i, NewTool(""));
      }
      var b1 := EnsureTool(b, i);
      EditConserves(b1, out, t, received, i, b1.tools[i].(toolId := id));
    }
  }

  lemma NameConserves(b: Blocks, out: seq<Event>, t: int, received: string, i: int, name: string)
    requires Conserved(b, out, t, received)
    ensures Conserved(RegisterName(b, i, name), out, t, received)
    ensures IsStarted(RegisterName(b, i, name), i) <==> IsStarted(b, i)
  {
    if i !in b.tools {
      EditConserves(b, out, t, received, i, NewTool(name));
    } else {
      EditConserves(b, out, t, received, i, b.tools[i].(name := name));
      EditConserves(b, out, t, received, i, b.tools[i].(name := b.tools[i].name + name));
    }
  }

  lemma RegisterConserves(b: Blocks, out: seq<Event>, t: int, received: string, i: int, tc: ToolCallDelta)
    requires Conserved(b, out, t, received)
    ensures Conserved(Register(b, i, tc), out, t, received)
    ensures IsStarted(Register(b, i, tc), i) <==> IsStarted(b, i)
  {
    var b1 := b;
    if tc.id.Some? {
      SetIdConserves(b, out, t, received, i, tc.id.value);
      b1 := SetToolId(b, i, tc.id.value);
    }
    if tc.name.Some? {
      NameConserves(b1, out, t, received, i, tc.name.value);
    }
  }

  /** The tool's own start: nothing was sent to its new block before. */
  lemma OwnStart(b: Blocks, out: seq<Event>, t: int, received: string, id: string, name: string)
    requires Conserved(b, out, t, received) && t in b.tools && !b.tools[t].started && 0 <= b.nextIndex
    ensures var (b1, out1) := StartTool(b, t, id, name);
            && b1.tools[t].preStartArgs == received
            && Conserved(PutTool(b1, t, b1.tools[t].(preStartArgs := "")), out + out1, t, "")
  {
    var (b1, out1) := StartTool(b, t, id, name);
    PayloadsAppend(out, out1, b.nextIndex);
    SilentHasNone(out, b.nextIndex);
    assert out1[1..] == [];
    assert Concat<char>([]) + b.tools[t].preStartArgs == b.tools[t].preStartArgs;
    assert Concat<char>([]) + "" == "";
  }

  lemma OtherStart(b: Blocks, out: seq<Event>, t: int, received: string, i: int, id: string, name: string)
    requires Conserved(b, out, t, received) && i != t
    ensures var (b1, out1) := StartTool(b, i, id, name);
            Conserved(PutTool(b1, i, b1.tools[i].(preStartArgs := "")), out + out1, t, received)
  {
    var (b1, out1) := StartTool(b, i, id, name);
    QuietStep(b, PutTool(b1, i, b1.tools[i].(preStartArgs := "")), out, out1, t, received);
  }

  /** The held-back arguments go out after the start. */
  lemma ReleaseConserves(b2: Blocks, c1: Check, sofar: seq<Event>, t: int, received: string, i: int, pre: string, rules: ArgRules)
    requires Sim(b2, c1) && IsStarted(b2, i) && Conserved(b2, sofar, t, if i == t then "" else received)
    requires i == t ==> PlainName(b2.tools[t].name, rules) && pre == received
    ensures var (b3, out3, raised) := EmitArgs(b2, i, pre, rules);
            Conserved(b3, sofar + out3, t, received) && (i == t ==> !raised)
  {
    if i == t {
      assert b2.tools[i].blockIndex in c1.open;
      ArgsConserve(b2, sofar, t, "", pre, rules);
      assert "" + pre == pre;
    } else {
      OtherArgs(b2, c1, sofar, t, received, i, pre, rules);
    }
  }

  lemma EmitArgsFrame(b: Blocks, i: int, args: string, rules: ArgRules)
    requires IsStarted(b, i)
    ensures var b1 := EmitArgs(b, i, args, rules).0; IsStarted(b1, i) && b1.tools[i].name == b.tools[i].name
  {
  }

  lemma StartConserves<H>(b: Blocks, c: Check, out: seq<Event>, t: int, received: string, i: int, tc: ToolCallDelta, env: Env<H>)
    requires Sim(b, c) && Conserved(b, out, t, received)
    requires i == t ==> PlainName(KnownName(b, t), env.rules)
    ensures var (b1, out1, raised) := StartIfNamed(b, i, tc, env);
            && Conserved(b1, out + out1, t, received)
            && (i == t ==> !raised)
            && KnownName(b1, i) == KnownName(b, i)
            && (IsStarted(b1, i) || (b1 == b && IsBlank(KnownName(b, i))))
  {
    if IsStarted(b, i) || IsBlank(KnownName(b, i)) {
      assert out + [] == out;
    } else {
      var id, name := ToolId(b, i, tc, env.uuid), Strip(KnownName(b, i));
      StartToolKeeps(b, c, i, id, name);
      var (b1, out1) := StartTool(b, i, id, name);
      var pre := b1.tools[i].preStartArgs;
      var b2 := PutTool(b1, i, b1.tools[i].(preStartArgs := ""));
      EditToolKeeps(b1, Fold(c, out1).value, i, b1.tools[i].(preStartArgs := ""));
      if i == t {
        OwnStart(b, out, t, received, id, name);
      } else {
        OtherStart(b, out, t, received, i, id, name);
      }
      ReleaseConserves(b2, Fold(c, out1).value, out + out1, t, received, i, pre, env.rules);
      EmitArgsFrame(b2, i, pre, env.rules);
      Associate(out, out1, EmitArgs(b2, i, pre, env.rules).1);
    }
  }

  /** The tool a call delta is for, once its negative index is resolved. */
  function Target(b: Blocks, tc: ToolCallDelta): Option<int> {
    if tc.index.None? then None else Some(ResolveIndex(b, tc.index.value))
  }

  /** The call does not leave its tool t with a name whose arguments are rewritten. */
  predicate LeavesPlain(b: Blocks, tc: ToolCallDelta, t: int, rules: ArgRules) {
    Target(b, tc) == Some(t) ==> PlainName(KnownName(Register(b, t, tc), t), rules)
  }

  function Fragment(b: Blocks, tc: ToolCallDelta, t: int): string {
    if Target(b, tc) == Some(t) then tc.arguments else ""
  }

  /** The arguments of a call, after its block was started if it could be. */
  lemma RestConserves(b1: Blocks, c1: Check, sofar: seq<Event>, t: int, received: string, i: int, args: string, rules: ArgRules)
    requires Sim(b1, c1) && IsStarted(b1, i) && Conserved(b1, sofar, t, received)
    requires i == t ==> PlainName(b1.tools[t].name, rules)
    ensures var (b2, out2, raised2) := EmitArgs(b1, i, args, rules);
            Conserved(b2, sofar + out2, t, received + if i == t then args else "")
  {
    if i == t {
      assert b1.tools[i].blockIndex in c1.open;
      ArgsConserve(b1, sofar, t, received, args, rules);
    } else {
      OtherArgs(b1, c1, sofar, t, received, i, args, rules);
      assert received + "" == received;
    }
  }

  lemma CallConserves<H>(b: Blocks, c: Check, out: seq<Event>, t: int, received: string, tc: ToolCallDelta, env: Env<H>)
    requires Sim(b, c) && Conserved(b, out, t, received) && LeavesPlain(b, tc, t, env.rules)
    ensures var (b1, out1, raised) := ProcessToolCall(b, tc, env);
            Conserved(b1, out + out1, t, received + Fragment(b, tc, t))
  {
    if tc.index.None? {
      NothingMore(b, out, t, received);
    } else {
      var i := ResolveIndex(b, tc.index.value);
      var b0 := Register(b, i, tc);
      RegisterKeeps(b, c, i, tc);
      RegisterConserves(b, out, t, received, i, tc);
      StartConserves(b0, c, out, t, received, i, tc, env);
      StartIfNamedKeeps(b0, c, i, tc, env);
      var (b1, out1, raised1) := StartIfNamed(b0, i, tc, env);
      if raised1 || tc.arguments == "" {
        NoText(b1, out + out1, t, received);
      } else if !IsStarted(b1, i) {
        HoldConserves(b1, out + out1, t, received, i, tc.arguments);
      } else {
        RestConserves(b1, Fold(c, out1).value, out + out1, t, received, i, tc.arguments, env.rules);
        Associate(out, out1, EmitArgs(b1, i, tc.arguments, env.rules).1);
      }
    }
  }

  lemma HoldConserves(b: Blocks, out: seq<Event>, t: int, received: string, i: int, args: string)
    requires Conserved(b, out, t, received) && !IsStarted(b, i)
    ensures Conserved(HoldArgs(b, i, args), out, t, received + if i == t then args else "")
  {
    assert received + "" == received;
    if i == t {
      var held := EnsureTool(b, t).tools[t].preStartArgs;
      assert Concat<char>([]) == "" && "" + held == held && held == received;
      assert "" + (held + args) == held + args;
    }
  }

  // ---------------------------------------------------------------------------------------------
  // Whole streams
  // ---------------------------------------------------------------------------------------------

  /** The fragments received for tool t by a list of calls, up to and including one that raises. */
  function ReceivedInCalls<H>(b: Blocks, tcs: seq<ToolCallDelta>, env: Env<H>, t: int): string
    decreases tcs
  {
    if tcs == [] then ""
    else
      var (b1, out1, raised) := ProcessToolCall(b, tcs[0], env);
      Fragment(b, tcs[0], t) + if raised then "" else ReceivedInCalls(b1, tcs[1..], env, t)
  }

  predicate StaysPlainInCalls<H>(b: Blocks, tcs: seq<ToolCallDelta>, env: Env<H>, t: int)
    decreases tcs
  {
    tcs != [] ==>
      var (b1, out1, raised) := ProcessToolCall(b, tcs[0], env);
      LeavesPlain(b, tcs[0], t, env.rules) && (raised || StaysPlainInCalls(b1, tcs[1..], env, t))
  }

  lemma CallsHead<H>(b: Blocks, tcs: seq<ToolCallDelta>, env: Env<H>, t: int)
    requires tcs != [] && StaysPlainInCalls(b, tcs, env, t)
    ensures LeavesPlain(b, tcs[0], t, env.rules)
    ensures var (b1, out1, raised) := ProcessToolCall(b, tcs[0], env);
            && (raised || StaysPlainInCalls(b1, tcs[1..], env, t))
            && ReceivedInCalls(b, tcs, env, t)
               == Fragment(b, tcs[0], t) + if raised then "" else ReceivedInCalls(b1, tcs[1..], env, t)
  {
  }

  lemma {:induction false} CallsConserve<H>(b: Blocks, c: Check, out: seq<Event>, t: int, received: string, tcs: seq<ToolCallDelta>, env: Env<H>)
    requires Sim(b, c) && Conserved(b, out, t, received) && StaysPlainInCalls(b, tcs, env, t)
    ensures var (b1, out1, raised) := ProcessToolCalls(b, tcs, env);
            Conserved(b1, out + out1, t, received + ReceivedInCalls(b, tcs, env, t))
    decreases tcs
  {
    if tcs == [] {
      NothingMore(b, out, t, received);
    } else {
      CallsHead(b, tcs, env, t);
      CallConserves(b, c, out, t, received, tcs[0], env);
      ToolCallKeeps(b, c, tcs[0], env);
      var (b1, out1, raised) := ProcessToolCall(b, tcs[0], env);
      var first := Fragment(b, tcs[0], t);
      CallsUnfold(b, tcs, env, b1, out1, raised, out);
      if raised {
        assert first + "" == first;
      } else {
        CallsConserve(b1, Fold(c, out1).value, out + out1, t, received + first, tcs[1..], env);
        var (b2, out2, raised2) := ProcessToolCalls(b1, tcs[1..], env);
        Regroup(b2, out, out1, out2, t, received, first, ReceivedInCalls(b1, tcs[1..], env, t));
      }
    }
  }

  /** A step that says only text, thinking and complete heuristic blocks. */
  ghost predicate LeavesTools(b: Blocks, b1: Blocks, out: seq<Event>) {
    && b1.tools == b.tools && b1.aliasBuffers == b.aliasBuffers
    && b.nextIndex <= b1.nextIndex
    && Below(out, b1.nextIndex)
    && forall d | d < b.nextIndex :: Silent(out, d)
  }

  lemma LeavesThen(b: Blocks, b1: Blocks, b2: Blocks, out1: seq<Event>, out2: seq<Event>)
    requires LeavesTools(b, b1, out1) && LeavesTools(b1, b2, out2)
    ensures LeavesTools(b, b2, out1 + out2)
  {
    assert forall d | d < b.nextIndex :: Silent(out1, d) && Silent(out2, d);
    forall d | d < b.nextIndex ensures Silent(out1 + out2, d) {
      assert Silent(out1, d) && Silent(out2, d);
    }
  }

  lemma TextLeaves(b: Blocks, c: Check, content: string)
    requires Sim(b, c)
    ensures var (b1, out) := Say(b, content); LeavesTools(b, b1, out)
    ensures var (b1, out) := Think(b, content); LeavesTools(b, b1, out)
    ensures var (b1, out) := CloseContent(b); LeavesTools(b, b1, out)
  {
  }

  lemma WholeToolLeaves(b: Blocks, tool: ToolUse)
    ensures LeavesTools(b, b.(nextIndex := b.nextIndex + 1), WholeTool(b.nextIndex, tool))
  {
  }

  lemma HeuristicToolLeaves(b: Blocks, c: Check, tool: ToolUse)
    requires Sim(b, c)
    ensures var (b1, out) := HeuristicTool(b, tool); LeavesTools(b, b1, out)
  {
    TextLeaves(b, c, "");
    var (b1, out1) := CloseContent(b);
    WholeToolLeaves(b1, tool);
    LeavesThen(b, b1, b1.(nextIndex := b1.nextIndex + 1), out1, WholeTool(b1.nextIndex, tool));
  }

  lemma {:induction false} HeuristicLeaves(b: Blocks, c: Check, tools: seq<ToolUse>)
    requires Sim(b, c)
    ensures var (b1, out) := HeuristicTools(b, tools); LeavesTools(b, b1, out)
    decreases tools
  {
    if tools != [] {
      HeuristicToolLeaves(b, c, tools[0]);
      HeuristicToolKeeps(b, c, tools[0]);
      var (b1, out1) := HeuristicTool(b, tools[0]);
      HeuristicLeaves(b1, Fold(c, out1).value, tools[1..]);
      LeavesThen(b, b1, HeuristicTools(b1, tools[1..]).0, out1, HeuristicTools(b1, tools[1..]).1);
    }
  }

  lemma {:induction false} PartsLeave<H>(b: Blocks, h: H, c: Check, parts: seq<ContentChunk>, env: Env<H>)
    requires Sim(b, c)
    ensures var (b1, h1, out) := EmitParts(b, h, parts, env); LeavesTools(b, b1, out)
    decreases parts
  {
    if parts != [] {
      PartLeaves(b, h, c, parts[0], env);
      PartKeeps(b, h, c, parts[0], env);
      var (b1, h1, out1) := EmitPart(b, h, parts[0], env);
      PartsLeave(b1, h1, Fold(c, out1).value, parts[1..], env);
      var (b2, h2, out2) := EmitParts(b1, h1, parts[1..], env);
      LeavesThen(b, b1, b2, out1, out2);
    }
  }

  lemma PartLeaves<H>(b: Blocks, h: H, c: Check, part: ContentChunk, env: Env<H>)
    requires Sim(b, c)
    ensures var (b1, h1, out) := EmitPart(b, h, part, env); LeavesTools(b, b1, out)
  {
    if part.kind == THINKING {
      TextLeaves(b, c, part.content);
    } else {
      var (h1, text, tools) := env.feed(h, part.content);
      TextLeaves(b, c, text);
      if text != "" {
        SayKeeps(b, c, text);
      }
      var (b1, out1) := if text != "" then Say(b, text) else (b, []);
      KeepsNothing(c, b);
      HeuristicLeaves(b1, Fold(c, out1).value, tools);
      LeavesThen(b, b1, HeuristicTools(b1, tools).0, out1, HeuristicTools(b1, tools).1);
    }
  }

  /** The state in which a chunk's tool calls are handled. */
  function BeforeCalls<H>(s: Session<H>, chunk: UpstreamChunk, env: Env<H>): Blocks
    requires chunk.Delta?
  {
    var (b1, out1) := Reason(s.blocks, chunk.reasoning, env.thinking);
    var (b2, h, out2) := EmitParts(b1, s.heuristic, Parts(s.parser, chunk.content).1, env);
    CloseContent(b2).0
  }

  function Received<H>(s: Session<H>, chunks: seq<UpstreamChunk>, env: Env<H>, t: int): string
    decreases chunks
  {
    if chunks == [] then ""
    else
      var (s1, out1, raised) := ProcessChunk(s, chunks[0], env);
      (if chunks[0].Delta? then ReceivedInCalls(BeforeCalls(s, chunks[0], env), chunks[0].toolCalls, env, t) else "")
      + if raised then "" else Received(s1, chunks[1..], env, t)
  }

  /** No call delta leaves tool t with a name whose arguments are rewritten. */
  predicate StaysPlain<H>(s: Session<H>, chunks: seq<UpstreamChunk>, env: Env<H>, t: int)
    decreases chunks
  {
    chunks != [] ==>
      var (s1, out1, raised) := ProcessChunk(s, chunks[0], env);
      && (chunks[0].Delta? ==> StaysPlainInCalls(BeforeCalls(s, chunks[0], env), chunks[0].toolCalls, env, t))
      && (raised || StaysPlain(s1, chunks[1..], env, t))
  }

  lemma LeavesConserve(b: Blocks, c: Check, b1: Blocks, out: seq<Event>, out1: seq<Event>, t: int, received: string)
    requires Sim(b, c) && Conserved(b, out, t, received) && LeavesTools(b, b1, out1)
    ensures Conserved(b1, out + out1, t, received)
  {
    if IsStarted(b, t) {
      assert b.tools[t].blockIndex in c.open;
    }
    QuietStep(b, b1, out, out1, t, received);
  }

  lemma ToolPhaseConserves<H>(b: Blocks, c: Check, out: seq<Event>, t: int, received: string, tcs: seq<ToolCallDelta>, env: Env<H>)
    requires Sim(b, c) && Conserved(b, out, t, received)
    requires StaysPlainInCalls(CloseContent(b).0, tcs, env, t)
    ensures var (b1, out1, raised) := ToolPhase(b, tcs, env);
            Conserved(b1, out + out1, t, received + ReceivedInCalls(CloseContent(b).0, tcs, env, t))
  {
    if tcs == [] {
      NothingMore(b, out, t, received);
    } else {
      CloseContentKeeps(b, c);
      TextLeaves(b, c, "");
      var (b1, out1) := CloseContent(b);
      LeavesConserve(b, c, b1, out, out1, t, received);
      CallsConserve(b1, Fold(c, out1).value, out + out1, t, received, tcs, env);
      Associate(out, out1, ProcessToolCalls(b1, tcs, env).1);
    }
  }

  lemma ChunkConserves<H>(s: Session<H>, c: Check, out: seq<Event>, t: int, received: string, chunk: UpstreamChunk, env: Env<H>)
    requires Sim(s.blocks, c) && Conserved(s.blocks, out, t, received) && chunk.Delta?
    requires StaysPlainInCalls(BeforeCalls(s, chunk, env), chunk.toolCalls, env, t)
    ensures var (s1, out1, raised) := ProcessChunk(s, chunk, env);
            Conserved(s1.blocks, out + out1, t, received + ReceivedInCalls(BeforeCalls(s, chunk, env), chunk.toolCalls, env, t))
  {
    KeepsNothing(c, s.blocks);
    if env.thinking && chunk.reasoning != "" {
      ThinkKeeps(s.blocks, c, chunk.reasoning);
    }
    TextLeaves(s.blocks, c, chunk.reasoning);
    var (b1, out1) := Reason(s.blocks, chunk.reasoning, env.thinking);
    var c1 := Fold(c, out1).value;
    var parts := Parts(s.parser, chunk.content).1;
    PartsKeep(b1, s.heuristic, c1, parts, env);
    PartsLeave(b1, s.heuristic, c1, parts, env);
    var (b2, h, out2) := EmitParts(b1, s.heuristic, parts, env);
    LeavesThen(s.blocks, b1, b2, out1, out2);
    LeavesConserve(s.blocks, c, b2, out, out1 + out2, t, received);
    ToolPhaseConserves(b2, Fold(c1, out2).value, out + (out1 + out2), t, received, chunk.toolCalls, env);
    Associate(out, out1 + out2, ToolPhase(b2, chunk.toolCalls, env).1);
  }

  lemma {:induction false} ChunksConserve<H>(s: Session<H>, c: Check, out: seq<Event>, t: int, received: string, chunks: seq<UpstreamChunk>, env: Env<H>)
    requires Sim(s.blocks, c) && Conserved(s.blocks, out, t, received) && StaysPlain(s, chunks, env, t)
    ensures var (s1, out1, raised) := ProcessChunks(s, chunks, env);
            Conserved(s1.blocks, out + out1, t, received + Received(s, chunks, env, t))
    decreases chunks
  {
    if chunks == [] {
      NothingMore(s.blocks, out, t, received);
    } else {
      var (s1, out1, raised) := ProcessChunk(s, chunks[0], env);
      var first := if chunks[0].Delta? then ReceivedInCalls(BeforeCalls(s, chunks[0], env), chunks[0].toolCalls, env, t) else "";
      if chunks[0].Delta? {
        ChunkConserves(s, c, out, t, received, chunks[0], env);
      } else {
        NothingMore(s.blocks, out, t, received);
      }
      ChunkKeeps(s, c, chunks[0], env);
      ChunksUnfold(s, chunks, env, s1, out1, raised, out);
      if raised {
        assert first + "" == first;
      } else {
        ChunksConserve(s1, Fold(c, out1).value, out + out1, t, received + first, chunks[1..], env);
        var (s2, out2, raised2) := ProcessChunks(s1, chunks[1..], env);
        Regroup(s2.blocks, out, out1, out2, t, received, first, Received(s1, chunks[1..], env, t));
      }
    }
  }

  /** After any chunks, for every native tool whose arguments are never rewritten: the JSON fragments sent to its block,
      followed by what is held back until its name arrives, are the fragments received for it. */
  lemma ArgumentsAreConserved<H>(h: H, chunks: seq<UpstreamChunk>, env: Env<H>, t: int)
    requires StaysPlain(Begin(h), chunks, env, t)
    ensures var (s, out, raised) := ProcessChunks(Begin(h), chunks, env);
            var received := Received(Begin(h), chunks, env, t);
            if t !in s.blocks.tools then received == ""
            else if s.blocks.tools[t].started then Concat(Payloads(out, s.blocks.tools[t].blockIndex)) == received
            else s.blocks.tools[t].preStartArgs == received
  {
    FreshSim();
    ChunksConserve(Begin(h), EMPTY, [], t, "", chunks, env);
    var (s, out, raised) := ProcessChunks(Begin(h), chunks, env);
    ConservedFromNothing(s.blocks, out, t, Received(Begin(h), chunks, env, t));
  }

  lemma ConservedFromNothing(b: Blocks, out: seq<Event>, t: int, received: string)
    requires Conserved(b, [] + out, t, "" + received)
    ensures Conserved(b, out, t, received)
    ensures if t !in b.tools then received == ""
            else if b.tools[t].started then Concat(Payloads(out, b.tools[t].blockIndex)) == received
            else b.tools[t].preStartArgs == received
  {
    assert [] + out == out && "" + received == received;
    if t in b.tools {
      var tool := b.tools[t];
      assert Concat(tool.contents) + "" == Concat(tool.contents) && Concat<char>([]) + tool.preStartArgs == tool.preStartArgs;
    }
  }

  // ---------------------------------------------------------------------------------------------
  // Buffered Task arguments
  // ---------------------------------------------------------------------------------------------

  /** Task arguments still buffered are not JSON yet. */
  ghost predicate Pending(b: Blocks, parse: string -> TaskArgs) {
    forall t | t in b.tools :: PendingTool(b.tools[t], parse)
  }

  predicate PendingTool(tool: ToolCallState, parse: string -> TaskArgs) {
    tool.taskArgBuffer == "" || tool.taskArgsEmitted || parse(tool.taskArgBuffer) == Incomplete
  }

  lemma RegisterPends(b: Blocks, i: int, tc: ToolCallDelta, parse: string -> TaskArgs)
    requires Pending(b, parse)
    ensures Pending(Register(b, i, tc), parse)
  {
    var b1 := if tc.id.Some? then SetToolId(b, i, tc.id.value) else b;
    assert Pending(b1, parse);
  }

  lemma EmitArgsPends(b: Blocks, i: int, args: string, rules: ArgRules)
    requires Pending(b, rules.parse)
    ensures var (b1, out, raised) := EmitArgs(b, i, args, rules); raised || Pending(b1, rules.parse)
  {
    if i in b.tools {
      BufferPends(b, i, args, rules.parse);
      DeltaPends(b, i, args, rules.parse);
      var (b1, parsed) := BufferTaskArgs(b, i, args, rules.parse);
      if parsed.Normalized? {
        DeltaPends(b1, i, parsed.json, rules.parse);
      }
      AliasedPends(b, i, args, rules);
    }
  }

  lemma BufferPends(b: Blocks, i: int, args: string, parse: string -> TaskArgs)
    requires Pending(b, parse) && i in b.tools
    ensures var (b1, parsed) := BufferTaskArgs(b, i, args, parse);
            i in b1.tools && (parsed.NotAnObject? || Pending(b1, parse))
  {
  }

  lemma DeltaPends(b: Blocks, i: int, json: string, parse: string -> TaskArgs)
    requires Pending(b, parse) && i in b.tools
    ensures Pending(ToolDelta(b, i, json).0, parse)
  {
    assert PendingTool(b.tools[i], parse);
  }

  lemma AliasedPends(b: Blocks, i: int, args: string, rules: ArgRules)
    requires Pending(b, rules.parse) && i in b.tools
    ensures Pending(EmitAliased(b, i, args, rules).0, rules.parse)
  {
    var restored := rules.restore(b.tools[i].name, AliasBuffer(b, i) + args);
    if restored.Some? {
      DeltaPends(DropAlias(b, i), i, restored.value, rules.parse);
    }
  }

  lemma StartPends<H>(b: Blocks, i: int, tc: ToolCallDelta, env: Env<H>)
    requires Pending(b, env.rules.parse)
    ensures var (b1, out, raised) := StartIfNamed(b, i, tc, env); raised || Pending(b1, env.rules.parse)
  {
    if !(IsStarted(b, i) || IsBlank(KnownName(b, i))) {
      var b1 := StartTool(b, i, ToolId(b, i, tc, env.uuid), Strip(KnownName(b, i))).0;
      var b2 := PutTool(b1, i, b1.tools[i].(preStartArgs := ""));
      assert forall t | t in b2.tools && t in b.tools ::
        (b2.tools[t].taskArgBuffer == b.tools[t].taskArgBuffer && b2.tools[t].taskArgsEmitted == b.tools[t].taskArgsEmitted);
      assert Pending(b2, env.rules.parse);
      EmitArgsPends(b2, i, b1.tools[i].preStartArgs, env.rules);
    }
  }

  lemma HoldPends(b: Blocks, i: int, args: string, parse: string -> TaskArgs)
    requires Pending(b, parse)
    ensures Pending(HoldArgs(b, i, args), parse)
  {
    assert PendingTool(NewTool(""), parse);
  }

  lemma CallPends<H>(b: Blocks, tc: ToolCallDelta, env: Env<H>)
    requires Pending(b, env.rules.parse)
    ensures var (b1, out, raised) := ProcessToolCall(b, tc, env); raised || Pending(b1, env.rules.parse)
  {
    if tc.index.Some? {
      var i := ResolveIndex(b, tc.index.value);
      RegisterPends(b, i, tc, env.rules.parse);
      StartPends(Register(b, i, tc), i, tc, env);
      var (b1, out1, raised1) := StartIfNamed(Register(b, i, tc), i, tc, env);
      if !raised1 {
        EmitArgsPends(b1, i, tc.arguments, env.rules);
        HoldPends(b1, i, tc.arguments, env.rules.parse);
      }
    }
  }

  lemma {:induction false} CallsPend<H>(b: Blocks, tcs: seq<ToolCallDelta>, env: Env<H>)
    requires Pending(b, env.rules.parse)
    ensures var (b1, out, raised) := ProcessToolCalls(b, tcs, env); raised || Pending(b1, env.rules.parse)
    decreases tcs
  {
    if tcs != [] {
      CallPends(b, tcs[0], env);
      var (b1, out1, raised) := ProcessToolCall(b, tcs[0], env);
      CallsUnfold(b, tcs, env, b1, out1, raised, []);
      if !raised {
        CallsPend(b1, tcs[1..], env);
      }
    }
  }

  lemma {:induction false} ChunksPend<H>(s: Session<H>, c: Check, chunks: seq<UpstreamChunk>, env: Env<H>)
    requires Sim(s.blocks, c) && Pending(s.blocks, env.rules.parse)
    ensures var (s1, out, raised) := ProcessChunks(s, chunks, env); raised || Pending(s1.blocks, env.rules.parse)
    decreases chunks
  {
    if chunks != [] {
      ChunkPends(s, c, chunks[0], env);
      ChunkKeeps(s, c, chunks[0], env);
      var (s1, out1, raised) := ProcessChunk(s, chunks[0], env);
      ChunksUnfold(s, chunks, env, s1, out1, raised, []);
      if !raised {
        ChunksPend(s1, Fold(c, out1).value, chunks[1..], env);
      }
    }
  }

  lemma ChunkPends<H>(s: Session<H>, c: Check, chunk: UpstreamChunk, env: Env<H>)
    requires Sim(s.blocks, c) && Pending(s.blocks, env.rules.parse)
    ensures var (s1, out, raised) := ProcessChunk(s, chunk, env); raised || Pending(s1.blocks, env.rules.parse)
  {
    if chunk.Delta? {
      KeepsNothing(c, s.blocks);
      if env.thinking && chunk.reasoning != "" {
        ThinkKeeps(s.blocks, c, chunk.reasoning);
      }
      var (b1, out1) := Reason(s.blocks, chunk.reasoning, env.thinking);
      assert b1.tools == s.blocks.tools;
      var parts := Parts(s.parser, chunk.content).1;
      PartsLeave(b1, s.heuristic, Fold(c, out1).value, parts, env);
      var (b2, h, out2) := EmitParts(b1, s.heuristic, parts, env);
      var b3 := CloseContent(b2).0;
      assert b3.tools == s.blocks.tools;
      if chunk.toolCalls != [] {
        CallsPend(b3, chunk.toolCalls, env);
      }
    }
  }

  /** When the stream ends without an exception, the Task arguments left to flush are not JSON, so
      the flush never raises and sends {} for each of them. */
  lemma FlushMeetsMalformedOnly<H>(h: H, chunks: seq<UpstreamChunk>, env: Env<H>, t: int)
    requires !ProcessChunks(Begin(h), chunks, env).2
    ensures var b := ProcessChunks(Begin(h), chunks, env).0.blocks;
            t in b.tools && b.tools[t].taskArgBuffer != "" && !b.tools[t].taskArgsEmitted ==>
              env.rules.parse(b.tools[t].taskArgBuffer) == Incomplete
  {
    FreshSim();
    ChunksPend(Begin(h), EMPTY, chunks, env);
    var b := ProcessChunks(Begin(h), chunks, env).0.blocks;
    assert t in b.tools ==> PendingTool(b.tools[t], env.rules.parse);
  }
}
