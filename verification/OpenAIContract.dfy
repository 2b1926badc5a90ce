/** Every response of the OpenAI transport meets the Anthropic stream contract. */
module OpenAIContract {
  import opened Prelude
  import opened SseEvents
  import opened StreamContract
  import opened SseBuilder
  import opened ThinkTags
  import opened OpenAIStream

  // ---------------------------------------------------------------------------------------------
  // The builder simulates the checker
  // ---------------------------------------------------------------------------------------------

  ghost predicate ToolOwns(b: Blocks, d: int) {
    exists t :: IsStarted(b, t) && b.tools[t].blockIndex == d
  }

  /** An open block of the checker is the builder's current block of that kind. */
  ghost predicate Accounted(b: Blocks, kind: Storage, d: int) {
    match kind
    case ThinkingOpen => b.thinkingStarted && d == b.thinkingIndex
    case TextOpen => b.textStarted && d == b.textIndex
    case ToolOpen => ToolOwns(b, d)
    case _ => false
  }

  ghost predicate IsOpen(c: Check, d: int, kind: Storage) {
    d in c.open && c.open[d] == kind
  }

  ghost predicate ToolsOpen(b: Blocks, c: Check) {
    && (forall t | IsStarted(b, t) :: IsOpen(c, b.tools[t].blockIndex, ToolOpen))
    && (forall t, u | IsStarted(b, t) && IsStarted(b, u) && t != u :: b.tools[t].blockIndex != b.tools[u].blockIndex)
  }

  /** The dict order lists its keys, and arguments are buffered for started tools only. */
  ghost predicate TablesOk(b: Blocks) {
    && (forall t :: t in b.toolOrder <==> t in b.tools)
    && Distinct(b.toolOrder)
    && (forall t | t in b.tools && b.tools[t].taskArgBuffer != "" :: b.tools[t].started)
    && (forall t | t in b.aliasBuffers :: IsStarted(b, t))
    && (forall t :: t in b.aliasOrder <==> t in b.aliasBuffers)
    && Distinct(b.aliasOrder)
  }

  ghost predicate Sim(b: Blocks, c: Check) {
    && 0 <= b.nextIndex
    && (forall d :: d in c.seen <==> 0 <= d < b.nextIndex)
    && (b.thinkingStarted ==> IsOpen(c, b.thinkingIndex, ThinkingOpen))
    && (b.textStarted ==> IsOpen(c, b.textIndex, TextOpen))
    && (b.thinkingIndex != -1 ==> 0 < b.nextIndex)
    && (b.textIndex != -1 ==> 0 < b.nextIndex)
    && ToolsOpen(b, c)
    && (forall d | d in c.open :: 0 <= d < b.nextIndex && Accounted(b, c.open[d], d))
    && TablesOk(b)
  }

  predicate OnlyBlocks(out: seq<Event>) {
    forall k | 0 <= k < |out| :: out[k].BlockStart? || out[k].BlockDelta? || out[k].BlockStop?
  }

  /** The events are legal after c and lead to a state that again matches the builder. */
  ghost predicate Keeps(c: Check, out: seq<Event>, b: Blocks) {
    OnlyBlocks(out) && Fold(c, out).Some? && Sim(b, Fold(c, out).value)
  }

  lemma KeepsThen(c: Check, out1: seq<Event>, b1: Blocks, out2: seq<Event>, b2: Blocks)
    requires Keeps(c, out1, b1) && Keeps(Fold(c, out1).value, out2, b2)
    ensures Keeps(c, out1 + out2, b2)
  {
    FoldAppend(c, out1, out2);
  }

  lemma KeepsNothing(c: Check, b: Blocks)
    requires Sim(b, c)
    ensures Keeps(c, [], b)
  {
  }

  /** The builder's blocks look the same from outside: only texts, names and buffers differ. */
  ghost predicate SameBlocks(b: Blocks, b1: Blocks) {
    && b1.nextIndex == b.nextIndex
    && b1.thinkingIndex == b.thinkingIndex && b1.thinkingStarted == b.thinkingStarted
    && b1.textIndex == b.textIndex && b1.textStarted == b.textStarted
    && (forall t :: IsStarted(b1, t) <==> IsStarted(b, t))
    && (forall t | IsStarted(b, t) :: b1.tools[t].blockIndex == b.tools[t].blockIndex)
  }

  lemma SameBlocksKeep(b: Blocks, b1: Blocks, c: Check)
    requires Sim(b, c) && SameBlocks(b, b1) && TablesOk(b1)
    ensures Sim(b1, c)
  {
    forall d | d in c.open ensures Accounted(b1, c.open[d], d) {
      assert Accounted(b, c.open[d], d);
      if c.open[d] == ToolOpen {
        var t :| IsStarted(b, t) && b.tools[t].blockIndex == d;
        assert IsStarted(b1, t);
      }
    }
  }

  lemma PutToolTables(b: Blocks, i: int, t: ToolCallState)
    requires TablesOk(b) && (t.taskArgBuffer != "" || IsStarted(b, i) ==> t.started)
    ensures TablesOk(PutTool(b, i, t))
  {
  }

  // ---------------------------------------------------------------------------------------------
  // Text and thinking
  // ---------------------------------------------------------------------------------------------

  lemma StopTextKeeps(b: Blocks, c: Check)
    requires Sim(b, c)
    ensures var (b1, out) := StopText(b); Keeps(c, out, b1)
  {
    if b.textStarted {
      FoldOne(c, BlockStop(b.textIndex));
      var (b1, c1) := (StopText(b).0, Step(c, BlockStop(b.textIndex)).value);
      forall d | d in c1.open ensures Accounted(b1, c1.open[d], d) {
        assert Accounted(b, c.open[d], d);
        if c.open[d] == ToolOpen {
          var t :| IsStarted(b, t) && b.tools[t].blockIndex == d;
          assert IsStarted(b1, t);
        }
      }
    }
  }

  lemma StopThinkingKeeps(b: Blocks, c: Check)
    requires Sim(b, c)
    ensures var (b1, out) := StopThinking(b); Keeps(c, out, b1)
  {
    if b.thinkingStarted {
      FoldOne(c, BlockStop(b.thinkingIndex));
      var (b1, c1) := (StopThinking(b).0, Step(c, BlockStop(b.thinkingIndex)).value);
      forall d | d in c1.open ensures Accounted(b1, c1.open[d], d) {
        assert Accounted(b, c.open[d], d);
        if c.open[d] == ToolOpen {
          var t :| IsStarted(b, t) && b.tools[t].blockIndex == d;
          assert IsStarted(b1, t);
        }
      }
    }
  }

  /** A block opened at the next index, before the builder takes note of it. */
  lemma OpenFresh(b: Blocks, c: Check, block: Block)
    requires Sim(b, c) && StorageOf(block).Some?
    ensures Fold(c, [BlockStart(b.nextIndex, block)])
         == Some(Check(c.open[b.nextIndex := StorageOf(block).value], c.seen + {b.nextIndex}))
    ensures b.nextIndex !in c.open
  {
    FoldOne(c, BlockStart(b.nextIndex, block));
  }

  lemma StartTextKeeps(b: Blocks, c: Check)
    requires Sim(b, c)
    ensures var (b1, out) := StartText(b); Keeps(c, out, b1)
  {
    if !b.textStarted {
      OpenFresh(b, c, TextBlock(""));
      var (b1, out) := StartText(b);
      var c1 := Fold(c, out).value;
      forall d | d in c1.open ensures Accounted(b1, c1.open[d], d) {
        if d != b.nextIndex {
          assert Accounted(b, c.open[d], d);
          if c.open[d] == ToolOpen {
            var t :| IsStarted(b, t) && b.tools[t].blockIndex == d;
            assert IsStarted(b1, t);
          }
        }
      }
    }
  }

  lemma StartThinkingKeeps(b: Blocks, c: Check)
    requires Sim(b, c)
    ensures var (b1, out) := StartThinking(b); Keeps(c, out, b1)
  {
    if !b.thinkingStarted {
      OpenFresh(b, c, ThinkingBlock(""));
      var (b1, out) := StartThinking(b);
      var c1 := Fold(c, out).value;
      forall d | d in c1.open ensures Accounted(b1, c1.open[d], d) {
        if d != b.nextIndex {
          assert Accounted(b, c.open[d], d);
          if c.open[d] == ToolOpen {
            var t :| IsStarted(b, t) && b.tools[t].blockIndex == d;
            assert IsStarted(b1, t);
          }
        }
      }
    }
  }

  lemma ThinkKeeps(b: Blocks, c: Check, content: string)
    requires Sim(b, c)
    ensures var (b1, out) := Think(b, content); Keeps(c, out, b1)
  {
    var (b1, out1) := StopText(b);
    var (b2, out2) := StartThinking(b1);
    var b3 := b2.(reasoningParts := b2.reasoningParts + [content]);
    StopTextKeeps(b, c);
    StartThinkingKeeps(b1, Fold(c, out1).value);
    KeepsThen(c, out1, b1, out2, b2);
    var c2 := Fold(c, out1 + out2).value;
    FoldOne(c2, BlockDelta(b2.thinkingIndex, ThinkingDelta(content)));
    SameBlocksKeep(b2, b3, c2);
    KeepsThen(c, out1 + out2, b2, [BlockDelta(b2.thinkingIndex, ThinkingDelta(content))], b3);
  }

  lemma SayKeeps(b: Blocks, c: Check, content: string)
    requires Sim(b, c)
    ensures var (b1, out) := Say(b, content); Keeps(c, out, b1)
    ensures Say(b, content).0.textIndex != -1
  {
    var (b1, out1) := StopThinking(b);
    var (b2, out2) := StartText(b1);
    var b3 := b2.(textParts := b2.textParts + [content]);
    StopThinkingKeeps(b, c);
    StartTextKeeps(b1, Fold(c, out1).value);
    KeepsThen(c, out1, b1, out2, b2);
    var c2 := Fold(c, out1 + out2).value;
    FoldOne(c2, BlockDelta(b2.textIndex, TextDelta(content)));
    SameBlocksKeep(b2, b3, c2);
    KeepsThen(c, out1 + out2, b2, [BlockDelta(b2.textIndex, TextDelta(content))], b3);
  }

  lemma CloseContentKeeps(b: Blocks, c: Check)
    requires Sim(b, c)
    ensures var (b1, out) := CloseContent(b); Keeps(c, out, b1)
  {
    StopThinkingKeeps(b, c);
    var (b1, out1) := StopThinking(b);
    StopTextKeeps(b1, Fold(c, out1).value);
    var (b2, out2) := StopText(b1);
    KeepsThen(c, out1, b1, out2, b2);
  }

  // ---------------------------------------------------------------------------------------------
  // Tools
  // ---------------------------------------------------------------------------------------------

  /** A complete block at the next index leaves only its index behind. */
  lemma WholeBlockKeeps(b: Blocks, c: Check, block: Block, delta: Delta)
    requires Sim(b, c) && StorageOf(block).Some? && Fits(StorageOf(block).value, delta)
    ensures var i := b.nextIndex;
            Keeps(c, [BlockStart(i, block), BlockDelta(i, delta), BlockStop(i)], b.(nextIndex := i + 1))
  {
    var i := b.nextIndex;
    OpenFresh(b, c, block);
    var c1 := Step(c, BlockStart(i, block)).value;
    FoldOne(c1, BlockDelta(i, delta));
    FoldOne(c1, BlockStop(i));
    FoldAppend(c1, [BlockDelta(i, delta)], [BlockStop(i)]);
    assert [BlockDelta(i, delta)] + [BlockStop(i)] == [BlockDelta(i, delta), BlockStop(i)];
    FoldAppend(c, [BlockStart(i, block)], [BlockDelta(i, delta), BlockStop(i)]);
    assert [BlockStart(i, block)] + [BlockDelta(i, delta), BlockStop(i)]
        == [BlockStart(i, block), BlockDelta(i, delta), BlockStop(i)];
    var c2 := Step(c1, BlockStop(i)).value;
    SameMap(c2.open, c.open);
    var b1 := b.(nextIndex := i + 1);
    forall d | d in c2.open ensures Accounted(b1, c2.open[d], d) {
      assert Accounted(b, c.open[d], d);
      if c.open[d] == ToolOpen {
        var t :| IsStarted(b, t) && b.tools[t].blockIndex == d;
        assert IsStarted(b1, t);
      }
    }
  }

  lemma WholeToolKeeps(b: Blocks, c: Check, tool: ToolUse)
    requires Sim(b, c)
    ensures Keeps(c, WholeTool(b.nextIndex, tool), b.(nextIndex := b.nextIndex + 1))
  {
    WholeBlockKeeps(b, c, ToolUseBlock(Some(tool.id), Some(tool.name), Some("{}")), InputJsonDelta(tool.input));
  }

  lemma HeuristicToolKeeps(b: Blocks, c: Check, tool: ToolUse)
    requires Sim(b, c)
    ensures var (b1, out) := HeuristicTool(b, tool); Keeps(c, out, b1)
  {
    CloseContentKeeps(b, c);
    var (b1, out1) := CloseContent(b);
    WholeToolKeeps(b1, Fold(c, out1).value, tool);
    KeepsThen(c, out1, b1, WholeTool(b1.nextIndex, tool), b1.(nextIndex := b1.nextIndex + 1));
  }

  lemma {:induction false} HeuristicToolsKeep(b: Blocks, c: Check, tools: seq<ToolUse>)
    requires Sim(b, c)
    ensures var (b1, out) := HeuristicTools(b, tools); Keeps(c, out, b1)
    decreases tools
  {
    if tools != [] {
      HeuristicToolKeeps(b, c, tools[0]);
      var (b1, out1) := HeuristicTool(b, tools[0]);
      HeuristicToolsKeep(b1, Fold(c, out1).value, tools[1..]);
      var (b2, out2) := HeuristicTools(b1, tools[1..]);
      KeepsThen(c, out1, b1, out2, b2);
    }
  }

  /** Changing a tool's texts and buffers, but not its block. */
  lemma EditToolKeeps(b: Blocks, c: Check, i: int, t: ToolCallState)
    requires Sim(b, c)
    requires IsStarted(b, i) ==> t.started && t.blockIndex == b.tools[i].blockIndex
    requires t.started ==> IsStarted(b, i)
    requires t.taskArgBuffer != "" ==> t.started
    ensures Sim(PutTool(b, i, t), c)
  {
    PutToolTables(b, i, t);
    SameBlocksKeep(b, PutTool(b, i, t), c);
  }

  lemma ToolDeltaKeeps(b: Blocks, c: Check, i: int, json: string)
    requires Sim(b, c) && IsStarted(b, i)
    ensures var (b1, out) := ToolDelta(b, i, json); Keeps(c, out, b1)
    ensures IsStarted(ToolDelta(b, i, json).0, i)
  {
    var t := b.tools[i];
    FoldOne(c, BlockDelta(t.blockIndex, InputJsonDelta(json)));
    EditToolKeeps(b, c, i, t.(contents := t.contents + [json]));
  }

  lemma EmitArgsKeeps(b: Blocks, c: Check, i: int, args: string, rules: ArgRules)
    requires Sim(b, c) && IsStarted(b, i)
    ensures var (b1, out, raised) := EmitArgs(b, i, args, rules); Keeps(c, out, b1)
    ensures IsStarted(EmitArgs(b, i, args, rules).0, i)
  {
    if args == "" {
      KeepsNothing(c, b);
    } else if b.tools[i].name == "Task" {
      TaskKeeps(b, c, i, args, rules);
    } else if rules.aliased(b.tools[i].name) {
      AliasedKeeps(b, c, i, args, rules);
    } else {
      ToolDeltaKeeps(b, c, i, args);
    }
  }

  /** Holding back argument text, or giving it up, changes no block. */
  lemma HoldAliasKeeps(b: Blocks, c: Check, i: int, text: string)
    requires Sim(b, c) && IsStarted(b, i)
    ensures Sim(HoldAlias(b, i, text), c)
  {
    HoldTables(b, i, text);
    SameBlocksKeep(b, HoldAlias(b, i, text), c);
  }

  lemma DropAliasKeeps(b: Blocks, c: Check, i: int)
    requires Sim(b, c)
    ensures Sim(DropAlias(b, i), c)
  {
    DropTables(b, i);
    SameBlocksKeep(b, DropAlias(b, i), c);
  }

  lemma HoldTables(b: Blocks, i: int, text: string)
    requires TablesOk(b) && IsStarted(b, i)
    ensures TablesOk(HoldAlias(b, i, text))
  {
  }

  lemma DropTables(b: Blocks, i: int)
    requires TablesOk(b)
    ensures TablesOk(DropAlias(b, i))
  {
    LeaveOutHas(b.aliasOrder, i);
  }

  lemma {:induction false} LeaveOutHas(order: seq<int>, i: int)
    ensures forall j :: j in LeaveOut(order, i) <==> j in order && j != i
    ensures Distinct(order) ==> Distinct(LeaveOut(order, i))
  {
    if order != [] {
      LeaveOutHas(order[1..], i);
      assert order == [order[0]] + order[1..];
      assert Distinct(order) ==> order[0] !in order[1..];
    }
  }

  lemma AliasedKeeps(b: Blocks, c: Check, i: int, args: string, rules: ArgRules)
    requires Sim(b, c) && IsStarted(b, i)
    ensures var (b1, out) := EmitAliased(b, i, args, rules); Keeps(c, out, b1) && IsStarted(b1, i)
  {
    var buffered := AliasBuffer(b, i) + args;
    match rules.restore(b.tools[i].name, buffered)
    case None =>
      HoldAliasKeeps(b, c, i, buffered);
      KeepsNothing(c, HoldAlias(b, i, buffered));
    case Some(json) =>
      DropAliasKeeps(b, c, i);
      ToolDeltaKeeps(DropAlias(b, i), c, i, json);
  }

  lemma TaskKeeps(b: Blocks, c: Check, i: int, args: string, rules: ArgRules)
    requires Sim(b, c) && IsStarted(b, i) && b.tools[i].name == "Task" && args != ""
    ensures var (b1, out, raised) := EmitArgs(b, i, args, rules); Keeps(c, out, b1) && IsStarted(b1, i)
  {
    TaskArgsKeep(b, c, i, args, rules.parse);
  }

  lemma TaskArgsKeep(b: Blocks, c: Check, i: int, args: string, parse: string -> TaskArgs)
    requires Sim(b, c) && IsStarted(b, i)
    ensures var (b1, parsed) := BufferTaskArgs(b, i, args, parse);
            && IsStarted(b1, i) && Keeps(c, [], b1)
            && (parsed.Normalized? ==>
                  var (b2, out) := ToolDelta(b1, i, parsed.json); Keeps(c, out, b2) && IsStarted(b2, i))
  {
    var (b1, parsed) := BufferTaskArgs(b, i, args, parse);
    if b.tools[i].taskArgsEmitted {
      KeepsNothing(c, b);
    } else {
      EditToolKeeps(b, c, i, b1.tools[i]);
      KeepsNothing(c, b1);
      if parsed.Normalized? {
        ToolDeltaKeeps(b1, c, i, parsed.json);
      }
    }
  }

  lemma SetToolIdKeeps(b: Blocks, c: Check, i: int, id: string)
    requires Sim(b, c)
    ensures Sim(SetToolId(b, i, id), c)
  {
    if id != "" {
      if i !in b.tools {
        EditToolKeeps(b, c, i, NewTool(""));
      }
      var b1 := EnsureTool(b, i);
      EditToolKeeps(b1, c, i, b1.tools[i].(toolId := id));
    }
  }

  lemma RegisterNameKeeps(b: Blocks, c: Check, i: int, name: string)
    requires Sim(b, c)
    ensures Sim(RegisterName(b, i, name), c)
  {
    if i !in b.tools {
      EditToolKeeps(b, c, i, NewTool(name));
    } else {
      EditToolKeeps(b, c, i, b.tools[i].(name := name));
      EditToolKeeps(b, c, i, b.tools[i].(name := b.tools[i].name + name));
    }
  }

  lemma RegisterKeeps(b: Blocks, c: Check, i: int, tc: ToolCallDelta)
    requires Sim(b, c)
    ensures Sim(Register(b, i, tc), c)
  {
    var b1 := b;
    if tc.id.Some? {
      SetToolIdKeeps(b, c, i, tc.id.value);
      b1 := SetToolId(b, i, tc.id.value);
    }
    if tc.name.Some? {
      RegisterNameKeeps(b1, c, i, tc.name.value);
    }
  }

  lemma StartToolForm(b: Blocks, i: int, id: string, name: string)
    ensures var (b1, out) := StartTool(b, i, id, name);
            && b1 == PutTool(b.(nextIndex := b.nextIndex + 1), i, b1.tools[i])
            && b1.tools[i].started && b1.tools[i].blockIndex == b.nextIndex
            && (forall t | t != i :: IsStarted(b1, t) <==> IsStarted(b, t))
            && (forall t | t != i && IsStarted(b, t) :: IsStarted(b1, t) && b1.tools[t] == b.tools[t])
            && out == [BlockStart(b.nextIndex, ToolUseBlock(Some(id), Some(name), Some("{}")))]
  {
  }

  lemma StartedToolsOpen(b: Blocks, b1: Blocks, c: Check, c1: Check, i: int)
    requires ToolsOpen(b, c) && IsStarted(b1, i) && !IsStarted(b, i)
    requires forall t | t != i :: IsStarted(b1, t) <==> IsStarted(b, t)
    requires forall t | t != i && IsStarted(b, t) :: IsStarted(b1, t) && b1.tools[t] == b.tools[t]
    requires b1.tools[i].blockIndex !in c.open && c1.open == c.open[b1.tools[i].blockIndex := ToolOpen]
    ensures ToolsOpen(b1, c1)
  {
    forall t | IsStarted(b1, t)
      ensures IsOpen(c1, b1.tools[t].blockIndex, ToolOpen) {
      assert t != i ==> IsOpen(c, b.tools[t].blockIndex, ToolOpen);
    }
    forall t, u | IsStarted(b1, t) && IsStarted(b1, u) && t != u
      ensures b1.tools[t].blockIndex != b1.tools[u].blockIndex {
      assert t != i ==> IsOpen(c, b.tools[t].blockIndex, ToolOpen);
      assert u != i ==> IsOpen(c, b.tools[u].blockIndex, ToolOpen);
    }
  }

  lemma StartToolKeeps(b: Blocks, c: Check, i: int, id: string, name: string)
    requires Sim(b, c) && !IsStarted(b, i)
    ensures var (b1, out) := StartTool(b, i, id, name); Keeps(c, out, b1) && IsStarted(b1, i)
  {
    OpenFresh(b, c, ToolUseBlock(Some(id), Some(name), Some("{}")));
    StartToolForm(b, i, id, name);
    var (b1, out) := StartTool(b, i, id, name);
    var c1 := Fold(c, out).value;
    StartedTables(b, b1, i);
    StartedToolsOpen(b, b1, c, c1, i);
    StartedAccounted(b, b1, c, c1, i);
  }

  lemma StartedTables(b: Blocks, b1: Blocks, i: int)
    requires TablesOk(b) && i in b1.tools && b1.tools[i].started
    requires b1 == PutTool(b.(nextIndex := b.nextIndex + 1), i, b1.tools[i])
    ensures TablesOk(b1)
  {
    PutToolTables(b.(nextIndex := b.nextIndex + 1), i, b1.tools[i]);
  }

  lemma StartedAccounted(b: Blocks, b1: Blocks, c: Check, c1: Check, i: int)
    requires IsStarted(b1, i) && c1.open == c.open[b1.tools[i].blockIndex := ToolOpen]
    requires forall d | d in c.open :: Accounted(b, c.open[d], d)
    requires b1.thinkingStarted == b.thinkingStarted && b1.thinkingIndex == b.thinkingIndex
    requires b1.textStarted == b.textStarted && b1.textIndex == b.textIndex
    requires forall t | IsStarted(b, t) :: IsStarted(b1, t) && b1.tools[t].blockIndex == b.tools[t].blockIndex
    ensures forall d | d in c1.open :: Accounted(b1, c1.open[d], d)
  {
    forall d | d in c1.open
      ensures Accounted(b1, c1.open[d], d) {
      if d == b1.tools[i].blockIndex {
        assert IsStarted(b1, i);
      } else {
        assert Accounted(b, c.open[d], d);
        StaysAccounted(b, b1, c.open[d], d);
      }
    }
  }

  lemma StaysAccounted(b: Blocks, b1: Blocks, kind: Storage, d: int)
    requires Accounted(b, kind, d)
    requires b1.thinkingStarted == b.thinkingStarted && b1.thinkingIndex == b.thinkingIndex
    requires b1.textStarted == b.textStarted && b1.textIndex == b.textIndex
    requires forall t | IsStarted(b, t) :: IsStarted(b1, t) && b1.tools[t].blockIndex == b.tools[t].blockIndex
    ensures Accounted(b1, kind, d)
  {
    if kind == ToolOpen {
      var t :| IsStarted(b, t) && b.tools[t].blockIndex == d;
      assert IsStarted(b1, t);
    }
  }

  lemma StartIfNamedKeeps<H>(b: Blocks, c: Check, i: int, tc: ToolCallDelta, env: Env<H>)
    requires Sim(b, c)
    ensures var (b1, out, raised) := StartIfNamed(b, i, tc, env); Keeps(c, out, b1)
  {
    if IsStarted(b, i) || IsBlank(KnownName(b, i)) {
      KeepsNothing(c, b);
    } else {
      var id, name := ToolId(b, i, tc, env.uuid), Strip(KnownName(b, i));
      StartToolKeeps(b, c, i, id, name);
      var (b1, out1) := StartTool(b, i, id, name);
      var c1 := Fold(c, out1).value;
      var b2 := PutTool(b1, i, b1.tools[i].(preStartArgs := ""));
      EditToolKeeps(b1, c1, i, b1.tools[i].(preStartArgs := ""));
      EmitArgsKeeps(b2, c1, i, b1.tools[i].preStartArgs, env.rules);
      var (b3, out3, raised) := EmitArgs(b2, i, b1.tools[i].preStartArgs, env.rules);
      KeepsThen(c, out1, b1, out3, b3);
    }
  }

  lemma HoldArgsKeeps(b: Blocks, c: Check, i: int, args: string)
    requires Sim(b, c)
    ensures Sim(HoldArgs(b, i, args), c)
  {
    if i !in b.tools {
      EditToolKeeps(b, c, i, NewTool(""));
    }
    var b1 := EnsureTool(b, i);
    EditToolKeeps(b1, c, i, b1.tools[i].(preStartArgs := b1.tools[i].preStartArgs + args));
  }

  lemma ToolCallKeeps<H>(b: Blocks, c: Check, tc: ToolCallDelta, env: Env<H>)
    requires Sim(b, c)
    ensures var (b1, out, raised) := ProcessToolCall(b, tc, env); Keeps(c, out, b1)
  {
    if tc.index.None? {
      KeepsNothing(c, b);
    } else {
      var i := ResolveIndex(b, tc.index.value);
      RegisterKeeps(b, c, i, tc);
      var b0 := Register(b, i, tc);
      StartIfNamedKeeps(b0, c, i, tc, env);
      var (b1, out1, raised1) := StartIfNamed(b0, i, tc, env);
      var c1 := Fold(c, out1).value;
      if !(raised1 || tc.arguments == "") {
        if !IsStarted(b1, i) {
          HoldArgsKeeps(b1, c1, i, tc.arguments);
        } else {
          EmitArgsKeeps(b1, c1, i, tc.arguments, env.rules);
          var (b2, out2, raised2) := EmitArgs(b1, i, tc.arguments, env.rules);
          KeepsThen(c, out1, b1, out2, b2);
        }
      }
    }
  }

  lemma {:induction false} ToolCallsKeep<H>(b: Blocks, c: Check, tcs: seq<ToolCallDelta>, env: Env<H>)
    requires Sim(b, c)
    ensures var (b1, out, raised) := ProcessToolCalls(b, tcs, env); Keeps(c, out, b1)
    decreases tcs
  {
    if tcs != [] {
      ToolCallKeeps(b, c, tcs[0], env);
      var (b1, out1, raised1) := ProcessToolCall(b, tcs[0], env);
      CallsUnfold(b, tcs, env, b1, out1, raised1, []);
      if !raised1 {
        ToolCallsKeep(b1, Fold(c, out1).value, tcs[1..], env);
        var (b2, out2, raised2) := ProcessToolCalls(b1, tcs[1..], env);
        KeepsThen(c, out1, b1, out2, b2);
      }
    }
  }

  // ---------------------------------------------------------------------------------------------
  // Chunks
  // ---------------------------------------------------------------------------------------------

  lemma PartKeeps<H>(b: Blocks, h: H, c: Check, part: ContentChunk, env: Env<H>)
    requires Sim(b, c)
    ensures var (b1, h1, out) := EmitPart(b, h, part, env); Keeps(c, out, b1)
  {
    KeepsNothing(c, b);
    if part.kind == THINKING {
      if env.thinking {
        ThinkKeeps(b, c, part.content);
      }
    } else {
      var (h1, text, tools) := env.feed(h, part.content);
      if text != "" {
        SayKeeps(b, c, text);
      }
      var (b1, out1) := if text != "" then Say(b, text) else (b, []);
      HeuristicToolsKeep(b1, Fold(c, out1).value, tools);
      var (b2, out2) := HeuristicTools(b1, tools);
      KeepsThen(c, out1, b1, out2, b2);
    }
  }

  lemma {:induction false} PartsKeep<H>(b: Blocks, h: H, c: Check, parts: seq<ContentChunk>, env: Env<H>)
    requires Sim(b, c)
    ensures var (b1, h1, out) := EmitParts(b, h, parts, env); Keeps(c, out, b1)
    decreases parts
  {
    if parts == [] {
      KeepsNothing(c, b);
    } else {
      PartKeeps(b, h, c, parts[0], env);
      var (b1, h1, out1) := EmitPart(b, h, parts[0], env);
      PartsKeep(b1, h1, Fold(c, out1).value, parts[1..], env);
      var (b2, h2, out2) := EmitParts(b1, h1, parts[1..], env);
      KeepsThen(c, out1, b1, out2, b2);
    }
  }

  lemma ToolPhaseKeeps<H>(b: Blocks, c: Check, tcs: seq<ToolCallDelta>, env: Env<H>)
    requires Sim(b, c)
    ensures var (b1, out, raised) := ToolPhase(b, tcs, env); Keeps(c, out, b1)
  {
    if tcs == [] {
      KeepsNothing(c, b);
    } else {
      CloseContentKeeps(b, c);
      var (b1, out1) := CloseContent(b);
      ToolCallsKeep(b1, Fold(c, out1).value, tcs, env);
      var (b2, out2, raised) := ProcessToolCalls(b1, tcs, env);
      KeepsThen(c, out1, b1, out2, b2);
    }
  }

  lemma ChunkKeeps<H>(s: Session<H>, c: Check, chunk: UpstreamChunk, env: Env<H>)
    requires Sim(s.blocks, c)
    ensures var (s1, out, raised) := ProcessChunk(s, chunk, env); Keeps(c, out, s1.blocks)
  {
    KeepsNothing(c, s.blocks);
    if chunk != NoDelta {
      if env.thinking && chunk.reasoning != "" {
        ThinkKeeps(s.blocks, c, chunk.reasoning);
      }
      var (b1, out1) := Reason(s.blocks, chunk.reasoning, env.thinking);
      var parts := Parts(s.parser, chunk.content).1;
      PartsKeep(b1, s.heuristic, Fold(c, out1).value, parts, env);
      var (b2, h, out2) := EmitParts(b1, s.heuristic, parts, env);
      KeepsThen(c, out1, b1, out2, b2);
      ToolPhaseKeeps(b2, Fold(c, out1 + out2).value, chunk.toolCalls, env);
      var (b3, out3, raised) := ToolPhase(b2, chunk.toolCalls, env);
      KeepsThen(c, out1 + out2, b2, out3, b3);
    }
  }

  /** After any chunks at all, whether or not one of them raised, what was sent is legal so far and
      the builder's state matches it. */
  lemma {:induction false} ChunksKeep<H>(s: Session<H>, c: Check, chunks: seq<UpstreamChunk>, env: Env<H>)
    requires Sim(s.blocks, c)
    ensures var (s1, out, raised) := ProcessChunks(s, chunks, env); Keeps(c, out, s1.blocks)
    decreases chunks
  {
    if chunks == [] {
      KeepsNothing(c, s.blocks);
    } else {
      ChunkKeeps(s, c, chunks[0], env);
      var (s1, out1, raised1) := ProcessChunk(s, chunks[0], env);
      ChunksUnfold(s, chunks, env, s1, out1, raised1, []);
      if !raised1 {
        ChunksKeep(s1, Fold(c, out1).value, chunks[1..], env);
        var (s2, out2, raised2) := ProcessChunks(s1, chunks[1..], env);
        KeepsThen(c, out1, s1.blocks, out2, s2.blocks);
      }
    }
  }

  // ---------------------------------------------------------------------------------------------
  // The end of the stream
  // ---------------------------------------------------------------------------------------------

  ghost predicate ClosedBy(b: Blocks, order: seq<int>, d: int) {
    exists t :: t in order && IsStarted(b, t) && b.tools[t].blockIndex == d
  }

  /** The stops of the started tools close exactly those. */
  lemma {:induction false} ToolStopsClose(b: Blocks, order: seq<int>, c: Check)
    requires ToolsOpen(b, c) && Distinct(order)
    ensures OnlyBlocks(ToolStops(b.tools, order))
    ensures Fold(c, ToolStops(b.tools, order)).Some?
    ensures var c1 := Fold(c, ToolStops(b.tools, order)).value;
            && c1.seen == c.seen
            && (forall d :: d in c1.open <==> d in c.open && !ClosedBy(b, order, d))
  {
    if order != [] {
      var t, rest := order[|order| - 1], order[..|order| - 1];
      assert order == rest + [t];
      ToolStopsAppend(b.tools, rest, [t]);
      ToolStopsClose(b, rest, c);
      FoldAppend(c, ToolStops(b.tools, rest), ToolStops(b.tools, [t]));
      assert ToolStops(b.tools, [t][1..]) == [];
      assert forall d :: ClosedBy(b, order, d) <==>
        ClosedBy(b, rest, d) || (IsStarted(b, t) && b.tools[t].blockIndex == d);
      if IsStarted(b, t) {
        var c1 := Fold(c, ToolStops(b.tools, rest)).value;
        assert ToolStops(b.tools, [t]) == [BlockStop(b.tools[t].blockIndex)];
        assert !ClosedBy(b, rest, b.tools[t].blockIndex);
        FoldOne(c1, BlockStop(b.tools[t].blockIndex));
      }
    }
  }

  /** close_all_blocks leaves nothing open. */
  lemma CloseAllCloses(b: Blocks, c: Check)
    requires Sim(b, c)
    ensures var (b1, out) := CloseAll(b);
            && OnlyBlocks(out)
            && b1.nextIndex == b.nextIndex
            && Fold(c, out) == Some(Check(map[], c.seen))
  {
    CloseContentKeeps(b, c);
    var (b1, out1) := CloseContent(b);
    var c1 := Fold(c, out1).value;
    assert !b1.thinkingStarted && !b1.textStarted;
    ToolStopsClose(b1, b1.toolOrder, c1);
    var out2 := ToolStops(b1.tools, b1.toolOrder);
    var c2 := Fold(c1, out2).value;
    FoldAppend(c, out1, out2);
    forall d ensures d !in c2.open {
      if d in c1.open {
        assert Accounted(b1, c1.open[d], d);
        assert ClosedBy(b1, b1.toolOrder, d);
      }
    }
    SameMap(c2.open, map[]);
    SameSet(c2.seen, c.seen);
  }

  predicate EndsMessage(tail: seq<Event>) {
    && |tail| >= 2
    && tail[|tail| - 1] == MessageStop
    && tail[|tail| - 2].MessageDelta?
  }

  /** A tail that closes everything and shows something. */
  ghost predicate Completes(c: Check, tail: seq<Event>) {
    && EndsMessage(tail)
    && Fold(c, tail).Some?
    && Fold(c, tail).value.open == map[]
    && Fold(c, tail).value.seen != {}
  }

  lemma EndKeeps(c: Check, out: seq<Event>, stop: Event)
    requires Fold(c, out).Some? && Fold(c, out).value.open == map[] && Fold(c, out).value.seen != {}
    requires stop.MessageDelta?
    ensures Completes(c, out + [stop, MessageStop])
  {
    var c1 := Fold(c, out).value;
    FoldAppend(c, out, [stop, MessageStop]);
    assert [stop, MessageStop][1..] == [MessageStop];
    FoldOne(c1, MessageStop);
  }

  lemma FailureCompletes(b: Blocks, c: Check, message: string)
    requires Sim(b, c)
    ensures Completes(c, FailureTail(b, message))
    ensures HasError(FailureTail(b, message)) <==> HasStartedTool(b)
  {
    CloseAllCloses(b, c);
    var (b1, out) := CloseAll(b);
    assert b1.tools == b.tools;
    var middle := if HasStartedTool(b1) then [ErrorEvent(message)] else EmitError(b1, message).1;
    ReportCompletes(b, c, b1, out, middle, message);
    EndKeeps(c, out + middle, MessageDelta("end_turn", 1));
    ErrorIsInAPart(out + middle, [MessageDelta("end_turn", 1), MessageStop]);
  }

  lemma ReportCompletes(b: Blocks, c: Check, b1: Blocks, out: seq<Event>, middle: seq<Event>, message: string)
    requires Sim(b, c) && b1.nextIndex == b.nextIndex && (HasStartedTool(b1) <==> HasStartedTool(b))
    requires middle == if HasStartedTool(b1) then [ErrorEvent(message)] else EmitError(b1, message).1
    requires Fold(c, out).Some? && Fold(c, out).value.open == map[] && Fold(c, out).value.seen == c.seen && !HasError(out)
    ensures Fold(c, out + middle).Some? && Fold(c, out + middle).value.open == map[] && Fold(c, out + middle).value.seen != {}
    ensures HasError(out + middle) <==> HasStartedTool(b)
  {
    var c1 := Fold(c, out).value;
    FoldAppend(c, out, middle);
    ErrorIsInAPart(out, middle);
    if HasStartedTool(b) {
      FoldOne(c1, ErrorEvent(message));
      var t :| t in b.tools && b.tools[t].started;
      assert IsStarted(b, t) && b.tools[t].blockIndex in c.seen;
      assert middle[0] == ErrorEvent(message);
    } else {
      WholeBlock(c1, b.nextIndex, message);
      assert b.nextIndex in c1.seen + {b.nextIndex};
    }
  }

  /** The error block on its own. */
  lemma WholeBlock(c: Check, i: int, message: string)
    requires i !in c.open && i !in c.seen
    ensures Fold(c, ErrorBlock(i, message)) == Some(Check(c.open, c.seen + {i}))
  {
    var start, delta, stop := BlockStart(i, TextBlock("")), BlockDelta(i, TextDelta(message)), BlockStop(i);
    FoldOne(c, start);
    var c1 := Step(c, start).value;
    FoldOne(c1, delta);
    FoldOne(c1, stop);
    assert [delta, stop] == [delta] + [stop] && [start, delta, stop] == [start] + [delta, stop];
    FoldAppend(c1, [delta], [stop]);
    FoldAppend(c, [start], [delta, stop]);
    SameMap(Step(c1, stop).value.open, c.open);
  }

  /** Flushing Task arguments sends deltas to started tools only. */
  lemma {:induction false} FlushTaskArgsKeeps(b: Blocks, c: Check, order: seq<int>, parse: string -> TaskArgs)
    requires Sim(b, c)
    ensures var (b1, out) := FlushTaskArgs(b, order, parse); Keeps(c, out, b1) && b1.nextIndex == b.nextIndex
    decreases order
  {
    if order == [] {
      KeepsNothing(c, b);
    } else {
      var i := order[0];
      if i !in b.tools || b.tools[i].taskArgBuffer == "" || b.tools[i].taskArgsEmitted {
        FlushTaskArgsKeeps(b, c, order[1..], parse);
      } else {
        var parsed := parse(b.tools[i].taskArgBuffer);
        var json := if parsed.Normalized? then parsed.json else "{}";
        var b1 := PutTool(b, i, b.tools[i].(taskArgsEmitted := true, taskArgBuffer := ""));
        EditToolKeeps(b, c, i, b1.tools[i]);
        ToolDeltaKeeps(b1, c, i, json);
        var (b2, out2) := ToolDelta(b1, i, json);
        FlushTaskArgsKeeps(b2, Fold(c, out2).value, order[1..], parse);
        var (b3, out3) := FlushTaskArgs(b2, order[1..], parse);
        KeepsThen(c, out2, b2, out3, b3);
      }
    }
  }

  lemma FlushAliasKeeps(b: Blocks, c: Check, i: int, rules: ArgRules)
    requires Sim(b, c)
    ensures var (b1, out) := FlushAlias(b, i, rules); Keeps(c, out, b1) && b1.nextIndex == b.nextIndex
  {
    DropAliasKeeps(b, c, i);
    if AliasBuffer(b, i) == "" {
      KeepsNothing(c, DropAlias(b, i));
    } else if i !in b.tools || b.tools[i].name == "Task" || !rules.aliased(b.tools[i].name) {
      KeepsNothing(c, b);
    } else {
      var restored := rules.restore(b.tools[i].name, AliasBuffer(b, i));
      var json := if restored.Some? then restored.value else AliasBuffer(b, i);
      ToolDeltaKeeps(b, c, i, json);
      var (b1, out) := ToolDelta(b, i, json);
      DropAliasKeeps(b1, Fold(c, out).value, i);
    }
  }

  /** Flushing held back arguments sends deltas to started tools only. */
  lemma {:induction false} FlushAliasesKeep(b: Blocks, c: Check, order: seq<int>, rules: ArgRules)
    requires Sim(b, c)
    ensures var (b1, out) := FlushAliases(b, order, rules); Keeps(c, out, b1) && b1.nextIndex == b.nextIndex
    decreases order
  {
    if order == [] {
      KeepsNothing(c, b);
    } else {
      FlushAliasKeeps(b, c, order[0], rules);
      var (b1, out1) := FlushAlias(b, order[0], rules);
      FlushAliasesKeep(b1, Fold(c, out1).value, order[1..], rules);
      var (b2, out2) := FlushAliases(b1, order[1..], rules);
      KeepsThen(c, out1, b1, out2, b2);
    }
  }

  lemma FlushParserKeeps<H>(b: Blocks, c: Check, parser: Parser, env: Env<H>)
    requires Sim(b, c)
    ensures var (b1, out) := FlushParser(b, parser, env); Keeps(c, out, b1)
  {
    KeepsNothing(c, b);
    var rest := Flush(parser).1;
    if rest.Some? {
      SayKeeps(b, c, rest.value.content);
      ThinkKeeps(b, c, rest.value.content);
    }
  }

  lemma PlaceholderKeeps(b: Blocks, c: Check)
    requires Sim(b, c)
    ensures var (b1, out) := Placeholder(b); Keeps(c, out, b1) && 0 < b1.nextIndex
  {
    if NeedsPlaceholder(b) {
      SayKeeps(b, c, " ");
    } else {
      KeepsNothing(c, b);
      if HasStartedTool(b) {
        var t :| t in b.tools && b.tools[t].started;
        assert IsStarted(b, t);
      }
    }
  }

  /** The text and the heuristic tools that come out at the end. */
  lemma LastTextKeeps<H>(s: Session<H>, c: Check, env: Env<H>)
    requires Sim(s.blocks, c)
    ensures var (b1, out1) := FlushParser(s.blocks, s.parser, env);
            var (b2, out2) := HeuristicTools(b1, env.flush(s.heuristic));
            var (b3, out3) := Placeholder(b2);
            Keeps(c, out1 + out2 + out3, b3) && 0 < b3.nextIndex
  {
    FlushParserKeeps(s.blocks, c, s.parser, env);
    var (b1, out1) := FlushParser(s.blocks, s.parser, env);
    HeuristicToolsKeep(b1, Fold(c, out1).value, env.flush(s.heuristic));
    var (b2, out2) := HeuristicTools(b1, env.flush(s.heuristic));
    KeepsThen(c, out1, b1, out2, b2);
    PlaceholderKeeps(b2, Fold(c, out1 + out2).value);
    var (b3, out3) := Placeholder(b2);
    KeepsThen(c, out1 + out2, b2, out3, b3);
  }

  /** Then the arguments held back are flushed, and all blocks are closed. */
  lemma ClosingCloses(b3: Blocks, c: Check, sofar: seq<Event>, rules: ArgRules)
    requires Keeps(c, sofar, b3) && 0 < b3.nextIndex
    ensures var (b4, out4) := FlushAliases(b3, b3.aliasOrder, rules);
            var (b5, out5) := FlushTaskArgs(b4, b4.toolOrder, rules.parse);
            var all := sofar + out4 + out5 + CloseAll(b5).1;
            && OnlyBlocks(all) && Fold(c, all).Some? && Fold(c, all).value.open == map[] && Fold(c, all).value.seen != {}
  {
    FlushAliasesKeep(b3, Fold(c, sofar).value, b3.aliasOrder, rules);
    var (b4, out4) := FlushAliases(b3, b3.aliasOrder, rules);
    KeepsThen(c, sofar, b3, out4, b4);
    FlushTaskArgsKeeps(b4, Fold(c, sofar + out4).value, b4.toolOrder, rules.parse);
    var (b5, out5) := FlushTaskArgs(b4, b4.toolOrder, rules.parse);
    KeepsThen(c, sofar + out4, b4, out5, b5);
    var c5 := Fold(c, sofar + out4 + out5).value;
    CloseAllCloses(b5, c5);
    FoldAppend(c, sofar + out4 + out5, CloseAll(b5).1);
    assert 0 in c5.seen;
  }

  /** A stream that did not fail is closed, with a block to show, before its message is ended. */
  lemma WindCloses<H>(s: Session<H>, c: Check, env: Env<H>)
    requires Sim(s.blocks, c)
    ensures var out := Wind(s, env).1;
            OnlyBlocks(out) && Fold(c, out).Some? && Fold(c, out).value.open == map[] && Fold(c, out).value.seen != {}
  {
    LastTextKeeps(s, c, env);
    var (b1, out1) := FlushParser(s.blocks, s.parser, env);
    var (b2, out2) := HeuristicTools(b1, env.flush(s.heuristic));
    var (b3, out3) := Placeholder(b2);
    ClosingCloses(b3, c, out1 + out2 + out3, env.rules);
  }

  /** It is complete if and only if the output tokens are counted, or can be estimated. */
  lemma SuccessCompletes<H>(s: Session<H>, c: Check, env: Env<H>, counted: Option<int>)
    requires Sim(s.blocks, c)
    ensures var (tail, done) := SuccessTail(s, env, counted);
            && (done <==> OutputTokens(s, env, counted).Some?)
            && (if done then Completes(c, tail) else OnlyBlocks(tail) && Fold(c, tail).Some?)
            && !HasError(tail)
  {
    WindCloses(s, c, env);
    var out := Wind(s, env).1;
    var count := OutputTokens(s, env, counted);
    if count.Some? {
      var end := MessageDelta(StopReason(s.finish), count.value);
      EndKeeps(c, out, end);
      ErrorIsInAPart(out, [end, MessageStop]);
    }
  }

  // ---------------------------------------------------------------------------------------------
  // The theorem
  // ---------------------------------------------------------------------------------------------

  lemma FreshSim()
    ensures Sim(FRESH, EMPTY)
  {
  }

  /** Blocks between a message_start and a completing tail make a contract stream; an error event
      can only come from the tail. */
  lemma Assemble(id: string, out: seq<Event>, tail: seq<Event>, allowError: bool)
    requires OnlyBlocks(out) && Fold(EMPTY, out).Some? && Completes(Fold(EMPTY, out).value, tail)
    ensures Contract([MessageStart(id)] + out + tail, allowError) <==> allowError || !HasError(tail)
  {
    var head := [MessageStart(id)] + out;
    FoldOne(EMPTY, MessageStart(id));
    FoldAppend(EMPTY, [MessageStart(id)], out);
    FoldAppend(EMPTY, head, tail);
    assert (head + tail)[0] == MessageStart(id);
    assert !HasError(head) by {
      assert forall k | 1 <= k < |head| :: head[k] == out[k - 1];
    }
    ErrorIsInAPart(head, tail);
  }

  lemma ErrorIsInAPart(a: seq<Event>, b: seq<Event>)
    ensures HasError(a + b) <==> HasError(a) || HasError(b)
  {
    var es := a + b;
    assert forall k | 0 <= k < |a| :: es[k] == a[k];
    assert forall k | 0 <= k < |b| :: es[|a| + k] == b[k];
    assert forall k | |a| <= k < |es| :: es[k] == b[k - |a|];
  }

  /** Did the stream end in the error path? */
  predicate Failed<H>(h: H, chunks: seq<UpstreamChunk>, failure: Option<string>, env: Env<H>) {
    failure.Some? || ProcessChunks(Begin(h), chunks, env).2
  }

  /** Are the output tokens of a stream that does not fail counted by the upstream, or estimated without
      an exception? The encoder must then take all text, reasoning, names and arguments of the stream. */
  predicate Countable<H>(h: H, chunks: seq<UpstreamChunk>, counted: Option<int>, env: Env<H>) {
    || counted.Some? || env.encoder.None?
    || var b := Wind(ProcessChunks(Begin(h), chunks, env).0, env).0;
       && env.encoder.value(Concat(b.textParts)).Some? && env.encoder.value(Concat(b.reasoningParts)).Some?
       && ToolsEncodable(b.tools, b.toolOrder, env.encoder.value)
  }

  lemma CountableIff<H>(s: Session<H>, env: Env<H>, counted: Option<int>)
    ensures OutputTokens(s, env, counted).Some? <==>
              || counted.Some? || env.encoder.None?
              || var b := Wind(s, env).0;
                 && env.encoder.value(Concat(b.textParts)).Some? && env.encoder.value(Concat(b.reasoningParts)).Some?
                 && ToolsEncodable(b.tools, b.toolOrder, env.encoder.value)
  {
    if counted.None? && env.encoder.Some? {
      EstimateSucceedsIff(Wind(s, env).0, env.encoder.value);
    }
  }

  lemma TailCompletes<H>(s: Session<H>, c: Check, raised: bool, failure: Option<string>, crash: string, env: Env<H>, counted: Option<int>)
    requires Sim(s.blocks, c)
    ensures var (tail, done) := Tail(s, raised, failure, crash, env, counted);
            && (done <==> raised || failure.Some? || OutputTokens(s, env, counted).Some?)
            && (if done then Completes(c, tail) else OnlyBlocks(tail) && Fold(c, tail).Some?)
            && (HasError(tail) <==> (raised || failure.Some?) && HasStartedTool(s.blocks))
  {
    if raised {
      FailureCompletes(s.blocks, c, crash);
    } else if failure.Some? {
      FailureCompletes(s.blocks, c, failure.value);
    } else {
      SuccessCompletes(s, c, env, counted);
    }
  }

  /** Without an end of the message there is no contract stream. */
  lemma NeverEnded(id: string, out: seq<Event>, allowError: bool)
    requires OnlyBlocks(out)
    ensures !Contract([MessageStart(id)] + out, allowError)
  {
    var es := [MessageStart(id)] + out;
    assert out != [] ==> es[|es| - 1] == out[|out| - 1];
  }

  lemma AssembleOrNot(id: string, out: seq<Event>, tail: seq<Event>, done: bool, allowError: bool)
    requires OnlyBlocks(out) && Fold(EMPTY, out).Some?
    requires if done then Completes(Fold(EMPTY, out).value, tail) else OnlyBlocks(tail)
    ensures Contract([MessageStart(id)] + out + tail, allowError) <==> done && (allowError || !HasError(tail))
  {
    if done {
      Assemble(id, out, tail, allowError);
    } else {
      assert [MessageStart(id)] + out + tail == [MessageStart(id)] + (out + tail);
      NeverEnded(id, out + tail, allowError);
    }
  }

  /** For every sequence of upstream chunks and for a failure after any of them (or inside one), the
      response meets the whole contract with errors allowed if and only if it failed or its tokens are
      countable; otherwise an exception escapes after the blocks have been closed, and the message is never
      ended. With errors disallowed a response that failed after a native tool call block was sent does
      not meet it either. */
  lemma ResponseMeetsContract<H>(messageId: string, h: H, chunks: seq<UpstreamChunk>, failure: Option<string>,
                                 crash: string, env: Env<H>, counted: Option<int>)
    ensures var (es, done) := Response(messageId, h, chunks, failure, crash, env, counted);
            && (done <==> Failed(h, chunks, failure, env) || Countable(h, chunks, counted, env))
            && (Contract(es, true) <==> done)
            && (Contract(es, false) <==>
                done && !(Failed(h, chunks, failure, env)
                          && HasStartedTool(ProcessChunks(Begin(h), chunks, env).0.blocks)))
  {
    FreshSim();
    ChunksKeep(Begin(h), EMPTY, chunks, env);
    var (s, out, raised) := ProcessChunks(Begin(h), chunks, env);
    TailCompletes(s, Fold(EMPTY, out).value, raised, failure, crash, env, counted);
    CountableIff(s, env, counted);
    var (tail, done) := Tail(s, raised, failure, crash, env, counted);
    AssembleOrNot(messageId, out, tail, done, true);
    AssembleOrNot(messageId, out, tail, done, false);
  }
}
