/** What the client gets for a tool over a whole response when its arguments are rewritten: those of Task
    go out once, as one object, those with renamed keys whenever they are complete. */
module RewrittenArguments {
  import opened Prelude
  import opened SseEvents
  import opened StreamContract
  import opened SseBuilder
  import opened ThinkTags
  import opened OpenAIStream
  import opened OpenAIContract
  import opened ToolArguments
  import opened ToolArgumentTotals

  // ---------------------------------------------------------------------------------------------
  // One tool by itself
  // ---------------------------------------------------------------------------------------------

  /** What has been sent for a tool, what is held back, whether nothing more will be sent, and whether the
      arguments made the stream raise. */
  datatype Held = Held(sent: seq<string>, buffer: string, over: bool, raised: bool)

  const UNTOUCHED: Held := Held([], "", false, false)

  function TakeTask(parse: string -> TaskArgs, h: Held, fragment: string): Held {
    if h.over then h
    else
      match parse(h.buffer + fragment)
      case Incomplete => h.(buffer := h.buffer + fragment)
      case NotAnObject => h.(buffer := h.buffer + fragment, raised := true)
      case Normalized(json) => Held(h.sent + [json], "", true, false)
  }

  function TakeAliased(restore: string -> Option<string>, h: Held, fragment: string): Held {
    match restore(h.buffer + fragment)
    case None => h.(buffer := h.buffer + fragment)
    case Some(json) => h.(sent := h.sent + [json], buffer := "")
  }

  /** One more fragment for a tool of that name. */
  function Take(rules: ArgRules, name: string, h: Held, fragment: string): Held {
    if fragment == "" || h.raised then h
    else if name == "Task" then TakeTask(rules.parse, h, fragment)
    else if rules.aliased(name) then TakeAliased(text => rules.restore(name, text), h, fragment)
    else h.(sent := h.sent + [fragment])
  }

  function TakeAll(rules: ArgRules, name: string, fragments: seq<string>): Held {
    if fragments == [] then UNTOUCHED
    else Take(rules, name, TakeAll(rules, name, fragments[..|fragments| - 1]), fragments[|fragments| - 1])
  }

  /** What the regular end of a stream adds for the text still held back. */
  function Rest(name: string, h: Held): seq<string> {
    if h.buffer == "" then [] else if name == "Task" then ["{}"] else [h.buffer]
  }

  lemma TakeOneMore(rules: ArgRules, name: string, fragments: seq<string>, fragment: string)
    ensures TakeAll(rules, name, fragments + [fragment]) == Take(rules, name, TakeAll(rules, name, fragments), fragment)
  {
    assert (fragments + [fragment])[..|fragments|] == fragments;
  }

  /** Text is held back only while it cannot be rewritten, and never for other tools. */
  ghost predicate Waits(rules: ArgRules, name: string, h: Held) {
    && (h.buffer != "" && !h.raised ==>
          if name == "Task" then rules.parse(h.buffer) == Incomplete && !h.over
          else rules.aliased(name) && rules.restore(name, h.buffer).None?)
    && (name == "Task" ==> |h.sent| == (if h.over then 1 else 0) && (h.over ==> h.buffer == ""))
    && (name != "Task" ==> !h.over && !h.raised)
    && (PlainName(name, rules) ==> h.buffer == "")
  }

  lemma {:induction false} TakenWaits(rules: ArgRules, name: string, fragments: seq<string>)
    ensures Waits(rules, name, TakeAll(rules, name, fragments))
  {
    if fragments != [] {
      TakenWaits(rules, name, fragments[..|fragments| - 1]);
    }
  }

  // ---------------------------------------------------------------------------------------------
  // The tool in the stream
  // ---------------------------------------------------------------------------------------------

  /** The tool's state is that of the fragments it was given. */
  ghost predicate Tells(tool: ToolCallState, aliasBuffer: string, rules: ArgRules, name: string, h: Held) {
    && tool.name == name && tool.contents == h.sent
    && tool.taskArgBuffer == (if name == "Task" then h.buffer else "")
    && tool.taskArgsEmitted == h.over
    && aliasBuffer == (if name != "Task" && rules.aliased(name) then h.buffer else "")
  }

  /** A started tool is in that state, and has been sent what the state says. */
  ghost predicate HasSent(b: Blocks, out: seq<Event>, rules: ArgRules, t: int, name: string, h: Held) {
    && Below(out, b.nextIndex) && IsStarted(b, t)
    && Tells(b.tools[t], AliasBuffer(b, t), rules, name, h) && Payloads(out, b.tools[t].blockIndex) == b.tools[t].contents
  }

  ghost predicate Follows(b: Blocks, out: seq<Event>, rules: ArgRules, t: int, name: string, fragments: seq<string>) {
    && Below(out, b.nextIndex)
    && if IsStarted(b, t) then
         HasSent(b, out, rules, t, name, TakeAll(rules, name, fragments))
       else
         && fragments == [] && t !in b.aliasBuffers
         && (t in b.tools ==> b.tools[t].contents == [] && b.tools[t].taskArgBuffer == "" && !b.tools[t].taskArgsEmitted)
  }

  /** A step that leaves the tool alone. */
  lemma Untouched(b: Blocks, b1: Blocks, out: seq<Event>, out1: seq<Event>, rules: ArgRules, t: int, name: string, fragments: seq<string>)
    requires Follows(b, out, rules, t, name, fragments)
    requires b.nextIndex <= b1.nextIndex && Below(out1, b1.nextIndex)
    requires (t in b1.tools <==> t in b.tools) && (t in b.tools ==> b1.tools[t] == b.tools[t])
    requires AliasBuffer(b1, t) == AliasBuffer(b, t) && (t in b1.aliasBuffers <==> t in b.aliasBuffers)
    requires IsStarted(b, t) ==> Silent(out1, b.tools[t].blockIndex)
    ensures Follows(b1, out + out1, rules, t, name, fragments)
  {
    if IsStarted(b, t) {
      SilentHasNone(out1, b.tools[t].blockIndex);
      PayloadsAppend(out, out1, b.tools[t].blockIndex);
      assert b.tools[t].contents + [] == b.tools[t].contents;
    }
  }

  /** A change of the tool that does not touch its arguments, or its name once it has one. */
  lemma EditFollows(b: Blocks, out: seq<Event>, rules: ArgRules, t: int, name: string, fragments: seq<string>, i: int, tool: ToolCallState)
    requires Follows(b, out, rules, t, name, fragments)
    requires i in b.tools ==> tool == b.tools[i].(name := tool.name, toolId := tool.toolId)
    requires i !in b.tools ==> tool == NewTool(tool.name).(toolId := tool.toolId)
    requires i == t && IsStarted(b, t) ==> tool.name == name
    ensures Follows(PutTool(b, i, tool), out, rules, t, name, fragments)
  {
  }

  /** The call leaves its tool t with that name, or without any. */
  predicate LeavesNamed(b: Blocks, tc: ToolCallDelta, t: int, name: string) {
    Target(b, tc) == Some(t) ==> KnownName(Register(b, t, tc), t) == name || IsBlank(KnownName(Register(b, t, tc), t))
  }

  lemma SetIdFollows(b: Blocks, out: seq<Event>, rules: ArgRules, t: int, name: string, fragments: seq<string>, i: int, id: string)
    requires Follows(b, out, rules, t, name, fragments)
    ensures Follows(SetToolId(b, i, id), out, rules, t, name, fragments)
  {
    if id != "" {
      if i !in b.tools {
        EditFollows(b, out, rules, t, name, fragments, i, NewTool(""));
      }
      var b1 := EnsureTool(b, i);
      EditFollows(b1, out, rules, t, name, fragments, i, b1.tools[i].(toolId := id));
    }
  }

  lemma NameFollows(b: Blocks, out: seq<Event>, rules: ArgRules, t: int, name: string, fragments: seq<string>, i: int, given: string)
    requires Follows(b, out, rules, t, name, fragments)
    requires i == t && IsStarted(b, t) ==> KnownName(RegisterName(b, i, given), i) == name
    ensures Follows(RegisterName(b, i, given), out, rules, t, name, fragments)
  {
    var b1 := RegisterName(b, i, given);
    NameForm(b, i, given);
    EditFollows(b, out, rules, t, name, fragments, i, b1.tools[i]);
  }

  /** Registering a name changes the tool's name only. */
  lemma NameForm(b: Blocks, i: int, given: string)
    ensures var b1 := RegisterName(b, i, given);
            && i in b1.tools && b1 == PutTool(b, i, b1.tools[i])
            && b1.tools[i] == if i in b.tools then b.tools[i].(name := b1.tools[i].name) else NewTool(b1.tools[i].name)
  {
    if i in b.tools {
      PutSame(b, i);
    }
  }

  lemma RegisterFollows(b: Blocks, out: seq<Event>, rules: ArgRules, t: int, name: string, fragments: seq<string>, i: int, tc: ToolCallDelta)
    requires Follows(b, out, rules, t, name, fragments) && !IsBlank(name)
    requires i == t ==> KnownName(Register(b, t, tc), t) == name || IsBlank(KnownName(Register(b, t, tc), t))
    ensures Follows(Register(b, i, tc), out, rules, t, name, fragments)
    ensures i == t && IsStarted(b, t) ==> KnownName(Register(b, t, tc), t) == name
  {
    var b1 := b;
    if tc.id.Some? {
      SetIdFollows(b, out, rules, t, name, fragments, i, tc.id.value);
      b1 := SetToolId(b, i, tc.id.value);
    }
    if tc.name.Some? {
      if i == t && IsStarted(b, t) {
        NameStays(b1, i, tc.name.value);
      }
      NameFollows(b1, out, rules, t, name, fragments, i, tc.name.value);
    }
  }

  // ---------------------------------------------------------------------------------------------
  // One call
  // ---------------------------------------------------------------------------------------------

  /** A fragment, unless it is empty. */
  function Piece(args: string): seq<string> {
    if args == "" then [] else [args]
  }

  lemma TakePiece(rules: ArgRules, name: string, fragments: seq<string>, args: string)
    ensures TakeAll(rules, name, fragments + Piece(args)) == Take(rules, name, TakeAll(rules, name, fragments), args)
  {
    if args == "" {
      assert fragments + [] == fragments;
    } else {
      TakeOneMore(rules, name, fragments, args);
    }
  }

  lemma OwnDelta(b: Blocks, out: seq<Event>, rules: ArgRules, t: int, name: string, h: Held, json: string)
    requires Below(out, b.nextIndex) && IsStarted(b, t) && b.tools[t].blockIndex < b.nextIndex
    requires Payloads(out, b.tools[t].blockIndex) == h.sent && b.tools[t].contents == h.sent
    ensures var (b1, out1) := ToolDelta(b, t, json);
            && Below(out + out1, b1.nextIndex) && IsStarted(b1, t)
            && Payloads(out + out1, b1.tools[t].blockIndex) == b1.tools[t].contents == h.sent + [json]
  {
    PayloadsGrow(out, b.tools[t].blockIndex, json);
  }

  lemma OwnTask(b: Blocks, out: seq<Event>, rules: ArgRules, t: int, h: Held, args: string)
    requires HasSent(b, out, rules, t, "Task", h) && b.tools[t].blockIndex < b.nextIndex && args != "" && !h.raised
    ensures var (b1, out1, raised) := EmitArgs(b, t, args, rules);
            var h1 := Take(rules, "Task", h, args);
            HasSent(b1, out + out1, rules, t, "Task", h1) && (raised <==> h1.raised)
  {
    assert out + [] == out;
    var (b1, parsed) := BufferTaskArgs(b, t, args, rules.parse);
    if parsed.Normalized? {
      OwnDelta(b1, out, rules, t, "Task", h, parsed.json);
    }
  }

  lemma OwnAliased(b: Blocks, out: seq<Event>, rules: ArgRules, t: int, name: string, h: Held, args: string)
    requires HasSent(b, out, rules, t, name, h) && b.tools[t].blockIndex < b.nextIndex && args != "" && !h.raised
    requires name != "Task" && rules.aliased(name)
    ensures var (b1, out1, raised) := EmitArgs(b, t, args, rules);
            var h1 := Take(rules, name, h, args);
            HasSent(b1, out + out1, rules, t, name, h1) && !raised && !h1.raised
  {
    assert out + [] == out;
    var restored := rules.restore(name, h.buffer + args);
    if restored.Some? {
      OwnDelta(DropAlias(b, t), out, rules, t, name, h, restored.value);
    }
  }

  lemma OwnEmit(b: Blocks, out: seq<Event>, rules: ArgRules, t: int, name: string, fragments: seq<string>, args: string)
    requires Follows(b, out, rules, t, name, fragments) && IsStarted(b, t) && b.tools[t].blockIndex < b.nextIndex
    requires !TakeAll(rules, name, fragments).raised
    ensures var (b1, out1, raised) := EmitArgs(b, t, args, rules);
            && Follows(b1, out + out1, rules, t, name, fragments + Piece(args))
            && (raised <==> TakeAll(rules, name, fragments + Piece(args)).raised)
  {
    var h := TakeAll(rules, name, fragments);
    TakePiece(rules, name, fragments, args);
    if args == "" {
      assert out + [] == out;
    } else if name == "Task" {
      OwnTask(b, out, rules, t, h, args);
    } else if rules.aliased(name) {
      OwnAliased(b, out, rules, t, name, h, args);
    } else {
      OwnDelta(b, out, rules, t, name, h, args);
    }
  }

  lemma OtherEmit(b: Blocks, c: Check, out: seq<Event>, rules: ArgRules, t: int, name: string, fragments: seq<string>, i: int, args: string)
    requires Sim(b, c) && Follows(b, out, rules, t, name, fragments) && IsStarted(b, i) && i != t
    ensures var (b1, out1, raised) := EmitArgs(b, i, args, rules); Follows(b1, out + out1, rules, t, name, fragments)
  {
    var (b1, out1, raised) := EmitArgs(b, i, args, rules);
    assert IsOpen(c, b.tools[i].blockIndex, ToolOpen);
    EmitArgsForm(b, i, args, rules);
    Untouched(b, b1, out, out1, rules, t, name, fragments);
  }

  /** Emitting for any started tool. */
  lemma EmitFollows(b: Blocks, c: Check, out: seq<Event>, rules: ArgRules, t: int, name: string, fragments: seq<string>, i: int, args: string)
    requires Sim(b, c) && Follows(b, out, rules, t, name, fragments) && IsStarted(b, i)
    requires !TakeAll(rules, name, fragments).raised
    ensures var (b1, out1, raised) := EmitArgs(b, i, args, rules);
            var later := if i == t then fragments + Piece(args) else fragments;
            && Follows(b1, out + out1, rules, t, name, later)
            && (!raised ==> !TakeAll(rules, name, later).raised)
            && (raised && i == t ==> TakeAll(rules, name, later).raised)
  {
    if i == t {
      assert IsOpen(c, b.tools[t].blockIndex, ToolOpen);
      OwnEmit(b, out, rules, t, name, fragments, args);
    } else {
      OtherEmit(b, c, out, rules, t, name, fragments, i, args);
    }
  }

  /** The builder after a tool's block was started, with nothing held back from before. */
  function Opened(b: Blocks, i: int, id: string, name: string): (Blocks, seq<Event>) {
    var (b1, out) := StartTool(b, i, id, name);
    (PutTool(b1, i, b1.tools[i].(preStartArgs := "")), out)
  }

  lemma StartFollows(b: Blocks, out: seq<Event>, rules: ArgRules, t: int, name: string, fragments: seq<string>, i: int, id: string, shown: string)
    requires Follows(b, out, rules, t, name, fragments) && i in b.tools && !b.tools[i].started && 0 <= b.nextIndex
    requires i == t ==> b.tools[t].name == name
    ensures var (b2, out1) := Opened(b, i, id, shown); Follows(b2, out + out1, rules, t, name, fragments)
  {
    var (b2, out1) := Opened(b, i, id, shown);
    if i == t {
      PayloadsAppend(out, out1, b.nextIndex);
      SilentHasNone(out, b.nextIndex);
      assert out1[1..] == [];
    } else {
      Untouched(b, b2, out, out1, rules, t, name, fragments);
    }
  }

  /** What was held back for tool t before it had a name, if it has one now and its block has not started. */
  function Released(b: Blocks, t: int): seq<string> {
    if !IsStarted(b, t) && !IsBlank(KnownName(b, t)) then Piece(b.tools[t].preStartArgs) else []
  }

  /** The fragments a call delivers to tool t. */
  function Delivered(b: Blocks, tc: ToolCallDelta, t: int): seq<string> {
    if Target(b, tc) != Some(t) then []
    else
      var b0 := Register(b, t, tc);
      if !IsStarted(b0, t) && IsBlank(KnownName(b0, t)) then [] else Released(b0, t) + Piece(tc.arguments)
  }

  /** The start of a block and the arguments released by it. */
  lemma StartIfNamedFollows<H>(b: Blocks, c: Check, out: seq<Event>, t: int, name: string, fragments: seq<string>, i: int,
                               tc: ToolCallDelta, env: Env<H>)
    requires Sim(b, c) && Follows(b, out, env.rules, t, name, fragments) && !TakeAll(env.rules, name, fragments).raised
    requires i == t && !IsBlank(KnownName(b, t)) ==> KnownName(b, t) == name
    ensures var (b1, out1, raised) := StartIfNamed(b, i, tc, env);
            var later := fragments + if i == t then Released(b, t) else [];
            && Follows(b1, out + out1, env.rules, t, name, later)
            && (!raised ==> !TakeAll(env.rules, name, later).raised)
            && (raised && i == t ==> TakeAll(env.rules, name, later).raised)
            && (IsStarted(b1, i) || (b1 == b && IsBlank(KnownName(b, i))))
  {
    assert fragments + [] == fragments;
    if IsStarted(b, i) || IsBlank(KnownName(b, i)) {
      assert out + [] == out;
    } else {
      var id, shown := ToolId(b, i, tc, env.uuid), Strip(KnownName(b, i));
      var pre := b.tools[i].preStartArgs;
      StartFollows(b, out, env.rules, t, name, fragments, i, id, shown);
      StartToolKeeps(b, c, i, id, shown);
      var (b1, out1) := StartTool(b, i, id, shown);
      EditToolKeeps(b1, Fold(c, out1).value, i, b1.tools[i].(preStartArgs := ""));
      var b2 := Opened(b, i, id, shown).0;
      EmitFollows(b2, Fold(c, out1).value, out + out1, env.rules, t, name, fragments, i, pre);
      EmitArgsFrame(b2, i, pre, env.rules);
      Associate(out, out1, EmitArgs(b2, i, pre, env.rules).1);
    }
  }

  lemma AddPieces(fragments: seq<string>, a: seq<string>, b: seq<string>)
    ensures fragments + a + b == fragments + (a + b)
  {
  }

  /** Once the stream has raised, nothing changes any more. */
  lemma RaisedStays(b: Blocks, out: seq<Event>, rules: ArgRules, t: int, name: string, fragments: seq<string>, args: string)
    requires Follows(b, out, rules, t, name, fragments) && IsStarted(b, t) && TakeAll(rules, name, fragments).raised
    ensures Follows(b, out, rules, t, name, fragments + Piece(args)) && TakeAll(rules, name, fragments + Piece(args)).raised
  {
    TakePiece(rules, name, fragments, args);
  }

  lemma HoldFollows(b: Blocks, out: seq<Event>, rules: ArgRules, t: int, name: string, fragments: seq<string>, i: int, args: string)
    requires Follows(b, out, rules, t, name, fragments) && !IsStarted(b, i)
    ensures Follows(HoldArgs(b, i, args), out, rules, t, name, fragments)
  {
  }

  /** The rest of a call for tool i, after its block was started if it could be. */
  lemma RestFollows<H>(b1: Blocks, c1: Check, sofar: seq<Event>, t: int, name: string, fragments: seq<string>, i: int, args: string,
                       env: Env<H>)
    requires Sim(b1, c1) && Follows(b1, sofar, env.rules, t, name, fragments) && !TakeAll(env.rules, name, fragments).raised
    ensures var later := if i == t && IsStarted(b1, t) then fragments + Piece(args) else fragments;
            var (b2, out2, raised) :=
              if args == "" then (b1, [], false)
              else if !IsStarted(b1, i) then (HoldArgs(b1, i, args), [], false)
              else EmitArgs(b1, i, args, env.rules);
            && Follows(b2, sofar + out2, env.rules, t, name, later)
            && (!raised ==> !TakeAll(env.rules, name, later).raised)
  {
    assert sofar + [] == sofar && fragments + [] == fragments;
    if args != "" {
      if IsStarted(b1, i) {
        EmitFollows(b1, c1, sofar, env.rules, t, name, fragments, i, args);
      } else {
        HoldFollows(b1, sofar, env.rules, t, name, fragments, i, args);
      }
    }
  }

  /** A call in two steps. */
  lemma CallForm<H>(b: Blocks, tc: ToolCallDelta, env: Env<H>, out: seq<Event>)
    requires tc.index.Some?
    ensures var i := ResolveIndex(b, tc.index.value);
            var (b1, out1, raised1) := StartIfNamed(Register(b, i, tc), i, tc, env);
            var (b2, out2, raised2) :=
              if tc.arguments == "" then (b1, [], false)
              else if !IsStarted(b1, i) then (HoldArgs(b1, i, tc.arguments), [], false)
              else EmitArgs(b1, i, tc.arguments, env.rules);
            var (b3, out3, raised3) := ProcessToolCall(b, tc, env);
            if raised1 then b3 == b1 && out + out3 == out + out1 && raised3
            else b3 == b2 && out + out3 == out + out1 + out2 && raised3 == raised2
  {
    var i := ResolveIndex(b, tc.index.value);
    var (b1, out1, raised1) := StartIfNamed(Register(b, i, tc), i, tc, env);
    assert out + out1 + [] == out + out1;
    if !raised1 && tc.arguments != "" && IsStarted(b1, i) {
      Associate(out, out1, EmitArgs(b1, i, tc.arguments, env.rules).1);
    }
  }

  /** A call up to the start of its block. */
  lemma CallStarts<H>(b: Blocks, c: Check, out: seq<Event>, t: int, name: string, fragments: seq<string>, i: int, tc: ToolCallDelta, env: Env<H>)
    requires Sim(b, c) && Follows(b, out, env.rules, t, name, fragments) && !TakeAll(env.rules, name, fragments).raised
    requires !IsBlank(name) && LeavesNamed(b, tc, t, name) && Target(b, tc) == Some(i)
    ensures var b0 := Register(b, i, tc);
            var (b1, out1, raised) := StartIfNamed(b0, i, tc, env);
            var later := fragments + if i == t then Released(b0, t) else [];
            && Follows(b1, out + out1, env.rules, t, name, later)
            && (!raised ==> Keeps(c, out1, b1) && !TakeAll(env.rules, name, later).raised)
            && (raised && i == t ==> TakeAll(env.rules, name, later).raised)
            && (IsStarted(b1, i) || (b1 == b0 && IsBlank(KnownName(b0, i))))
  {
    RegisterKeeps(b, c, i, tc);
    RegisterFollows(b, out, env.rules, t, name, fragments, i, tc);
    StartIfNamedFollows(Register(b, i, tc), c, out, t, name, fragments, i, tc, env);
    StartIfNamedKeeps(Register(b, i, tc), c, i, tc, env);
  }

  lemma CallFollows<H>(b: Blocks, c: Check, out: seq<Event>, t: int, name: string, fragments: seq<string>, tc: ToolCallDelta, env: Env<H>)
    requires Sim(b, c) && Follows(b, out, env.rules, t, name, fragments) && !TakeAll(env.rules, name, fragments).raised
    requires !IsBlank(name) && LeavesNamed(b, tc, t, name)
    ensures var (b1, out1, raised) := ProcessToolCall(b, tc, env);
            var later := fragments + Delivered(b, tc, t);
            && Follows(b1, out + out1, env.rules, t, name, later)
            && (!raised ==> !TakeAll(env.rules, name, later).raised)
  {
    assert fragments + [] == fragments;
    if tc.index.None? {
      assert out + [] == out;
    } else {
      var i := ResolveIndex(b, tc.index.value);
      var (b1, out1, raised1) := StartIfNamed(Register(b, i, tc), i, tc, env);
      var first := if i == t then Released(Register(b, t, tc), t) else [];
      CallStarts(b, c, out, t, name, fragments, i, tc, env);
      CallForm(b, tc, env, out);
      AddPieces(fragments, first, Piece(tc.arguments));
      if !raised1 {
        RestFollows(b1, Fold(c, out1).value, out + out1, t, name, fragments + first, i, tc.arguments, env);
      } else if i == t {
        RaisedStays(b1, out + out1, env.rules, t, name, fragments + first, tc.arguments);
      }
    }
  }

  // ---------------------------------------------------------------------------------------------
  // Whole streams
  // ---------------------------------------------------------------------------------------------

  function DeliveredInCalls<H>(b: Blocks, tcs: seq<ToolCallDelta>, env: Env<H>, t: int): seq<string>
    decreases tcs
  {
    if tcs == [] then []
    else
      var (b1, out1, raised) := ProcessToolCall(b, tcs[0], env);
      Delivered(b, tcs[0], t) + if raised then [] else DeliveredInCalls(b1, tcs[1..], env, t)
  }

  predicate StaysNamedInCalls<H>(b: Blocks, tcs: seq<ToolCallDelta>, env: Env<H>, t: int, name: string)
    decreases tcs
  {
    tcs != [] ==>
      var (b1, out1, raised) := ProcessToolCall(b, tcs[0], env);
      LeavesNamed(b, tcs[0], t, name) && (raised || StaysNamedInCalls(b1, tcs[1..], env, t, name))
  }

  function DeliveredInChunk<H>(s: Session<H>, chunk: UpstreamChunk, env: Env<H>, t: int): seq<string> {
    if chunk.Delta? then DeliveredInCalls(BeforeCalls(s, chunk, env), chunk.toolCalls, env, t) else []
  }

  /** The fragments delivered to tool t by a list of chunks, up to one that raises. */
  function DeliveredIn<H>(s: Session<H>, chunks: seq<UpstreamChunk>, env: Env<H>, t: int): seq<string>
    decreases chunks
  {
    if chunks == [] then []
    else
      var (s1, out1, raised) := ProcessChunk(s, chunks[0], env);
      DeliveredInChunk(s, chunks[0], env, t) + if raised then [] else DeliveredIn(s1, chunks[1..], env, t)
  }

  /** No call delta leaves tool t with another name than this one, once it has a name. */
  predicate StaysNamed<H>(s: Session<H>, chunks: seq<UpstreamChunk>, env: Env<H>, t: int, name: string)
    decreases chunks
  {
    chunks != [] ==>
      var (s1, out1, raised) := ProcessChunk(s, chunks[0], env);
      && (chunks[0].Delta? ==> StaysNamedInCalls(BeforeCalls(s, chunks[0], env), chunks[0].toolCalls, env, t, name))
      && (raised || StaysNamed(s1, chunks[1..], env, t, name))
  }

  /** The tool's state is that of the fragments, and the stream has not raised because of them. */
  ghost predicate OnTrack(b: Blocks, out: seq<Event>, rules: ArgRules, t: int, name: string, fragments: seq<string>, raised: bool) {
    Follows(b, out, rules, t, name, fragments) && (!raised ==> !TakeAll(rules, name, fragments).raised)
  }

  lemma Regrouped(b: Blocks, out: seq<Event>, out1: seq<Event>, out2: seq<Event>, rules: ArgRules, t: int, name: string,
                  f: seq<string>, f1: seq<string>, f2: seq<string>, raised: bool)
    requires OnTrack(b, out + out1 + out2, rules, t, name, f + f1 + f2, raised)
    ensures OnTrack(b, out + (out1 + out2), rules, t, name, f + (f1 + f2), raised)
  {
    assert out + (out1 + out2) == out + out1 + out2;
    assert f + (f1 + f2) == f + f1 + f2;
  }

  lemma NothingNew(b: Blocks, out: seq<Event>, rules: ArgRules, t: int, name: string, f: seq<string>, raised: bool)
    requires OnTrack(b, out, rules, t, name, f, raised)
    ensures OnTrack(b, out + [], rules, t, name, f + [], raised)
  {
    assert out + [] == out && f + [] == f;
  }

  lemma {:induction false} CallsFollow<H>(b: Blocks, c: Check, out: seq<Event>, t: int, name: string, f: seq<string>,
                                          tcs: seq<ToolCallDelta>, env: Env<H>)
    requires Sim(b, c) && OnTrack(b, out, env.rules, t, name, f, false) && !IsBlank(name)
    requires StaysNamedInCalls(b, tcs, env, t, name)
    ensures var (b1, out1, raised) := ProcessToolCalls(b, tcs, env);
            OnTrack(b1, out + out1, env.rules, t, name, f + DeliveredInCalls(b, tcs, env, t), raised)
    decreases tcs
  {
    if tcs == [] {
      NothingNew(b, out, env.rules, t, name, f, false);
    } else {
      CallFollows(b, c, out, t, name, f, tcs[0], env);
      ToolCallKeeps(b, c, tcs[0], env);
      var (b1, out1, raised) := ProcessToolCall(b, tcs[0], env);
      var first := Delivered(b, tcs[0], t);
      CallsUnfold(b, tcs, env, b1, out1, raised, out);
      if raised {
        assert first + [] == first;
      } else {
        CallsFollow(b1, Fold(c, out1).value, out + out1, t, name, f + first, tcs[1..], env);
        var (b2, out2, raised2) := ProcessToolCalls(b1, tcs[1..], env);
        Regrouped(b2, out, out1, out2, env.rules, t, name, f, first, DeliveredInCalls(b1, tcs[1..], env, t), raised2);
      }
    }
  }

  lemma LeavesFollow(b: Blocks, c: Check, b1: Blocks, out: seq<Event>, out1: seq<Event>, rules: ArgRules, t: int, name: string, f: seq<string>)
    requires Sim(b, c) && Follows(b, out, rules, t, name, f) && LeavesTools(b, b1, out1)
    ensures Follows(b1, out + out1, rules, t, name, f)
  {
    if IsStarted(b, t) {
      assert IsOpen(c, b.tools[t].blockIndex, ToolOpen);
    }
    Untouched(b, b1, out, out1, rules, t, name, f);
  }

  lemma ToolPhaseFollows<H>(b: Blocks, c: Check, out: seq<Event>, t: int, name: string, f: seq<string>, tcs: seq<ToolCallDelta>, env: Env<H>)
    requires Sim(b, c) && OnTrack(b, out, env.rules, t, name, f, false) && !IsBlank(name)
    requires StaysNamedInCalls(CloseContent(b).0, tcs, env, t, name)
    ensures var (b1, out1, raised) := ToolPhase(b, tcs, env);
            OnTrack(b1, out + out1, env.rules, t, name, f + DeliveredInCalls(CloseContent(b).0, tcs, env, t), raised)
  {
    if tcs == [] {
      NothingNew(b, out, env.rules, t, name, f, false);
    } else {
      CloseContentKeeps(b, c);
      TextLeaves(b, c, "");
      var (b1, out1) := CloseContent(b);
      LeavesFollow(b, c, b1, out, out1, env.rules, t, name, f);
      CallsFollow(b1, Fold(c, out1).value, out + out1, t, name, f, tcs, env);
      Associate(out, out1, ProcessToolCalls(b1, tcs, env).1);
    }
  }

  /** A chunk up to its tool calls leaves the tools alone. */
  lemma TextPart<H>(s: Session<H>, c: Check, chunk: UpstreamChunk, env: Env<H>)
    requires Sim(s.blocks, c) && chunk.Delta?
    ensures var (b1, out1) := Reason(s.blocks, chunk.reasoning, env.thinking);
            var (b2, h, out2) := EmitParts(b1, s.heuristic, Parts(s.parser, chunk.content).1, env);
            LeavesTools(s.blocks, b2, out1 + out2) && Keeps(c, out1 + out2, b2)
  {
    KeepsNothing(c, s.blocks);
    if env.thinking && chunk.reasoning != "" {
      ThinkKeeps(s.blocks, c, chunk.reasoning);
    }
    TextLeaves(s.blocks, c, chunk.reasoning);
    var (b1, out1) := Reason(s.blocks, chunk.reasoning, env.thinking);
    var c1 := Fold(c, out1).value;
    var parts := Parts(s.parser, chunk.content).1;
    PartsKeep(b1, s.heuristic, c1, parts, env);
    PartsLeave(b1, s.heuristic, c1, parts, env);
    var (b2, h, out2) := EmitParts(b1, s.heuristic, parts, env);
    LeavesThen(s.blocks, b1, b2, out1, out2);
    KeepsThen(c, out1, b1, out2, b2);
  }

  lemma ChunkFollows<H>(s: Session<H>, c: Check, out: seq<Event>, t: int, name: string, f: seq<string>, chunk: UpstreamChunk, env: Env<H>)
    requires Sim(s.blocks, c) && OnTrack(s.blocks, out, env.rules, t, name, f, false) && !IsBlank(name)
    requires chunk.Delta? ==> StaysNamedInCalls(BeforeCalls(s, chunk, env), chunk.toolCalls, env, t, name)
    ensures var (s1, out1, raised) := ProcessChunk(s, chunk, env);
            OnTrack(s1.blocks, out + out1, env.rules, t, name, f + DeliveredInChunk(s, chunk, env, t), raised)
  {
    if !chunk.Delta? {
      NothingNew(s.blocks, out, env.rules, t, name, f, false);
    } else {
      TextPart(s, c, chunk, env);
      var (b1, out1) := Reason(s.blocks, chunk.reasoning, env.thinking);
      var (b2, h, out2) := EmitParts(b1, s.heuristic, Parts(s.parser, chunk.content).1, env);
      LeavesFollow(s.blocks, c, b2, out, out1 + out2, env.rules, t, name, f);
      ToolPhaseFollows(b2, Fold(c, out1 + out2).value, out + (out1 + out2), t, name, f, chunk.toolCalls, env);
      Associate(out, out1 + out2, ToolPhase(b2, chunk.toolCalls, env).1);
    }
  }

  lemma ChunkGoesOn<H>(s: Session<H>, c: Check, out: seq<Event>, t: int, name: string, f: seq<string>, chunks: seq<UpstreamChunk>, env: Env<H>)
    requires Sim(s.blocks, c) && OnTrack(s.blocks, out, env.rules, t, name, f, false) && !IsBlank(name)
    requires chunks != [] && StaysNamed(s, chunks, env, t, name)
    ensures var (s1, out1, raised) := ProcessChunk(s, chunks[0], env);
            && OnTrack(s1.blocks, out + out1, env.rules, t, name, f + DeliveredInChunk(s, chunks[0], env, t), raised)
            && (!raised ==> Keeps(c, out1, s1.blocks) && StaysNamed(s1, chunks[1..], env, t, name))
  {
    ChunkFollows(s, c, out, t, name, f, chunks[0], env);
    ChunkKeeps(s, c, chunks[0], env);
  }

  lemma {:induction false} ChunksFollow<H>(s: Session<H>, c: Check, out: seq<Event>, t: int, name: string, f: seq<string>,
                                           chunks: seq<UpstreamChunk>, env: Env<H>)
    requires Sim(s.blocks, c) && OnTrack(s.blocks, out, env.rules, t, name, f, false) && !IsBlank(name)
    requires StaysNamed(s, chunks, env, t, name)
    ensures var (s1, out1, raised) := ProcessChunks(s, chunks, env);
            OnTrack(s1.blocks, out + out1, env.rules, t, name, f + DeliveredIn(s, chunks, env, t), raised)
    decreases chunks
  {
    if chunks == [] {
      NothingNew(s.blocks, out, env.rules, t, name, f, false);
    } else {
      var (s1, out1, raised) := ProcessChunk(s, chunks[0], env);
      var first := DeliveredInChunk(s, chunks[0], env, t);
      ChunkGoesOn(s, c, out, t, name, f, chunks, env);
      ChunksUnfold(s, chunks, env, s1, out1, raised, out);
      if raised {
        assert first + [] == first;
      } else {
        ChunksFollow(s1, Fold(c, out1).value, out + out1, t, name, f + first, chunks[1..], env);
        var (s2, out2, raised2) := ProcessChunks(s1, chunks[1..], env);
        Regrouped(s2.blocks, out, out1, out2, env.rules, t, name, f, first, DeliveredIn(s1, chunks[1..], env, t), raised2);
      }
    }
  }

  // ---------------------------------------------------------------------------------------------
  // The end of a response
  // ---------------------------------------------------------------------------------------------

  lemma AddsNothing(out: seq<Event>, end: seq<Event>, d: int)
    requires Silent(end, d)
    ensures Payloads(out + end, d) == Payloads(out, d)
  {
    SilentHasNone(end, d);
    PayloadsAppend(out, end, d);
    NoneBefore([], Payloads(out, d));
  }

  lemma SilentStart(out: seq<Event>, more: seq<Event>, d: int)
    requires Silent(out, d)
    ensures Payloads(out + more, d) == Payloads(more, d)
  {
    SilentHasNone(out, d);
    PayloadsAppend(out, more, d);
    NoneBefore(Payloads(more, d), []);
  }

  /** What flushing the held back text adds for the tool. */
  lemma FlushOwnAlias(b: Blocks, rules: ArgRules, t: int, name: string, h: Held)
    requires IsStarted(b, t) && Tells(b.tools[t], AliasBuffer(b, t), rules, name, h) && Waits(rules, name, h) && !h.raised
    ensures var (b1, out) := FlushAlias(b, t, rules);
            && Payloads(out, b.tools[t].blockIndex) == (if name == "Task" then [] else Rest(name, h))
            && IsStarted(b1, t) && b1.tools[t] == b.tools[t].(contents := b1.tools[t].contents)
            && t !in b1.aliasBuffers
  {
    var d := b.tools[t].blockIndex;
    if name != "Task" && h.buffer != "" {
      var out := [BlockDelta(d, InputJsonDelta(h.buffer))];
      assert out[1..] == [] && Payloads(out, d) == [h.buffer];
    }
  }

  lemma {:induction false} FlushAliasesAdd(b: Blocks, c: Check, order: seq<int>, rules: ArgRules, t: int, name: string, h: Held)
    requires Sim(b, c) && IsStarted(b, t) && Distinct(order)
    requires Tells(b.tools[t], AliasBuffer(b, t), rules, name, h) && Waits(rules, name, h) && !h.raised
    requires t in b.aliasBuffers ==> t in order
    ensures var (b1, out) := FlushAliases(b, order, rules);
            && Payloads(out, b.tools[t].blockIndex) == (if name == "Task" then [] else Rest(name, h))
            && IsStarted(b1, t) && b1.tools[t] == b.tools[t].(contents := b1.tools[t].contents)
    decreases order
  {
    var d := b.tools[t].blockIndex;
    if order != [] {
      var i, rest := order[0], order[1..];
      var (b1, out1) := FlushAlias(b, i, rules);
      assert order == [i] + rest && i !in rest;
      FlushAliasKeeps(b, c, i, rules);
      if i == t {
        FlushOwnAlias(b, rules, t, name, h);
        FlushAliasesAreSilent(b1, Fold(c, out1).value, rest, rules, t);
        AddsNothing(out1, FlushAliases(b1, rest, rules).1, d);
      } else {
        OtherAlias(b, c, i, rules, t);
        FlushAliasesAdd(b1, Fold(c, out1).value, rest, rules, t, name, h);
        SilentStart(out1, FlushAliases(b1, rest, rules).1, d);
      }
    }
  }

  lemma NoneBefore(s: seq<string>, r: seq<string>)
    ensures [] + s == s && r + [] == r
  {
  }

  lemma OtherAlias(b: Blocks, c: Check, i: int, rules: ArgRules, t: int)
    requires Sim(b, c) && IsStarted(b, t) && i != t
    ensures var (b1, out) := FlushAlias(b, i, rules);
            && Silent(out, b.tools[t].blockIndex) && IsStarted(b1, t) && b1.tools[t] == b.tools[t]
            && AliasBuffer(b1, t) == AliasBuffer(b, t) && (t in b1.aliasBuffers <==> t in b.aliasBuffers)
  {
    if i in b.aliasBuffers {
      assert IsStarted(b, i) && b.tools[i].blockIndex != b.tools[t].blockIndex;
    }
  }

  /** A tool that still has Task text gets one delta for it. */
  lemma {:induction false} FlushTaskAdds(b: Blocks, c: Check, order: seq<int>, parse: string -> TaskArgs, t: int)
    requires Sim(b, c) && IsStarted(b, t) && Distinct(order) && t in order
    requires b.tools[t].taskArgBuffer != "" ==> !b.tools[t].taskArgsEmitted && parse(b.tools[t].taskArgBuffer) == Incomplete
    ensures Payloads(FlushTaskArgs(b, order, parse).1, b.tools[t].blockIndex) == if b.tools[t].taskArgBuffer == "" then [] else ["{}"]
    decreases order
  {
    var i, rest, d := order[0], order[1..], b.tools[t].blockIndex;
    assert order == [i] + rest && i !in rest;
    if b.tools[t].taskArgBuffer == "" {
      FlushingIsSilent(b, c, order, parse, t);
      SilentHasNone(FlushTaskArgs(b, order, parse).1, d);
    } else if i == t {
      FlushOwnTask(b, c, t);
      var (b2, out2) := FlushedOne(b, t, "{}");
      FlushingIsSilent(b2, Fold(c, out2).value, rest, parse, t);
      AddsNothing(out2, FlushTaskArgs(b2, rest, parse).1, d);
    } else if i !in b.tools || b.tools[i].taskArgBuffer == "" || b.tools[i].taskArgsEmitted {
      FlushTaskAdds(b, c, rest, parse, t);
    } else {
      var parsed := parse(b.tools[i].taskArgBuffer);
      var json := if parsed.Normalized? then parsed.json else "{}";
      FlushOtherTask(b, c, i, json, t);
      var (b2, out2) := FlushedOne(b, i, json);
      FlushTaskAdds(b2, Fold(c, out2).value, rest, parse, t);
      SilentStart(out2, FlushTaskArgs(b2, rest, parse).1, d);
    }
  }

  lemma FlushedOneKeeps(b: Blocks, c: Check, i: int, json: string)
    requires Sim(b, c) && IsStarted(b, i)
    ensures var (b2, out2) := FlushedOne(b, i, json); Keeps(c, out2, b2)
  {
    var b1 := PutTool(b, i, b.tools[i].(taskArgsEmitted := true, taskArgBuffer := ""));
    EditToolKeeps(b, c, i, b1.tools[i]);
    ToolDeltaKeeps(b1, c, i, json);
  }

  lemma FlushOwnTask(b: Blocks, c: Check, t: int)
    requires Sim(b, c) && IsStarted(b, t)
    ensures var (b2, out2) := FlushedOne(b, t, "{}");
            && Keeps(c, out2, b2) && Payloads(out2, b.tools[t].blockIndex) == ["{}"]
            && IsStarted(b2, t) && b2.tools[t].taskArgBuffer == "" && b2.tools[t].blockIndex == b.tools[t].blockIndex
  {
    FlushedOneKeeps(b, c, t, "{}");
    assert FlushedOne(b, t, "{}").1[1..] == [];
  }

  lemma FlushOtherTask(b: Blocks, c: Check, i: int, json: string, t: int)
    requires Sim(b, c) && IsStarted(b, t) && i in b.tools && b.tools[i].taskArgBuffer != "" && i != t
    ensures var (b2, out2) := FlushedOne(b, i, json);
            && Keeps(c, out2, b2) && Silent(out2, b.tools[t].blockIndex)
            && IsStarted(b2, t) && b2.tools[t] == b.tools[t]
  {
    assert IsStarted(b, i) && b.tools[i].blockIndex != b.tools[t].blockIndex;
    FlushedOneKeeps(b, c, i, json);
  }

  /** What the flushing and closing part adds for the tool. */
  lemma ClosingPartAdds(b3: Blocks, c: Check, rules: ArgRules, t: int, name: string, h: Held)
    requires Sim(b3, c) && IsStarted(b3, t) && Tells(b3.tools[t], AliasBuffer(b3, t), rules, name, h)
    requires Waits(rules, name, h) && !h.raised
    ensures var (b4, out4) := FlushAliases(b3, b3.aliasOrder, rules);
            var (b5, out5) := FlushTaskArgs(b4, b4.toolOrder, rules.parse);
            Payloads(out4 + out5 + CloseAll(b5).1, b3.tools[t].blockIndex) == Rest(name, h)
  {
    var d := b3.tools[t].blockIndex;
    FlushAliasesAdd(b3, c, b3.aliasOrder, rules, t, name, h);
    FlushAliasesKeep(b3, c, b3.aliasOrder, rules);
    var (b4, out4) := FlushAliases(b3, b3.aliasOrder, rules);
    FlushTaskAdds(b4, Fold(c, out4).value, b4.toolOrder, rules.parse, t);
    var (b5, out5) := FlushTaskArgs(b4, b4.toolOrder, rules.parse);
    ClosingIsSilent(b5, d);
    AddsNothing(out4 + out5, CloseAll(b5).1, d);
    PayloadsAppend(out4, out5, d);
    NoneBefore(Payloads(out5, d), Payloads(out4, d));
  }

  lemma WindAdds<H>(s: Session<H>, c: Check, env: Env<H>, t: int, name: string, h: Held)
    requires Sim(s.blocks, c) && IsStarted(s.blocks, t) && Tells(s.blocks.tools[t], AliasBuffer(s.blocks, t), env.rules, name, h)
    requires Waits(env.rules, name, h) && !h.raised
    ensures Payloads(Wind(s, env).1, s.blocks.tools[t].blockIndex) == Rest(name, h)
  {
    var d := s.blocks.tools[t].blockIndex;
    EndLeaves(s, c, env);
    assert IsOpen(c, d, ToolOpen);
    var (b1, out1) := FlushParser(s.blocks, s.parser, env);
    var (b2, out2) := HeuristicTools(b1, env.flush(s.heuristic));
    var (b3, out3) := Placeholder(b2);
    ClosingPartAdds(b3, Fold(c, out1 + out2 + out3).value, env.rules, t, name, h);
    var (b4, out4) := FlushAliases(b3, b3.aliasOrder, env.rules);
    var (b5, out5) := FlushTaskArgs(b4, b4.toolOrder, env.rules.parse);
    SilentFirst(out1 + out2 + out3, out4, out5, CloseAll(b5).1, d);
  }

  lemma SilentFirst(sofar: seq<Event>, x: seq<Event>, y: seq<Event>, z: seq<Event>, d: int)
    requires Silent(sofar, d)
    ensures Payloads(sofar + x + y + z, d) == Payloads(x + y + z, d)
  {
    assert sofar + x + y + z == sofar + (x + y + z);
    SilentStart(sofar, x + y + z, d);
  }

  lemma FailureAdds(b: Blocks, message: string, d: int)
    ensures Payloads(FailureTail(b, message), d) == []
  {
    FailureIsSilent(b, message, d);
    SilentHasNone(FailureTail(b, message), d);
  }

  lemma SuccessAdds<H>(s: Session<H>, env: Env<H>, counted: Option<int>, d: int)
    ensures Payloads(SuccessTail(s, env, counted).0, d) == Payloads(Wind(s, env).1, d)
  {
    var count := OutputTokens(s, env, counted);
    if count.Some? {
      AddsNothing(Wind(s, env).1, [MessageDelta(StopReason(s.finish), count.value), MessageStop], d);
    }
  }

  lemma TailAdds<H>(s: Session<H>, c: Check, raised: bool, failure: Option<string>, crash: string, env: Env<H>, counted: Option<int>,
                    t: int, name: string, h: Held)
    requires Sim(s.blocks, c) && IsStarted(s.blocks, t) && Tells(s.blocks.tools[t], AliasBuffer(s.blocks, t), env.rules, name, h)
    requires Waits(env.rules, name, h) && (!raised ==> !h.raised)
    ensures Payloads(Tail(s, raised, failure, crash, env, counted).0, s.blocks.tools[t].blockIndex)
         == if raised || failure.Some? then [] else Rest(name, h)
  {
    var d := s.blocks.tools[t].blockIndex;
    if raised {
      FailureAdds(s.blocks, crash, d);
    } else if failure.Some? {
      FailureAdds(s.blocks, failure.value, d);
    } else {
      WindAdds(s, c, env, t, name, h);
      SuccessAdds(s, env, counted, d);
    }
  }

  /** For every response and every native tool that keeps its name once it has one: what the client gets for
      it is what the fragments delivered to it were rewritten to. If the stream ends without a failure, text
      still held back follows: {} for an incomplete Task, the text itself for renamed keys. If it fails,
      that text is lost. A tool without a name gets nothing. */
  lemma ArgumentsTotal<H>(messageId: string, h: H, chunks: seq<UpstreamChunk>, failure: Option<string>, crash: string, env: Env<H>,
                          counted: Option<int>, t: int, name: string)
    requires !IsBlank(name) && StaysNamed(Begin(h), chunks, env, t, name)
    ensures var b := ProcessChunks(Begin(h), chunks, env).0.blocks;
            var all := Response(messageId, h, chunks, failure, crash, env, counted).0;
            var held := TakeAll(env.rules, name, DeliveredIn(Begin(h), chunks, env, t));
            SentFor(b, all, t) == Concat(held.sent + if Failed(h, chunks, failure, env) then [] else Rest(name, held))
  {
    var (s, out, raised) := ProcessChunks(Begin(h), chunks, env);
    FreshSim();
    ChunksKeep(Begin(h), EMPTY, chunks, env);
    OnTrackFromStart(h, chunks, env, t, name);
    TotalOf(messageId, s, Fold(EMPTY, out).value, out, raised, failure, crash, env, counted, t, name, DeliveredIn(Begin(h), chunks, env, t));
  }

  lemma OnTrackFromStart<H>(h: H, chunks: seq<UpstreamChunk>, env: Env<H>, t: int, name: string)
    requires !IsBlank(name) && StaysNamed(Begin(h), chunks, env, t, name)
    ensures var (s, out, raised) := ProcessChunks(Begin(h), chunks, env);
            OnTrack(s.blocks, out, env.rules, t, name, DeliveredIn(Begin(h), chunks, env, t), raised)
  {
    FreshSim();
    ChunksFollow(Begin(h), EMPTY, [], t, name, [], chunks, env);
    var out, f := ProcessChunks(Begin(h), chunks, env).1, DeliveredIn(Begin(h), chunks, env, t);
    assert [] + out == out && [] + f == f;
  }

  lemma TotalOf<H>(messageId: string, s: Session<H>, c: Check, out: seq<Event>, raised: bool, failure: Option<string>, crash: string,
                   env: Env<H>, counted: Option<int>, t: int, name: string, f: seq<string>)
    requires Sim(s.blocks, c) && OnTrack(s.blocks, out, env.rules, t, name, f, raised)
    ensures var all := [MessageStart(messageId)] + out + Tail(s, raised, failure, crash, env, counted).0;
            var held := TakeAll(env.rules, name, f);
            SentFor(s.blocks, all, t) == Concat(held.sent + if raised || failure.Some? then [] else Rest(name, held))
  {
    var held := TakeAll(env.rules, name, f);
    TakenWaits(env.rules, name, f);
    if IsStarted(s.blocks, t) {
      var d := s.blocks.tools[t].blockIndex;
      TailAdds(s, c, raised, failure, crash, env, counted, t, name, held);
      PayloadsInThree(messageId, out, Tail(s, raised, failure, crash, env, counted).0, d);
    } else {
      assert f == [] && held == UNTOUCHED;
    }
  }

  lemma PayloadsInThree(id: string, out: seq<Event>, tail: seq<Event>, d: int)
    ensures Payloads([MessageStart(id)] + out + tail, d) == Payloads(out, d) + Payloads(tail, d)
  {
    SilentHasNone([MessageStart(id)], d);
    PayloadsAppend([MessageStart(id)], out, d);
    PayloadsAppend([MessageStart(id)] + out, tail, d);
    NoneBefore(Payloads(out, d), []);
  }

  // ---------------------------------------------------------------------------------------------
  // What the fragments are rewritten to
  // ---------------------------------------------------------------------------------------------

  predicate NoEmpty(fragments: seq<string>) {
    forall k | 0 <= k < |fragments| :: fragments[k] != ""
  }

  /** The first k fragments are an object, and no fewer are JSON. */
  predicate FirstObject(parse: string -> TaskArgs, fragments: seq<string>, k: int) {
    0 < k <= |fragments| && parse(Concat(fragments[..k])).Normalized?
    && forall j | 0 < j < k :: parse(Concat(fragments[..j])) == Incomplete
  }

  ghost predicate NoJsonYet(parse: string -> TaskArgs, fragments: seq<string>) {
    forall j | 0 < j <= |fragments| :: parse(Concat(fragments[..j])) == Incomplete
  }

  lemma JsonOfFront(parse: string -> TaskArgs, fragments: seq<string>)
    requires fragments != []
    ensures var front := fragments[..|fragments| - 1];
            && (forall k | k < |fragments| :: FirstObject(parse, fragments, k) <==> FirstObject(parse, front, k))
            && (NoJsonYet(parse, fragments) <==> NoJsonYet(parse, front) && parse(Concat(fragments)) == Incomplete)
            && (FirstObject(parse, fragments, |fragments|) <==> NoJsonYet(parse, front) && parse(Concat(fragments)).Normalized?)
            && (forall k | 0 <= k <= |front| :: fragments[..k] == front[..k]) && fragments[..|fragments|] == fragments
  {
    var front := fragments[..|fragments| - 1];
    assert forall j | 0 <= j <= |front| :: front[..j] == fragments[..j];
    assert fragments[..|fragments|] == fragments;
  }

  /** A Task is sent once, as the object that its first fragments make up, and before that everything is
      held back. */
  lemma {:induction false} TaskIsTaken(rules: ArgRules, fragments: seq<string>)
    requires NoEmpty(fragments)
    ensures var h := TakeAll(rules, "Task", fragments);
            && (h.over <==> exists k :: FirstObject(rules.parse, fragments, k))
            && (forall k | FirstObject(rules.parse, fragments, k) :: h.sent == [rules.parse(Concat(fragments[..k])).json])
            && (!h.over && !h.raised <==> NoJsonYet(rules.parse, fragments))
            && (!h.over ==> h.sent == []) && (!h.over && !h.raised ==> h.buffer == Concat(fragments))
  {
    if fragments != [] {
      var front, last := fragments[..|fragments| - 1], fragments[|fragments| - 1];
      TaskIsTaken(rules, front);
      JsonOfFront(rules.parse, fragments);
      ConcatOne(front, last);
      assert front + [last] == fragments;
      TakeOneMore(rules, "Task", front, last);
      TakenWaits(rules, "Task", front);
      OneFirstObject(rules.parse, fragments);
      var h := TakeAll(rules, "Task", front);
      if !h.over && !h.raised {
        assert h.buffer + last == Concat(fragments);
      }
    }
  }

  /** The first object is the first one. */
  lemma OneFirstObject(parse: string -> TaskArgs, fragments: seq<string>)
    ensures forall j, k | FirstObject(parse, fragments, j) && FirstObject(parse, fragments, k) :: j == k
    ensures NoJsonYet(parse, fragments) ==> forall k :: !FirstObject(parse, fragments, k)
  {
  }

  /** Arguments with renamed keys are sent piece by piece, each with its keys restored, and together with
      what is held back the pieces are all that was delivered. */
  lemma {:induction false} AliasedIsTaken(rules: ArgRules, name: string, fragments: seq<string>) returns (pieces: seq<string>)
    requires name != "Task" && rules.aliased(name)
    ensures var h := TakeAll(rules, name, fragments);
            && |pieces| == |h.sent| && (forall k | 0 <= k < |pieces| :: rules.restore(name, pieces[k]) == Some(h.sent[k]))
            && Concat(pieces) + h.buffer == Concat(fragments)
  {
    pieces := [];
    if fragments != [] {
      var front, last := fragments[..|fragments| - 1], fragments[|fragments| - 1];
      pieces := AliasedIsTaken(rules, name, front);
      var h := TakeAll(rules, name, front);
      assert front + [last] == fragments;
      ConcatOne(front, last);
      TakeOneMore(rules, name, front, last);
      TakenWaits(rules, name, front);
      AliasedOneMore(pieces, h.buffer, last);
      if last != "" && rules.restore(name, h.buffer + last).Some? {
        pieces := pieces + [h.buffer + last];
      }
    } else {
      assert Concat(pieces) + "" == "";
    }
  }

  lemma AliasedOneMore(pieces: seq<string>, buffer: string, last: string)
    ensures Concat(pieces) + buffer + last == Concat(pieces) + (buffer + last)
    ensures Concat(pieces + [buffer + last]) + "" == Concat(pieces) + buffer + last
    ensures last == "" ==> Concat(pieces) + buffer + last == Concat(pieces) + buffer
  {
    ConcatOne(pieces, buffer + last);
  }
}
