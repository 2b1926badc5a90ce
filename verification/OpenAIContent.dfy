/** What a client is told, in which order: the upstream's reasoning and text, and its tool calls. Said from the
    chunks alone, without the builder. */
module OpenAIContent {
  import opened Prelude
  import opened SseEvents
  import opened SseBuilder
  import opened ThinkTags
  import opened OpenAIStream

  // ---------------------------------------------------------------------------------------------
  // What the client reads
  // ---------------------------------------------------------------------------------------------

  /** A piece of thinking, a piece of text, or the start of a tool call with its number. */
  datatype Item = Thought(text: string) | Spoken(text: string) | Called(number: int, id: Option<string>, name: Option<string>, input: Option<string>)

  function ItemsOf(e: Event): seq<Item> {
    match e
    case BlockStart(i, ToolUseBlock(id, name, input)) => [Called(i, id, name, input)]
    case BlockStart(_, TextBlock(text)) => if text == "" then [] else [Spoken(text)]
    case BlockStart(_, ThinkingBlock(text)) => if text == "" then [] else [Thought(text)]
    case BlockDelta(_, TextDelta(text)) => [Spoken(text)]
    case BlockDelta(_, ThinkingDelta(text)) => [Thought(text)]
    case _ => []
  }

  function Items(out: seq<Event>): seq<Item> {
    if out == [] then [] else Items(out[..|out| - 1]) + ItemsOf(out[|out| - 1])
  }

  lemma {:induction false} ItemsAppend(a: seq<Event>, b: seq<Event>)
    ensures Items(a + b) == Items(a) + Items(b)
  {
    if b == [] {
      assert a + b == a;
    } else {
      assert (a + b)[..|a + b| - 1] == a + b[..|b| - 1];
      ItemsAppend(a, b[..|b| - 1]);
      ItemsRegroup(Items(a), Items(b[..|b| - 1]), ItemsOf(b[|b| - 1]));
    }
  }

  lemma ItemsRegroup(a: seq<Item>, b: seq<Item>, c: seq<Item>)
    ensures a + (b + c) == a + b + c
  {
  }

  lemma ItemsOfOne(e: Event)
    ensures Items([e]) == ItemsOf(e)
  {
    assert [e][..0] == [] && [] + ItemsOf(e) == ItemsOf(e);
  }

  // ---------------------------------------------------------------------------------------------
  // What it is to be told
  // ---------------------------------------------------------------------------------------------

  /** Finds is a tool use that the heuristic parser detects in the text, Starts a native call that has got a
      name; its id is empty if none was received. */
  datatype Want = Thinks(text: string) | Says(text: string) | Finds(tool: ToolUse) | Starts(id: string, name: string)

  function Found(tools: seq<ToolUse>): seq<Want> {
    if tools == [] then [] else [Finds(tools[0])] + Found(tools[1..])
  }

  /** The parts of the tag parser: thinking is passed on if it is enabled, text goes through the heuristic
      parser. */
  function WantPart<H>(h: H, part: ContentChunk, env: Env<H>): (H, seq<Want>) {
    if part.kind == THINKING then (h, if env.thinking then [Thinks(part.content)] else [])
    else
      var (h1, text, tools) := env.feed(h, part.content);
      (h1, (if text == "" then [] else [Says(text)]) + Found(tools))
  }

  function WantParts<H>(h: H, parts: seq<ContentChunk>, env: Env<H>): (H, seq<Want>)
    decreases parts
  {
    if parts == [] then (h, [])
    else
      var (h1, first) := WantPart(h, parts[0], env);
      var (h2, rest) := WantParts(h1, parts[1..], env);
      (h2, first + rest)
  }

  // Native calls, from the list of the deltas received, each with the index it is for.

  type Log = seq<(int, ToolCallDelta)>

  predicate SaysSomething(tc: ToolCallDelta) {
    (tc.id.Some? && tc.id.value != "") || tc.name.Some? || tc.arguments != ""
  }

  function Mentioned(log: Log): set<int> {
    set r | r in log && SaysSomething(r.1) :: r.0
  }

  /** A negative index stands for a tool not mentioned so far. */
  function ForIndex(log: Log, index: int): int {
    if index < 0 then |Mentioned(log)| else index
  }

  /** Names come whole, growing, or in pieces. */
  function JoinName(before: string, name: string): string {
    if before <= name then name else if name <= before then before else before + name
  }

  function NameSoFar(log: Log, i: int): string {
    if log == [] then ""
    else
      var before, last := NameSoFar(log[..|log| - 1], i), log[|log| - 1];
      if last.0 == i && last.1.name.Some? then JoinName(before, last.1.name.value) else before
  }

  /** The last id that is not empty. */
  function IdSoFar(log: Log, i: int): string {
    if log == [] then ""
    else
      var last := log[|log| - 1];
      if last.0 == i && last.1.id.Some? && last.1.id.value != "" then last.1.id.value else IdSoFar(log[..|log| - 1], i)
  }

  function LogCall(log: Log, tc: ToolCallDelta): Log {
    if tc.index.None? then log else log + [(ForIndex(log, tc.index.value), tc)]
  }

  /** The delta that gives a call its name starts it. */
  function WantCall(log: Log, tc: ToolCallDelta): seq<Want> {
    if tc.index.None? then []
    else
      var i, now := ForIndex(log, tc.index.value), LogCall(log, tc);
      if IsBlank(NameSoFar(log, i)) && !IsBlank(NameSoFar(now, i)) then [Starts(IdSoFar(now, i), Strip(NameSoFar(now, i)))] else []
  }

  function LogCalls(log: Log, tcs: seq<ToolCallDelta>): Log
    decreases tcs
  {
    if tcs == [] then log else LogCalls(LogCall(log, tcs[0]), tcs[1..])
  }

  function WantCalls(log: Log, tcs: seq<ToolCallDelta>): seq<Want>
    decreases tcs
  {
    if tcs == [] then [] else WantCall(log, tcs[0]) + WantCalls(LogCall(log, tcs[0]), tcs[1..])
  }

  /** How far a stream has been read: the two parsers, the calls, and the last reason given for finishing. */
  datatype Reading<H> = Reading(parser: Parser, heuristic: H, log: Log, finish: Option<string>)

  function WantChunk<H>(r: Reading<H>, chunk: UpstreamChunk, env: Env<H>): (Reading<H>, seq<Want>) {
    match chunk
    case NoDelta => (r, [])
    case Delta(reasoning, content, toolCalls, finish) =>
      var (parser, parts) := if content == "" then (r.parser, []) else Feed(r.parser, content);
      var (h, said) := WantParts(r.heuristic, parts, env);
      (Reading(parser, h, LogCalls(r.log, toolCalls), if finish.Some? && finish.value != "" then finish else r.finish),
       (if env.thinking && reasoning != "" then [Thinks(reasoning)] else []) + said + WantCalls(r.log, toolCalls))
  }

  function WantAll<H>(r: Reading<H>, chunks: seq<UpstreamChunk>, env: Env<H>): (Reading<H>, seq<Want>)
    decreases chunks
  {
    if chunks == [] then (r, [])
    else
      var (r1, first) := WantChunk(r, chunks[0], env);
      var (r2, rest) := WantAll(r1, chunks[1..], env);
      (r2, first + rest)
  }

  function Opening<H>(h: H): Reading<H> {
    Reading(Parser("", false), h, [], None)
  }

  // What is said at the end.

  function SaidText(wants: seq<Want>): string {
    if wants == [] then ""
    else SaidText(wants[..|wants| - 1]) + if wants[|wants| - 1].Says? then wants[|wants| - 1].text else ""
  }

  function ThoughtText(wants: seq<Want>): string {
    if wants == [] then ""
    else ThoughtText(wants[..|wants| - 1]) + if wants[|wants| - 1].Thinks? then wants[|wants| - 1].text else ""
  }

  predicate HasSaid(wants: seq<Want>) {
    exists k | 0 <= k < |wants| :: wants[k].Says?
  }

  predicate HasThought(wants: seq<Want>) {
    exists k | 0 <= k < |wants| :: wants[k].Thinks?
  }

  predicate HasStarted(wants: seq<Want>) {
    exists k | 0 <= k < |wants| :: wants[k].Starts?
  }

  function StartsIn(wants: seq<Want>): nat {
    if wants == [] then 0 else StartsIn(wants[..|wants| - 1]) + if wants[|wants| - 1].Starts? then 1 else 0
  }

  /** What the tag parser still holds; it does not go through the heuristic parser. */
  function WantFlush<H>(p: Parser, env: Env<H>): seq<Want> {
    match ThinkTags.Flush(p).1
    case None => []
    case Some(rest) => if rest.kind == TEXT then [Says(rest.content)] else if env.thinking then [Thinks(rest.content)] else []
  }

  /** That, and what the heuristic parser finds in the rest of its own. */
  function WantRest<H>(r: Reading<H>, env: Env<H>): seq<Want> {
    WantFlush(r.parser, env) + Found(env.flush(r.heuristic))
  }

  /** A space, for a message that would have no block, or nothing but thinking to show. */
  function Filler(wants: seq<Want>): seq<Want> {
    if HasStarted(wants) then []
    else if !HasSaid(wants) && !HasThought(wants) then [Says(" ")]
    else if IsBlank(SaidText(wants)) && !IsBlank(ThoughtText(wants)) then [Says(" ")]
    else []
  }

  /** A stream that fails shows the message, as text unless a native call was started. */
  function FailureWants(wants: seq<Want>, message: string): seq<Want> {
    if HasStarted(wants) then [] else [Says(message)]
  }

  // ---------------------------------------------------------------------------------------------
  // The one is the other
  // ---------------------------------------------------------------------------------------------

  /** A native call without an id gets one of its own. */
  predicate ItemIs<H>(item: Item, want: Want, env: Env<H>) {
    match want
    case Thinks(text) => item == Thought(text)
    case Says(text) => item == Spoken(text)
    case Finds(tool) => item.Called? && item == Called(item.number, Some(tool.id), Some(tool.name), Some("{}"))
    case Starts(id, name) =>
      item.Called? && item == Called(item.number, Some(if id == "" then "tool_" + env.uuid(item.number) else id), Some(name), Some("{}"))
  }

  predicate ItemsAre<H>(items: seq<Item>, wants: seq<Want>, env: Env<H>) {
    |items| == |wants| && forall k | 0 <= k < |items| :: ItemIs(items[k], wants[k], env)
  }

  lemma ItemsAreBoth<H>(a: seq<Item>, x: seq<Want>, b: seq<Item>, y: seq<Want>, env: Env<H>)
    requires ItemsAre(a, x, env) && ItemsAre(b, y, env)
    ensures ItemsAre(a + b, x + y, env)
  {
  }

  /** A block that is started, gets the input in one piece, and is stopped at once. */
  predicate WholeAt(out: seq<Event>, p: int, number: int, input: string) {
    && 0 <= p <= |out| - 3 && out[p].BlockStart? && out[p].index == number
    && out[p + 1] == BlockDelta(number, InputJsonDelta(input)) && out[p + 2] == BlockStop(number)
  }

  ghost predicate IsWhole(out: seq<Event>, item: Item, want: Want) {
    want.Finds? ==> item.Called? && exists p :: WholeAt(out, p, item.number, want.tool.input)
  }

  /** The events say these things, and the tool uses that were found in the text are there as a whole. */
  ghost predicate Tells<H>(out: seq<Event>, wants: seq<Want>, env: Env<H>) {
    ItemsAre(Items(out), wants, env) && forall k | 0 <= k < |wants| :: IsWhole(out, Items(out)[k], wants[k])
  }

  lemma StaysWhole(a: seq<Event>, b: seq<Event>, item: Item, want: Want)
    requires IsWhole(a, item, want) || IsWhole(b, item, want)
    ensures IsWhole(a + b, item, want)
  {
    if want.Finds? {
      if p :| WholeAt(a, p, item.number, want.tool.input) {
        assert WholeAt(a + b, p, item.number, want.tool.input);
      } else {
        var p :| WholeAt(b, p, item.number, want.tool.input);
        assert WholeAt(a + b, |a| + p, item.number, want.tool.input);
      }
    }
  }

  lemma WholesBoth(a: seq<Event>, items: seq<Item>, x: seq<Want>, b: seq<Event>, more: seq<Item>, y: seq<Want>, k: int)
    requires |items| == |x| && |more| == |y| && 0 <= k < |x + y|
    requires forall j | 0 <= j < |x| :: IsWhole(a, items[j], x[j])
    requires forall j | 0 <= j < |y| :: IsWhole(b, more[j], y[j])
    ensures IsWhole(a + b, (items + more)[k], (x + y)[k])
  {
    if k < |x| {
      StaysWhole(a, b, items[k], x[k]);
    } else {
      StaysWhole(a, b, more[k - |x|], y[k - |x|]);
    }
  }

  lemma TellsBoth<H>(a: seq<Event>, x: seq<Want>, b: seq<Event>, y: seq<Want>, env: Env<H>)
    requires Tells(a, x, env) && Tells(b, y, env)
    ensures Tells(a + b, x + y, env)
  {
    ItemsAppend(a, b);
    ItemsAreBoth(Items(a), x, Items(b), y, env);
    forall k | 0 <= k < |x + y|
      ensures IsWhole(a + b, Items(a + b)[k], (x + y)[k]) {
      WholesBoth(a, Items(a), x, b, Items(b), y, k);
    }
  }

  /** Events that say nothing. */
  predicate Mute(out: seq<Event>) {
    forall k | 0 <= k < |out| :: ItemsOf(out[k]) == []
  }

  lemma {:induction false} MuteSaysNothing(out: seq<Event>)
    requires Mute(out)
    ensures Items(out) == []
  {
    if out != [] {
      MuteSaysNothing(out[..|out| - 1]);
    }
  }

  lemma MuteTells<H>(out: seq<Event>, env: Env<H>)
    requires Mute(out)
    ensures Tells(out, [], env)
  {
    MuteSaysNothing(out);
  }

  lemma OneItem(before: seq<Event>, e: Event, after: seq<Event>)
    requires Mute(before) && Mute(after)
    ensures Items(before + [e] + after) == ItemsOf(e)
  {
    MuteSaysNothing(before);
    MuteSaysNothing(after);
    ItemsOfOne(e);
    ItemsAppend(before, [e]);
    ItemsAppend(before + [e], after);
    assert [] + ItemsOf(e) + [] == ItemsOf(e);
  }

  /** Silent events, one that says something, and silent ones again. */
  lemma OneTells<H>(before: seq<Event>, e: Event, after: seq<Event>, want: Want, env: Env<H>)
    requires Mute(before) && Mute(after) && |ItemsOf(e)| == 1 && ItemIs(ItemsOf(e)[0], want, env)
    requires IsWhole(before + [e] + after, ItemsOf(e)[0], want)
    ensures Tells(before + [e] + after, [want], env)
  {
    OneItem(before, e, after);
  }
}
