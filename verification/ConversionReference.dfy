/** What each message of a history says, written down without the converter: the blocks before and after
    the first tool call, their text in the three replay modes, and the tool results of the user. */
module ConversionReference {
  import opened Prelude
  import ThinkTags
  import opened Conversion

  // ---------------------------------------------------------------------------------------------
  // What the assistant says
  // ---------------------------------------------------------------------------------------------

  function BeforeCalls(blocks: seq<Block>): seq<Block> {
    if blocks == [] || blocks[0].ToolUse? then [] else [blocks[0]] + BeforeCalls(blocks[1..])
  }

  function NoCalls(blocks: seq<Block>): seq<Block> {
    if blocks == [] then []
    else (if blocks[0].ToolUse? then [] else [blocks[0]]) + NoCalls(blocks[1..])
  }

  function AfterCalls(blocks: seq<Block>): seq<Block> {
    if blocks == [] then []
    else if blocks[0].ToolUse? then NoCalls(blocks[1..])
    else AfterCalls(blocks[1..])
  }

  function MadeCalls(blocks: seq<Block>): seq<ToolCall> {
    if blocks == [] then []
    else
      (match blocks[0]
       case ToolUse(id, name, arguments) => [ToolCall(id, name, arguments)]
       case _ => [])
      + MadeCalls(blocks[1..])
  }

  function Tagged(thinking: string): string {
    "<think>\n" + thinking + "\n</think>"
  }

  /** Texts, and thinking as text where it is replayed in tags. */
  function Written(blocks: seq<Block>, mode: ReplayMode): seq<string> {
    if blocks == [] then []
    else
      (match blocks[0]
       case Text(text) => [text]
       case Thinking(thinking) => if mode == ThinkTagged then [Tagged(thinking)] else []
       case _ => [])
      + Written(blocks[1..], mode)
  }

  function Thinkings(blocks: seq<Block>): seq<string> {
    if blocks == [] then []
    else (if blocks[0].Thinking? then [blocks[0].thinking] else []) + Thinkings(blocks[1..])
  }

  /** The reasoning that goes along where it is replayed as a field: that of the message, or else that of
      the blocks; empty reasoning is none. */
  function Note(blocks: seq<Block>, reasoning: Option<string>, mode: ReplayMode): Option<string> {
    if mode != ReasoningContent then None
    else
      var text := if reasoning.Some? && reasoning.value != "" then reasoning.value else Join(Thinkings(blocks), "\n");
      if text == "" then None else Some(text)
  }

  /** Blocks without a tool call as one message, which is never empty. */
  function Speech(blocks: seq<Block>, reasoning: Option<string>, mode: ReplayMode): Out {
    var text := Join(Written(blocks, mode), "\n\n");
    AssistantMsg(if text == "" then " " else text, [], Note(blocks, reasoning, mode))
  }

  /** All tool calls, with what is said before the first of them; a lone space is nothing. */
  function CallSpeech(blocks: seq<Block>, reasoning: Option<string>, mode: ReplayMode): Out {
    var text := Join(Written(BeforeCalls(blocks), mode), "\n\n");
    AssistantMsg(if text == " " then "" else text, MadeCalls(blocks), Note(BeforeCalls(blocks), reasoning, mode))
  }

  /** What is said after the first tool call, if anything stands there, as a message of its own. */
  function LateSpeech(blocks: seq<Block>, reasoning: Option<string>, mode: ReplayMode): seq<Out> {
    if AfterCalls(blocks) == [] then [] else [Speech(AfterCalls(blocks), reasoning, mode)]
  }

  /** A message that is a string. */
  function Words(m: Message, mode: ReplayMode): Out
    requires !m.content.Blocks?
  {
    var text, reasoned := m.content.text, m.content.Plain? && m.reasoning.Some? && m.reasoning.value != "";
    if m.role == User then UserMsg(text)
    else
      match mode
      case Disabled => AssistantMsg(text, [], None)
      case ReasoningContent => AssistantMsg(text, [], if reasoned then m.reasoning else None)
      case ThinkTagged =>
        AssistantMsg(if !reasoned then text
                     else if text == "" then Tagged(m.reasoning.value)
                     else Tagged(m.reasoning.value) + "\n\n" + text, [], None)
  }

  /** The ids whose results are awaited: those that are not blank. */
  function Awaited(blocks: seq<Block>): set<string> {
    set b | b in blocks && b.ToolUse? && b.id.Some? && !IsBlank(b.id.value) :: b.id.value
  }

  // ---------------------------------------------------------------------------------------------
  // What the user says
  // ---------------------------------------------------------------------------------------------

  function AnsweredIds(blocks: seq<Block>): set<string> {
    set b | b in blocks && b.ToolResult? :: IdText(b.toolUseId)
  }

  /** The texts since the last tool result before block k. */
  function TextsSince(blocks: seq<Block>, k: nat): seq<string>
    requires k <= |blocks|
  {
    if k == 0 || blocks[k - 1].ToolResult? then []
    else TextsSince(blocks, k - 1) + if blocks[k - 1].Text? then [blocks[k - 1].text] else []
  }

  function TextMessage(texts: seq<string>): seq<Out> {
    if texts == [] then [] else [UserMsg(Join(texts, "\n"))]
  }

  /** Block k, if it is a tool result: the texts before it, itself, and what is late if with it all awaited
      ids are answered. */
  function ReplyAt(blocks: seq<Block>, k: nat, awaited: set<string>, late: seq<Out>): seq<Out>
    requires k < |blocks|
  {
    match blocks[k]
    case ToolResult(id, content) =>
      TextMessage(TextsSince(blocks, k)) + [ToolMsg(id, content)]
      + if awaited <= AnsweredIds(blocks[..k + 1]) then late else []
    case _ => []
  }

  function RepliesBefore(blocks: seq<Block>, k: nat, awaited: set<string>, late: seq<Out>): seq<Out>
    requires k <= |blocks|
  {
    if k == 0 then [] else RepliesBefore(blocks, k - 1, awaited, late) + ReplyAt(blocks, k - 1, awaited, late)
  }

  function Replies(blocks: seq<Block>, awaited: set<string>, late: seq<Out>): seq<Out> {
    RepliesBefore(blocks, |blocks|, awaited, late) + TextMessage(TextsSince(blocks, |blocks|))
  }

  // ---------------------------------------------------------------------------------------------
  // The converter says that
  // ---------------------------------------------------------------------------------------------

  lemma TaggedForm(thinking: string)
    ensures ThinkTags.ThinkTagContent(thinking) == Tagged(thinking)
  {
    assert ThinkTags.ThinkTagContent(thinking) == "<think>" + "\n" + thinking + "\n" + "</think>";
    assert "<think>" + "\n" == "<think>\n" && "\n" + "</think>" == "\n</think>";
    assert "<think>\n" + thinking + "\n" + "</think>" == "<think>\n" + thinking + ("\n" + "</think>");
  }

  lemma {:induction false} WrittenLast(front: seq<Block>, last: Block, mode: ReplayMode)
    ensures Written(front + [last], mode) == Written(front, mode) + PartOf(last, mode)
  {
    var all := front + [last];
    if front == [] {
      assert all == [last] && [last][1..] == [] && Written([], mode) == [];
      if last.Thinking? {
        TaggedForm(last.thinking);
      }
    } else {
      assert all[0] == front[0] && all[1..] == front[1..] + [last];
      WrittenLast(front[1..], last, mode);
      var head := Written([front[0]], mode);
      assert [front[0]][1..] == [] && head + [] == head;
      assert head + (Written(front[1..], mode) + PartOf(last, mode)) == head + Written(front[1..], mode) + PartOf(last, mode);
    }
  }

  lemma {:induction false} ThinkingsLast(front: seq<Block>, last: Block)
    ensures Thinkings(front + [last]) == Thinkings(front) + if last.Thinking? then [last.thinking] else []
  {
    var all := front + [last];
    if front == [] {
      assert all == [last] && [last][1..] == [];
    } else {
      assert all[0] == front[0] && all[1..] == front[1..] + [last];
      ThinkingsLast(front[1..], last);
    }
  }

  lemma {:induction false} MadeCallsLast(front: seq<Block>, last: Block)
    ensures MadeCalls(front + [last]) == MadeCalls(front) + if last.ToolUse? then [ToolCall(last.id, last.name, last.arguments)] else []
  {
    var all := front + [last];
    if front == [] {
      assert all == [last] && [last][1..] == [];
    } else {
      assert all[0] == front[0] && all[1..] == front[1..] + [last];
      MadeCallsLast(front[1..], last);
    }
  }

  lemma {:induction false} NoCallsLast(front: seq<Block>, last: Block)
    ensures NoCalls(front + [last]) == NoCalls(front) + if last.ToolUse? then [] else [last]
  {
    var all := front + [last];
    if front == [] {
      assert all == [last] && [last][1..] == [];
    } else {
      assert all[0] == front[0] && all[1..] == front[1..] + [last];
      NoCallsLast(front[1..], last);
    }
  }

  lemma {:induction false} BlocksForm(blocks: seq<Block>, mode: ReplayMode)
    ensures Parts(blocks, mode) == Written(blocks, mode) && Thoughts(blocks) == Thinkings(blocks)
    ensures CallsIn(blocks) == MadeCalls(blocks) && OthersIn(blocks) == NoCalls(blocks)
  {
    if blocks != [] {
      var front, last := blocks[..|blocks| - 1], blocks[|blocks| - 1];
      BlocksForm(front, mode);
      assert blocks == front + [last];
      WrittenLast(front, last, mode);
      ThinkingsLast(front, last);
      MadeCallsLast(front, last);
      NoCallsLast(front, last);
    }
  }

  lemma {:induction false} SplitForm(blocks: seq<Block>)
    ensures blocks[..FirstToolUse(blocks)] == BeforeCalls(blocks)
    ensures NoCalls(blocks[FirstToolUse(blocks)..]) == AfterCalls(blocks)
    ensures HasTools(blocks) <==> MadeCalls(blocks) != []
  {
    if blocks != [] && !blocks[0].ToolUse? {
      var k := FirstToolUse(blocks[1..]);
      SplitForm(blocks[1..]);
      assert blocks[..k + 1] == [blocks[0]] + blocks[1..][..k];
      assert blocks[k + 1..] == blocks[1..][k..];
    }
  }

  predicate NoToolUse(blocks: seq<Block>) {
    forall i | 0 <= i < |blocks| :: !blocks[i].ToolUse?
  }

  lemma {:induction false} NoCallsLeft(blocks: seq<Block>)
    ensures NoToolUse(NoCalls(blocks)) && NoToolUse(BeforeCalls(blocks)) && NoToolUse(AfterCalls(blocks))
  {
    if blocks != [] {
      NoCallsLeft(blocks[1..]);
    }
  }

  lemma {:induction false} NothingMade(blocks: seq<Block>)
    requires NoToolUse(blocks)
    ensures MadeCalls(blocks) == []
  {
    if blocks != [] {
      NothingMade(blocks[1..]);
    }
  }

  lemma SpeechForm(blocks: seq<Block>, reasoning: Option<string>, mode: ReplayMode)
    requires NoToolUse(blocks) && Clean(reasoning) == reasoning
    ensures AssistantMessage(blocks, reasoning, mode) == Speech(blocks, reasoning, mode)
  {
    NothingMade(blocks);
    BlocksForm(blocks, mode);
  }

  lemma CallForm(blocks: seq<Block>, reasoning: Option<string>, mode: ReplayMode)
    requires Clean(reasoning) == reasoning
    ensures CallMessage(blocks, reasoning, mode) == CallSpeech(blocks, reasoning, mode)
  {
    SplitForm(blocks);
    BlocksForm(blocks, mode);
    NoCallsLeft(blocks);
    SpeechForm(BeforeCalls(blocks), reasoning, mode);
  }

  lemma {:induction false} MadeCallsHave(blocks: seq<Block>)
    ensures forall c :: c in MadeCalls(blocks) <==> exists b | b in blocks && b.ToolUse? :: c == ToolCall(b.id, b.name, b.arguments)
  {
    if blocks != [] {
      MadeCallsHave(blocks[1..]);
      assert blocks == [blocks[0]] + blocks[1..];
      forall c | c in MadeCalls(blocks)
        ensures exists b | b in blocks && b.ToolUse? :: c == ToolCall(b.id, b.name, b.arguments) {
        if c in MadeCalls(blocks[1..]) {
          var b :| b in blocks[1..] && b.ToolUse? && c == ToolCall(b.id, b.name, b.arguments);
          assert b in blocks;
        } else {
          assert blocks[0] in blocks;
        }
      }
    }
  }

  lemma AwaitedForm(blocks: seq<Block>)
    ensures AwaitedIds(MadeCalls(blocks)) == Awaited(blocks)
  {
    MadeCallsHave(blocks);
    forall id
      ensures id in AwaitedIds(MadeCalls(blocks)) <==> id in Awaited(blocks) {
      StripOfBlank(id);
      if id in AwaitedIds(MadeCalls(blocks)) {
        var c :| c in MadeCalls(blocks) && c.id == Some(id);
        var b :| b in blocks && b.ToolUse? && c == ToolCall(b.id, b.name, b.arguments);
      }
      if id in Awaited(blocks) {
        var b :| b in blocks && b.ToolUse? && b.id == Some(id);
        assert ToolCall(b.id, b.name, b.arguments) in MadeCalls(blocks);
      }
    }
  }

  lemma PendingForm(blocks: seq<Block>, reasoning: Option<string>)
    ensures PendingOf(blocks, reasoning) ==
            if AfterCalls(blocks) == [] then None else Some(Pending(Awaited(blocks), AfterCalls(blocks), reasoning))
  {
    SplitForm(blocks);
    BlocksForm(blocks, Disabled);
    BlocksForm(blocks[FirstToolUse(blocks)..], Disabled);
    AwaitedForm(blocks);
  }

  /** What is put out for what is pending is what was said after the calls. */
  lemma LateForm(blocks: seq<Block>, reasoning: Option<string>, mode: ReplayMode)
    requires Clean(reasoning) == reasoning
    ensures Deferred(PendingOf(blocks, reasoning), mode) == LateSpeech(blocks, reasoning, mode)
  {
    PendingForm(blocks, reasoning);
    NoCallsLeft(blocks);
    SpeechForm(AfterCalls(blocks), reasoning, mode);
  }

  lemma JoinTwo(a: string, b: string, sep: string)
    ensures Join([a], sep) == a && Join([a] + [], sep) == a && Join([a] + [b], sep) == a + sep + b
  {
    assert [a] + [] == [a] && ([a] + [b])[1..] == [b];
  }

  lemma WordsForm(m: Message, mode: ReplayMode)
    requires !m.content.Blocks?
    ensures PlainMessage(m, mode) == Words(m, mode)
  {
    if m.reasoning.Some? {
      TaggedForm(m.reasoning.value);
      JoinTwo(Tagged(m.reasoning.value), m.content.text, "\n\n");
    }
  }

  lemma AnsweredSnoc(blocks: seq<Block>, b: Block)
    ensures AnsweredIds(blocks + [b]) == AnsweredIds(blocks) + if b.ToolResult? then {IdText(b.toolUseId)} else {}
  {
    forall id | id in AnsweredIds(blocks)
      ensures id in AnsweredIds(blocks + [b]) {
      var c :| c in blocks && c.ToolResult? && IdText(c.toolUseId) == id;
      assert c in blocks + [b];
    }
    if b.ToolResult? {
      assert b in blocks + [b];
    }
  }

  lemma {:induction false} RemainingMeaning(blocks: seq<Block>, remaining: set<string>, deferred: seq<Out>)
    ensures TakeBlocks(Turn([], [], remaining, 0), blocks, deferred).remaining == remaining - AnsweredIds(blocks)
  {
    if blocks == [] {
      assert AnsweredIds([]) == {};
    } else {
      var front, b := blocks[..|blocks| - 1], blocks[|blocks| - 1];
      RemainingMeaning(front, remaining, deferred);
      AnsweredSnoc(front, b);
      assert blocks == front + [b];
    }
  }

  lemma NothingLeft(all: set<string>, some: set<string>)
    ensures all - some == {} <==> all <= some
  {
    if all - some == {} {
      forall id | id in all
        ensures id in some {
        assert id !in all - some;
      }
    }
  }

  lemma {:induction false} TurnForm(blocks: seq<Block>, k: nat, awaited: set<string>, late: seq<Out>)
    requires k <= |blocks|
    ensures var t := TakeBlocks(Turn([], [], awaited, 0), blocks[..k], late);
            t.out == RepliesBefore(blocks, k, awaited, late) && t.texts == TextsSince(blocks, k)
  {
    if k > 0 {
      var b := blocks[k - 1];
      var t := TakeBlocks(Turn([], [], awaited, 0), blocks[..k - 1], late);
      TurnForm(blocks, k - 1, awaited, late);
      assert blocks[..k][..k - 1] == blocks[..k - 1];
      if b.ToolResult? {
        RemainingMeaning(blocks[..k], awaited, late);
        NothingLeft(awaited, AnsweredIds(blocks[..k]));
        ReplyForm(t, b, awaited, late, blocks, k - 1);
      } else {
        OtherForm(t, b, late);
      }
    }
  }

  lemma OtherForm(t: Turn, b: Block, late: seq<Out>)
    requires !b.ToolResult?
    ensures TakeBlock(t, b, late).out == t.out + [] && TakeBlock(t, b, late).texts == t.texts + if b.Text? then [b.text] else []
  {
  }

  lemma ReplyForm(t: Turn, b: Block, awaited: set<string>, late: seq<Out>, blocks: seq<Block>, k: nat)
    requires k < |blocks| && b == blocks[k] && b.ToolResult? && t.texts == TextsSince(blocks, k)
    requires TakeBlock(t, b, late).remaining == {} <==> awaited <= AnsweredIds(blocks[..k + 1])
    ensures TakeBlock(t, b, late).out == t.out + ReplyAt(blocks, k, awaited, late) && TakeBlock(t, b, late).texts == []
  {
    var text, tool := TextMessage(t.texts), [ToolMsg(b.toolUseId, b.content)];
    var more := if awaited <= AnsweredIds(blocks[..k + 1]) then late else [];
    assert t.out + [] == t.out;
    assert Conversion.Flush(t).out == t.out + text;
    FourParts(t.out, text, tool, more);
  }

  lemma FourParts(a: seq<Out>, b: seq<Out>, c: seq<Out>, d: seq<Out>)
    ensures a + b + c + d == a + (b + c + d)
  {
  }

  /** A user message comes out as its replies. */
  lemma RepliesForm(blocks: seq<Block>, awaited: set<string>, late: seq<Out>)
    ensures UserTurn(blocks, awaited, late).out == Replies(blocks, awaited, late)
  {
    TurnForm(blocks, |blocks|, awaited, late);
    assert blocks[..|blocks|] == blocks;
    assert RepliesBefore(blocks, |blocks|, awaited, late) + [] == RepliesBefore(blocks, |blocks|, awaited, late);
  }
}
