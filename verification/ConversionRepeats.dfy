/** Which histories have text after a tool call replayed more than once. */
module ConversionRepeats {
  import opened Prelude
  import opened Conversion
  import opened ConversionReference
  import opened ConversionOrder
  import opened ConversionHistory

  /** Between a call and its answers: these messages leave the deferred text waiting. */
  predicate Carries(m: Message) {
    if m.role == User then m.content.Blocks? else !m.content.Blocks?
  }

  /** The blocks the user sends. */
  function Sent(messages: seq<Message>): seq<Block> {
    if messages == [] then []
    else (if messages[0].role == User && messages[0].content.Blocks? then messages[0].content.blocks else []) + Sent(messages[1..])
  }

  /** Nothing but such messages comes before message k, which goes on with tool results after the one
      that answers the last of the awaited ids. */
  ghost predicate Overruns(awaited: set<string>, messages: seq<Message>, k: int) {
    && 0 <= k < |messages| && messages[k].role == User && messages[k].content.Blocks?
    && (forall i | 0 <= i < k :: Carries(messages[i]))
    && var open := awaited - AnsweredIds(Sent(messages[..k]));
       open != {} && Twice(open, messages[k].content.blocks)
  }

  /** Message j makes tool calls with text after them, and the answers overrun in message k. */
  ghost predicate RepeatedAt(messages: seq<Message>, j: int, k: int) {
    0 <= j < |messages| && Left(messages[j]).Some? && Overruns(Left(messages[j]).value.remaining, messages[j + 1..], k)
  }

  lemma AnsweredAppend(a: seq<Block>, b: seq<Block>)
    ensures AnsweredIds(a + b) == AnsweredIds(a) + AnsweredIds(b)
  {
    forall id
      ensures id in AnsweredIds(a + b) <==> id in AnsweredIds(a) || id in AnsweredIds(b) {
      if x :| x in a && x.ToolResult? && IdText(x.toolUseId) == id {
        assert x in a + b;
      }
      if x :| x in b && x.ToolResult? && IdText(x.toolUseId) == id {
        assert x in a + b;
      }
    }
  }

  lemma SentNext(messages: seq<Message>, k: nat)
    requires k < |messages|
    ensures Sent(messages[..k + 1]) == Sent(messages[..1]) + Sent(messages[1..][..k])
  {
    assert messages[..k + 1][1..] == messages[1..][..k];
    assert messages[..1][1..] == [];
    assert Sent(messages[..1][1..]) == [];
  }

  lemma OpenNext(awaited: set<string>, messages: seq<Message>, k: nat)
    requires k < |messages|
    ensures awaited - AnsweredIds(Sent(messages[..k + 1]))
         == (awaited - AnsweredIds(Sent(messages[..1]))) - AnsweredIds(Sent(messages[1..][..k]))
  {
    SentNext(messages, k);
    AnsweredAppend(Sent(messages[..1]), Sent(messages[1..][..k]));
  }

  /** Overruns, seen from the second message on. */
  lemma OverrunsNext(awaited: set<string>, messages: seq<Message>, k: nat)
    requires messages != []
    ensures Overruns(awaited, messages, k + 1) <==>
              Carries(messages[0]) && Overruns(awaited - AnsweredIds(Sent(messages[..1])), messages[1..], k)
  {
    if k + 1 < |messages| {
      OpenNext(awaited, messages, k);
      assert messages[1..][k] == messages[k + 1];
      assert (forall i | 0 <= i < k + 1 :: Carries(messages[i]))
        <==> Carries(messages[0]) && forall i | 0 <= i < k :: Carries(messages[1..][i]) by {
        assert forall i | 0 <= i < k :: messages[1..][i] == messages[i + 1];
        assert forall i | 1 <= i < k + 1 :: messages[i] == messages[1..][i - 1];
      }
    }
  }

  ghost predicate OverrunsSomewhere(awaited: set<string>, messages: seq<Message>) {
    exists k :: Overruns(awaited, messages, k)
  }

  ghost predicate RepeatedSomewhere(messages: seq<Message>) {
    exists j, k :: RepeatedAt(messages, j, k)
  }

  lemma OverrunsHead(awaited: set<string>, messages: seq<Message>)
    requires messages != []
    ensures OverrunsSomewhere(awaited, messages) <==>
              || Overruns(awaited, messages, 0)
              || (Carries(messages[0]) && OverrunsSomewhere(awaited - AnsweredIds(Sent(messages[..1])), messages[1..]))
  {
    if k :| Overruns(awaited, messages, k) && k > 0 {
      OverrunsNext(awaited, messages, k - 1);
    }
    var open := awaited - AnsweredIds(Sent(messages[..1]));
    if Carries(messages[0]) && OverrunsSomewhere(open, messages[1..]) {
      var k :| Overruns(open, messages[1..], k);
      OverrunsNext(awaited, messages, k);
    }
  }

  lemma RepeatedHead(messages: seq<Message>)
    requires messages != []
    ensures RepeatedSomewhere(messages) <==>
              || (Left(messages[0]).Some? && OverrunsSomewhere(Left(messages[0]).value.remaining, messages[1..]))
              || RepeatedSomewhere(messages[1..])
  {
    var rest := messages[1..];
    if j, k :| RepeatedAt(messages, j, k) && j > 0 {
      assert messages[j + 1..] == rest[j..];
      assert RepeatedAt(rest, j - 1, k);
    }
    if j, k :| RepeatedAt(rest, j, k) {
      assert messages[j + 2..] == rest[j + 1..];
      assert RepeatedAt(messages, j + 1, k);
    }
    if Left(messages[0]).Some? && OverrunsSomewhere(Left(messages[0]).value.remaining, rest) {
      var k :| Overruns(Left(messages[0]).value.remaining, rest, k);
      assert RepeatedAt(messages, 0, k);
    }
  }

  /** Deferred text is waiting, and the answers overrun. */
  ghost predicate WaitingOverruns(p: Option<Pending>, messages: seq<Message>) {
    p.Some? && OverrunsSomewhere(p.value.remaining, messages)
  }

  lemma OverrunsNow(awaited: set<string>, messages: seq<Message>)
    requires messages != []
    ensures Overruns(awaited, messages, 0) <==>
              messages[0].role == User && messages[0].content.Blocks? && awaited != {} && Twice(awaited, messages[0].content.blocks)
  {
    assert AnsweredIds(Sent(messages[..0])) == {};
    assert awaited - {} == awaited;
  }

  lemma {:induction false} NothingOpen(messages: seq<Message>)
    ensures !OverrunsSomewhere({}, messages)
  {
    forall k
      ensures !Overruns({}, messages, k) {
      if 0 <= k < |messages| {
        assert {} - AnsweredIds(Sent(messages[..k])) == {};
      }
    }
  }

  lemma SentOne(m: Message, messages: seq<Message>)
    requires messages != [] && messages[0] == m
    ensures Sent(messages[..1]) == if m.role == User && m.content.Blocks? then m.content.blocks else []
  {
    assert messages[..1][1..] == [];
    assert Sent(messages[..1][1..]) == [];
  }

  lemma AnswerLeavesOpen(p: Option<Pending>, m: Message, mode: ReplayMode)
    requires Injects(p, m) && Step(p, m, mode).Ok?
    ensures var q := Step(p, m, mode).value.0;
            var open := p.value.remaining - AnsweredIds(m.content.blocks);
            if q.None? then open == {} else q.value.remaining == open && q.value.deferred == p.value.deferred
  {
    var blocks, awaited := m.content.blocks, p.value.remaining;
    EmittedMeaning(blocks, awaited, Deferred(p, mode));
    RemainingMeaning(blocks, awaited, Deferred(p, mode));
    if i :| Completes(awaited, blocks, i) {
      assert blocks == blocks[..i + 1] + blocks[i + 1..];
      AnsweredAppend(blocks[..i + 1], blocks[i + 1..]);
      NothingLeft(awaited, AnsweredIds(blocks));
    }
  }

  /** What one message does to the waiting text. */
  lemma OneMessage(p: Option<Pending>, messages: seq<Message>, mode: ReplayMode)
    requires messages != [] && Step(p, messages[0], mode).Ok? && (p.Some? ==> p.value.deferred != [])
    ensures var q := Step(p, messages[0], mode).value.0;
            && (q.Some? ==> q.value.deferred != [])
            && (Repeats(p, messages[0], mode) != [] || WaitingOverruns(q, messages[1..])
                <==> WaitingOverruns(p, messages)
                     || (Left(messages[0]).Some? && OverrunsSomewhere(Left(messages[0]).value.remaining, messages[1..])))
  {
    var m, rest := messages[0], messages[1..];
    SentOne(m, messages);
    if p.Some? {
      OverrunsHead(p.value.remaining, messages);
      OverrunsNow(p.value.remaining, messages);
      NothingOpen(rest);
    }
    if Injects(p, m) {
      RepeatsIffResultsGoOn(p, m, mode);
      AnswerLeavesOpen(p, m, mode);
    } else {
      StepLeaves(p, m, mode);
      if KeepsPending(m) && p.Some? {
        assert AnsweredIds([]) == {} && p.value.remaining - {} == p.value.remaining;
      }
      if p.Some? && m.role == User && m.content.Blocks? {
        assert p.value.remaining - AnsweredIds(m.content.blocks) == {};
      }
    }
  }

  lemma {:induction false} RepeatsFrom(p: Option<Pending>, messages: seq<Message>, mode: ReplayMode)
    requires ConvertFrom(p, messages, mode).Ok? && (p.Some? ==> p.value.deferred != [])
    ensures AllRepeats(p, messages, mode) != [] <==> WaitingOverruns(p, messages) || RepeatedSomewhere(messages)
    decreases messages
  {
    if messages != [] {
      var q := Step(p, messages[0], mode).value.0;
      OneMessage(p, messages, mode);
      RepeatedHead(messages);
      RepeatsFrom(q, messages[1..], mode);
    }
  }

  /** For every history that is converted: some text is replayed more than once if and only if the
      answers to some call with text after it overrun, that is, the message that answers the last of
      its awaited ids goes on with another tool result. */
  lemma TextIsRepeatedIff(messages: seq<Message>, mode: ReplayMode)
    requires Convert(messages, mode).Ok?
    ensures AllRepeats(None, messages, mode) != [] <==> exists j, k :: RepeatedAt(messages, j, k)
  {
    RepeatsFrom(None, messages, mode);
  }

  // A history of that kind, and its transcript with the text twice.

  const CALL := ToolUse(Some("a"), "f", "{}")
  const AFTER := Text("after")
  const ASKED := Message(Assistant, Blocks([CALL, AFTER]), None)
  const ANSWERED := Message(User, Blocks([ToolResult(Some("a"), "1"), ToolResult(Some("b"), "2")]), None)

  lemma OneMoreBlock(front: seq<Block>, b: Block)
    ensures FirstError(front + [b]) == if FirstError(front).Some? then FirstError(front) else ErrorOf(b)
    ensures CallsIn(front + [b]) == CallsIn(front) + if b.ToolUse? then [ToolCall(b.id, b.name, b.arguments)] else []
    ensures OthersIn(front + [b]) == OthersIn(front) + if b.ToolUse? then [] else [b]
    ensures Parts(front + [b], Disabled) == Parts(front, Disabled) + PartOf(b, Disabled)
  {
    assert (front + [b])[..|front|] == front;
  }

  lemma AskedForm()
    ensures FirstError([CALL, AFTER]) == None && HasTools([CALL, AFTER]) && FirstToolUse([CALL, AFTER]) == 0
    ensures CallsIn([CALL, AFTER]) == [ToolCall(Some("a"), "f", "{}")] && OthersIn([CALL, AFTER]) == [AFTER]
  {
    OneMoreBlock([], CALL);
    assert [] + [CALL] == [CALL] && [CALL] + [AFTER] == [CALL, AFTER];
    OneMoreBlock([CALL], AFTER);
  }

  lemma AfterForm()
    ensures AssistantMessage([AFTER], None, Disabled) == AssistantMsg("after", [], None)
  {
    OneMoreBlock([], AFTER);
    assert [] + [AFTER] == [AFTER];
  }

  lemma AIsNotBlank()
    ensures Strip("a") != ""
  {
    StripOfBlank("a");
    assert "a"[0] == 'a';
  }

  lemma OneAwaited(call: ToolCall, id: string)
    requires call.id == Some(id) && Strip(id) != ""
    ensures AwaitedIds([call]) == {id}
  {
    assert call in [call];
  }

  lemma AskedStep()
    ensures Step(None, ASKED, Disabled)
         == Ok((Some(Pending({"a"}, [AFTER], None)), [AssistantMsg("", [ToolCall(Some("a"), "f", "{}")], None)]))
  {
    var blocks := [CALL, AFTER];
    AskedForm();
    AIsNotBlank();
    OneAwaited(ToolCall(Some("a"), "f", "{}"), "a");
    assert blocks[0..] == blocks && blocks[..0] == [];
    assert PendingOf(blocks, None) == Some(Pending({"a"}, [AFTER], None));
    assert CallMessage(blocks, None, Disabled) == AssistantMsg("", [ToolCall(Some("a"), "f", "{}")], None);
    assert [] + [CallMessage(blocks, None, Disabled)] == [CallMessage(blocks, None, Disabled)];
  }

  lemma OneMoreTaken(t: Turn, front: seq<Block>, b: Block, deferred: seq<Out>)
    ensures TakeBlocks(t, front + [b], deferred) == TakeBlock(TakeBlocks(t, front, deferred), b, deferred)
  {
    assert (front + [b])[..|front|] == front;
  }

  /** A tool result with which nothing is awaited any more. */
  lemma LastAnswer(t: Turn, id: string, content: string, deferred: seq<Out>)
    requires t.texts == [] && t.remaining - {id} == {}
    ensures TakeBlock(t, ToolResult(Some(id), content), deferred)
         == Turn(t.out + [ToolMsg(Some(id), content)] + deferred, [], {}, t.emitted + 1)
  {
  }

  lemma TwoAnswers(a: string, b: string, deferred: seq<Out>)
    ensures UserTurn([ToolResult(Some(a), "1"), ToolResult(Some(b), "2")], {a}, deferred)
         == Turn([ToolMsg(Some(a), "1")] + deferred + [ToolMsg(Some(b), "2")] + deferred, [], {}, 2)
  {
    var one, two := ToolResult(Some(a), "1"), ToolResult(Some(b), "2");
    var t0 := Turn([], [], {a}, 0);
    OneMoreTaken(t0, [], one, deferred);
    OneMoreTaken(t0, [one], two, deferred);
    assert [] + [one] == [one] && [one] + [two] == [one, two];
    assert [] + [ToolMsg(Some(a), "1")] == [ToolMsg(Some(a), "1")];
    LastAnswer(t0, a, "1", deferred);
    LastAnswer(Turn([ToolMsg(Some(a), "1")] + deferred, [], {}, 1), b, "2", deferred);
  }

  lemma AnsweredStep()
    ensures var after := AssistantMsg("after", [], None);
            Step(Some(Pending({"a"}, [AFTER], None)), ANSWERED, Disabled)
            == Ok((None, [ToolMsg(Some("a"), "1"), after, ToolMsg(Some("b"), "2"), after]))
  {
    var after := AssistantMsg("after", [], None);
    AfterForm();
    TwoAnswers("a", "b", [after]);
    assert [ToolMsg(Some("a"), "1")] + [after] + [ToolMsg(Some("b"), "2")] + [after]
        == [ToolMsg(Some("a"), "1"), after, ToolMsg(Some("b"), "2"), after];
  }

  lemma LastMessage(p: Option<Pending>, m: Message, mode: ReplayMode)
    requires Step(p, m, mode).Ok? && Step(p, m, mode).value.0 == None
    ensures ConvertFrom(p, [m], mode) == Ok(Step(p, m, mode).value.1)
  {
    var out := Step(p, m, mode).value.1;
    assert [m][1..] == [] && out + [] == out;
  }

  lemma TwoMessages(one: Message, two: Message, mode: ReplayMode, p: Option<Pending>, out1: seq<Out>, out2: seq<Out>)
    requires Step(None, one, mode) == Ok((p, out1)) && Step(p, two, mode) == Ok((None, out2))
    ensures Convert([one, two], mode) == Ok(out1 + out2)
  {
    LastMessage(p, two, mode);
    assert [one, two][1..] == [two];
  }

  lemma OverrunTranscript()
    ensures var after := AssistantMsg("after", [], None);
            Convert([ASKED, ANSWERED], Disabled)
            == Ok([AssistantMsg("", [ToolCall(Some("a"), "f", "{}")], None), ToolMsg(Some("a"), "1"), after,
                   ToolMsg(Some("b"), "2"), after])
  {
    var call, after := AssistantMsg("", [ToolCall(Some("a"), "f", "{}")], None), AssistantMsg("after", [], None);
    var second := [ToolMsg(Some("a"), "1"), after, ToolMsg(Some("b"), "2"), after];
    AskedStep();
    AnsweredStep();
    TwoMessages(ASKED, ANSWERED, Disabled, Some(Pending({"a"}, [AFTER], None)), [call], second);
    assert [call] + second == [call, ToolMsg(Some("a"), "1"), after, ToolMsg(Some("b"), "2"), after];
  }
}
