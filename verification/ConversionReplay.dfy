/** Tool calls in the transcript: all of them in order for every history, and each directly followed by
    its answers and then its deferred text for histories in good order. */
module ConversionReplay {
  import opened Prelude
  import opened Conversion
  import opened ConversionReference
  import opened ConversionOrder
  import opened ConversionHistory

  // ---------------------------------------------------------------------------------------------
  // The order of calls
  // ---------------------------------------------------------------------------------------------

  function CallsOf(m: Out): seq<ToolCall> {
    if m.AssistantMsg? then m.calls else []
  }

  function AllCalls(out: seq<Out>): seq<ToolCall> {
    if out == [] then [] else AllCalls(out[..|out| - 1]) + CallsOf(out[|out| - 1])
  }

  function CallsMade(m: Message): seq<ToolCall> {
    if m.role == Assistant && m.content.Blocks? then MadeCalls(m.content.blocks) else []
  }

  function AllCallsMade(messages: seq<Message>): seq<ToolCall>
    decreases messages
  {
    if messages == [] then [] else CallsMade(messages[0]) + AllCallsMade(messages[1..])
  }

  lemma {:induction false} CallsAppend(a: seq<Out>, b: seq<Out>)
    ensures AllCalls(a + b) == AllCalls(a) + AllCalls(b)
  {
    if b == [] {
      assert a + b == a;
    } else {
      assert (a + b)[..|a + b| - 1] == a + b[..|b| - 1];
      CallsAppend(a, b[..|b| - 1]);
      CallsRegroup(AllCalls(a), AllCalls(b[..|b| - 1]), CallsOf(b[|b| - 1]));
    }
  }

  lemma CallsRegroup(a: seq<ToolCall>, b: seq<ToolCall>, c: seq<ToolCall>)
    ensures a + (b + c) == a + b + c
  {
  }

  lemma CallsOfOne(m: Out)
    ensures AllCalls([m]) == CallsOf(m)
  {
    assert [m][..0] == [] && [] + CallsOf(m) == CallsOf(m);
  }

  lemma {:induction false} CallsAreOnTheAssistantSide(out: seq<Out>)
    ensures AllCalls(AssistantSide(out)) == AllCalls(out)
  {
    if out != [] {
      var front, last := out[..|out| - 1], out[|out| - 1];
      CallsAreOnTheAssistantSide(front);
      if last.AssistantMsg? {
        CallsAppend(AssistantSide(front), [last]);
        CallsOfOne(last);
      } else {
        assert AssistantSide(front) + [] == AssistantSide(front) && AllCalls(front) + [] == AllCalls(front);
      }
    }
  }

  lemma {:induction false} NoCallsBefore(blocks: seq<Block>)
    requires forall i | 0 <= i < |blocks| :: !blocks[i].ToolUse?
    ensures CallsIn(blocks) == []
  {
    if blocks != [] {
      NoCallsBefore(blocks[..|blocks| - 1]);
    }
  }

  lemma {:induction false} NoCallsDeferred(blocks: seq<Block>)
    ensures forall i | 0 <= i < |OthersIn(blocks)| :: !OthersIn(blocks)[i].ToolUse?
  {
    if blocks != [] {
      NoCallsDeferred(blocks[..|blocks| - 1]);
    }
  }

  /** Deferred text holds no tool use. */
  ghost predicate TextOnly(p: Option<Pending>) {
    p.Some? ==> forall i | 0 <= i < |p.value.deferred| :: !p.value.deferred[i].ToolUse?
  }

  lemma DeferredMakesNoCalls(p: Option<Pending>, mode: ReplayMode)
    requires TextOnly(p)
    ensures AllCalls(Deferred(p, mode)) == []
  {
    if Deferred(p, mode) != [] {
      NoCallsBefore(p.value.deferred);
      CallsOfOne(Deferred(p, mode)[0]);
    }
  }

  lemma {:induction false} RepeatsMakeNoCalls(s: seq<Out>, count: nat)
    requires AllCalls(s) == []
    ensures AllCalls(Repeat(s, count)) == []
  {
    if count > 0 {
      RepeatsMakeNoCalls(s, count - 1);
      CallsAppend(Repeat(s, count - 1), s);
    }
  }

  lemma OwnCalls(m: Message, mode: ReplayMode)
    ensures AllCalls(Own(m, mode)) == CallsMade(m)
  {
    if m.content.Blocks? && m.role == User {
      RepliesForm(m.content.blocks, {}, []);
      UserMessageSides(m.content.blocks);
      CallsAreOnTheAssistantSide(Own(m, mode));
    } else {
      OwnIsOne(m, mode);
      CallsOfOne(Own(m, mode)[0]);
    }
  }

  lemma StepCalls(p: Option<Pending>, m: Message, mode: ReplayMode)
    requires TextOnly(p) && Step(p, m, mode).Ok?
    ensures AllCalls(Step(p, m, mode).value.1) == CallsMade(m)
  {
    StepForm(p, m, mode);
    OwnCalls(m, mode);
    DeferredMakesNoCalls(p, mode);
    CallsAppend(Deferred(p, mode), Own(m, mode));
    assert [] + CallsMade(m) == CallsMade(m);
    if Injects(p, m) {
      var t := UserTurn(m.content.blocks, p.value.remaining, Deferred(p, mode));
      DeferredSides(p, mode);
      UserTurnSides(m.content.blocks, p.value.remaining, Deferred(p, mode));
      RepeatsMakeNoCalls(Deferred(p, mode), t.emitted);
      CallsAreOnTheAssistantSide(t.out);
    }
  }

  lemma StepStaysText(p: Option<Pending>, m: Message, mode: ReplayMode)
    requires TextOnly(p) && Step(p, m, mode).Ok?
    ensures TextOnly(Step(p, m, mode).value.0)
  {
    if m.content.Blocks? && m.role == Assistant {
      NoCallsDeferred(m.content.blocks[FirstToolUse(m.content.blocks)..]);
    }
  }

  /** For every history that is converted, the transcript makes the same tool calls in the same order. */
  lemma {:induction false} CallsAreKept(p: Option<Pending>, messages: seq<Message>, mode: ReplayMode)
    requires TextOnly(p) && ConvertFrom(p, messages, mode).Ok?
    ensures AllCalls(ConvertFrom(p, messages, mode).value) == AllCallsMade(messages)
    decreases messages
  {
    if messages == [] {
      DeferredMakesNoCalls(p, mode);
    } else {
      var (q, out) := Step(p, messages[0], mode).value;
      StepCalls(p, messages[0], mode);
      StepStaysText(p, messages[0], mode);
      CallsAreKept(q, messages[1..], mode);
      CallsAppend(out, ConvertFrom(q, messages[1..], mode).value);
    }
  }

  // ---------------------------------------------------------------------------------------------
  // Histories in good order
  // ---------------------------------------------------------------------------------------------

  function CallIds(calls: seq<ToolCall>): seq<Option<string>> {
    if calls == [] then [] else CallIds(calls[..|calls| - 1]) + [calls[|calls| - 1].id]
  }

  predicate Named(ids: seq<Option<string>>) {
    Distinct(ids) && forall i | 0 <= i < |ids| :: ids[i].Some? && Strip(ids[i].value) != ""
  }

  function ResultIds(results: seq<Block>): seq<Option<string>>
    requires forall i | 0 <= i < |results| :: results[i].ToolResult?
  {
    if results == [] then [] else ResultIds(results[..|results| - 1]) + [results[|results| - 1].toolUseId]
  }

  predicate AllResults(blocks: seq<Block>) {
    forall i | 0 <= i < |blocks| :: blocks[i].ToolResult?
  }

  predicate NoResults(blocks: seq<Block>) {
    forall i | 0 <= i < |blocks| :: !blocks[i].ToolResult?
  }

  /** The user answers every call exactly once, results first. */
  predicate Answers(calls: seq<ToolCall>, blocks: seq<Block>) {
    && Named(CallIds(calls)) && |calls| <= |blocks|
    && AllResults(blocks[..|calls|]) && NoResults(blocks[|calls|..])
    && multiset(ResultIds(blocks[..|calls|])) == multiset(CallIds(calls))
  }

  predicate MakesCalls(m: Message) {
    m.role == Assistant && m.content.Blocks? && MadeCalls(m.content.blocks) != []
  }

  predicate MakesNoResults(m: Message) {
    m.role == User && m.content.Blocks? ==> NoResults(m.content.blocks)
  }

  /** Calls are answered by the very next message, and results stand nowhere else. */
  predicate InGoodOrder(messages: seq<Message>)
    decreases |messages|
  {
    if messages == [] then true
    else if Unsupported(messages[0]) then false
    else if MakesCalls(messages[0]) then
      && |messages| > 1 && !Unsupported(messages[1]) && messages[1].role == User && messages[1].content.Blocks?
      && Answers(MadeCalls(messages[0].content.blocks), messages[1].content.blocks)
      && InGoodOrder(messages[2..])
    else MakesNoResults(messages[0]) && InGoodOrder(messages[1..])
  }

  /** A call message, its results, its deferred text, and what the user says on top. */
  function Exchange(call: Message, answer: Message, mode: ReplayMode): seq<Out>
    requires MakesCalls(call) && answer.content.Blocks?
    requires |MadeCalls(call.content.blocks)| <= |answer.content.blocks|
  {
    var blocks, n := answer.content.blocks, |MadeCalls(call.content.blocks)|;
    [CallSpeech(call.content.blocks, call.reasoning, mode)] + ResultsIn(blocks[..n])
    + LateSpeech(call.content.blocks, call.reasoning, mode) + TextMessage(TextsIn(blocks[n..]))
  }

  /** What such a history is to become. */
  function Reference(messages: seq<Message>, mode: ReplayMode): seq<Out>
    requires InGoodOrder(messages)
    decreases |messages|
  {
    if messages == [] then []
    else if MakesCalls(messages[0]) then Exchange(messages[0], messages[1], mode) + Reference(messages[2..], mode)
    else Own(messages[0], mode) + Reference(messages[1..], mode)
  }

  lemma {:induction false} CallIdsHave(calls: seq<ToolCall>)
    ensures |CallIds(calls)| == |calls|
    ensures forall id :: id in CallIds(calls) <==> exists c | c in calls :: c.id == id
  {
    if calls != [] {
      var front, last := calls[..|calls| - 1], calls[|calls| - 1];
      CallIdsHave(front);
      assert calls == front + [last];
      forall id | id in CallIds(calls)
        ensures exists c | c in calls :: c.id == id {
        if id == last.id {
          assert last in calls;
        } else {
          assert id in CallIds(front);
          var c :| c in front && c.id == id;
          assert c in calls;
        }
      }
      forall c | c in calls
        ensures c.id in CallIds(calls) {
        assert c in front || c == last;
      }
    }
  }

  lemma AwaitedAreCallIds(calls: seq<ToolCall>)
    requires Named(CallIds(calls))
    ensures forall id :: id in AwaitedIds(calls) <==> Some(id) in CallIds(calls)
  {
    CallIdsHave(calls);
    forall id | Some(id) in CallIds(calls)
      ensures id in AwaitedIds(calls) {
      var c :| c in calls && c.id == Some(id);
      var i :| 0 <= i < |CallIds(calls)| && CallIds(calls)[i] == Some(id);
      assert CallIds(calls)[i].Some? && Strip(CallIds(calls)[i].value) != "";
    }
  }

  /** What is still awaited is what the results from the k-th on answer. */
  ghost predicate Awaits(remaining: set<string>, ids: seq<Option<string>>, k: nat) {
    k <= |ids| && forall id :: id in remaining <==> Some(id) in ids[k..]
  }

  /** While results come in: they are put out, and the rest of the ids is awaited. */
  ghost predicate Waiting(t: Turn, ids: seq<Option<string>>, k: nat, results: seq<Out>) {
    t.out == results && t.texts == [] && t.emitted == 0 && Awaits(t.remaining, ids, k)
  }

  lemma TailOfDistinct(ids: seq<Option<string>>, k: nat)
    requires Distinct(ids) && k < |ids|
    ensures ids[k..] == [ids[k]] + ids[k + 1..] && ids[k] !in ids[k + 1..]
  {
    var later := ids[k + 1..];
    assert forall j | 0 <= j < |later| :: later[j] == ids[k + 1 + j];
  }

  lemma OneLessAwaited(remaining: set<string>, ids: seq<Option<string>>, k: nat)
    requires Awaits(remaining, ids, k) && k < |ids| && Named(ids)
    ensures Awaits(remaining - {IdText(ids[k])}, ids, k + 1)
    ensures remaining - {IdText(ids[k])} == {} <==> k + 1 == |ids|
  {
    var rest, later := remaining - {IdText(ids[k])}, ids[k + 1..];
    TailOfDistinct(ids, k);
    assert Some(IdText(ids[k])) == ids[k];
    forall id
      ensures id in rest <==> Some(id) in later {
      assert Some(id) in ids[k..] <==> Some(id) == ids[k] || Some(id) in later;
    }
    if k + 1 < |ids| {
      assert later[0] == ids[k + 1] && Some(IdText(ids[k + 1])) in later;
    }
  }

  lemma OneResult(t: Turn, ids: seq<Option<string>>, k: nat, results: seq<Out>, b: Block, deferred: seq<Out>)
    requires Waiting(t, ids, k, results) && k < |ids| && Named(ids) && b.ToolResult? && b.toolUseId == ids[k]
    ensures var u := TakeBlock(t, b, deferred);
            if k + 1 < |ids| then Waiting(u, ids, k + 1, results + [ToolMsg(b.toolUseId, b.content)])
            else u == Turn(results + [ToolMsg(b.toolUseId, b.content)] + deferred, [], {}, 1)
  {
    OneLessAwaited(t.remaining, ids, k);
    var out := results + [ToolMsg(b.toolUseId, b.content)];
    assert out + [] == out;
  }

  lemma {:induction false} ResultIdsHave(results: seq<Block>)
    requires AllResults(results)
    ensures |ResultIds(results)| == |results| && |ResultsIn(results)| == |results|
    ensures forall i | 0 <= i < |results| ::
      && ResultIds(results)[i] == results[i].toolUseId
      && ResultsIn(results)[i] == ToolMsg(results[i].toolUseId, results[i].content)
  {
    if results != [] {
      ResultIdsHave(results[..|results| - 1]);
    }
  }

  lemma {:induction false} ResultsComeIn(start: Turn, results: seq<Block>, ids: seq<Option<string>>, k: nat, deferred: seq<Out>)
    requires AllResults(results) && ids == ResultIds(results) && Named(ids) && k < |ids|
    requires Waiting(start, ids, 0, [])
    ensures k < |results| && Waiting(TakeBlocks(start, results[..k], deferred), ids, k, ResultsIn(results[..k]))
    decreases k
  {
    IdAt(results, k);
    if k == 0 {
      assert results[..0] == [];
    } else {
      ResultsComeIn(start, results, ids, k - 1, deferred);
      IdAt(results, k - 1);
      NextResult(start, results, k - 1, deferred);
      var t := TakeBlocks(start, results[..k - 1], deferred);
      OneResult(t, ids, k - 1, ResultsIn(results[..k - 1]), results[k - 1], deferred);
    }
  }

  lemma IdAt(results: seq<Block>, k: nat)
    requires AllResults(results) && k < |ResultIds(results)|
    ensures k < |results| && |ResultIds(results)| == |results| && ResultIds(results)[k] == results[k].toolUseId
  {
    ResultIdsHave(results);
  }

  lemma NextResult(start: Turn, results: seq<Block>, k: nat, deferred: seq<Out>)
    requires k < |results| && results[k].ToolResult?
    ensures TakeBlocks(start, results[..k + 1], deferred) == TakeBlock(TakeBlocks(start, results[..k], deferred), results[k], deferred)
    ensures ResultsIn(results[..k + 1]) == ResultsIn(results[..k]) + [ToolMsg(results[k].toolUseId, results[k].content)]
  {
    assert results[..k + 1][..k] == results[..k];
  }

  /** Once all results are in, the deferred text follows them, once. */
  lemma AllResultsIn(start: Turn, results: seq<Block>, deferred: seq<Out>)
    requires results != [] && AllResults(results) && Named(ResultIds(results)) && Waiting(start, ResultIds(results), 0, [])
    ensures TakeBlocks(start, results, deferred) == Turn(ResultsIn(results) + deferred, [], {}, 1)
  {
    var n := |results| - 1;
    ResultIdsHave(results);
    ResultsComeIn(start, results, ResultIds(results), n, deferred);
    var t := TakeBlocks(start, results[..n], deferred);
    OneResult(t, ResultIds(results), n, ResultsIn(results[..n]), results[n], deferred);
  }

  /** With nothing deferred, results are just put out. */
  lemma {:induction false} ResultsOnly(results: seq<Block>)
    requires AllResults(results)
    ensures var t := TakeBlocks(Turn([], [], {}, 0), results, []);
            t.out == ResultsIn(results) && t.texts == [] && t.remaining == {}
  {
    if results != [] {
      var front, b := results[..|results| - 1], results[|results| - 1];
      ResultsOnly(front);
      var out := ResultsIn(front) + [ToolMsg(b.toolUseId, b.content)];
      assert out + [] == out && {} - {IdText(b.toolUseId)} == {};
    }
  }

  lemma {:induction false} TextsHeld(t: Turn, blocks: seq<Block>, deferred: seq<Out>)
    requires NoResults(blocks)
    ensures TakeBlocks(t, blocks, deferred) == t.(texts := t.texts + TextsIn(blocks))
  {
    if blocks == [] {
      assert t.texts + [] == t.texts;
    } else {
      TextsHeld(t, blocks[..|blocks| - 1], deferred);
      var last := blocks[|blocks| - 1];
      var texts := TextsIn(blocks[..|blocks| - 1]);
      if last.Text? {
        assert t.texts + texts + [last.text] == t.texts + (texts + [last.text]);
      } else {
        assert texts + [] == texts;
      }
    }
  }

  lemma {:induction false} TakeTwo(t: Turn, a: seq<Block>, b: seq<Block>, deferred: seq<Out>)
    ensures TakeBlocks(t, a + b, deferred) == TakeBlocks(TakeBlocks(t, a, deferred), b, deferred)
  {
    if b == [] {
      assert a + b == a;
    } else {
      assert (a + b)[..|a + b| - 1] == a + b[..|b| - 1];
      TakeTwo(t, a, b[..|b| - 1], deferred);
    }
  }

  /** Results, then text: the results, the deferred text, the user's text. */
  lemma AnswerTurn(t: Turn, results: seq<Block>, rest: seq<Block>, deferred: seq<Out>, out: seq<Out>)
    requires NoResults(rest)
    requires var u := TakeBlocks(t, results, deferred); u.out == out && u.texts == []
    ensures var v := Flush(TakeBlocks(t, results + rest, deferred));
            v.out == out + TextMessage(TextsIn(rest)) && v.emitted == TakeBlocks(t, results, deferred).emitted
  {
    TakeTwo(t, results, rest, deferred);
    TextsHeld(TakeBlocks(t, results, deferred), rest, deferred);
    assert [] + TextsIn(rest) == TextsIn(rest) && out + [] == out;
  }

  lemma {:induction false} ToolsMakeCalls(blocks: seq<Block>)
    ensures CallsIn(blocks) == [] <==> forall i | 0 <= i < |blocks| :: !blocks[i].ToolUse?
  {
    if blocks != [] {
      ToolsMakeCalls(blocks[..|blocks| - 1]);
      assert forall i | 0 <= i < |blocks| - 1 :: blocks[..|blocks| - 1][i] == blocks[i];
    }
  }

  /** At the start, the results to come answer exactly the awaited ids. */
  lemma ResultsAnswer(calls: seq<ToolCall>, results: seq<Block>)
    requires calls != [] && Named(CallIds(calls)) && AllResults(results)
    requires multiset(ResultIds(results)) == multiset(CallIds(calls))
    ensures Named(ResultIds(results)) && Awaits(AwaitedIds(calls), ResultIds(results), 0)
    ensures results != [] && AwaitedIds(calls) != {}
  {
    var ids := ResultIds(results);
    CallIdsHave(calls);
    AwaitedAreCallIds(calls);
    DistinctPermutation(ids, CallIds(calls));
    ResultIdsHave(results);
    forall i | 0 <= i < |ids|
      ensures ids[i].Some? && Strip(ids[i].value) != "" {
      assert ids[i] in ids;
      var j :| 0 <= j < |CallIds(calls)| && CallIds(calls)[j] == ids[i];
    }
    assert ids[0..] == ids;
    var first := CallIds(calls)[0];
    assert first in CallIds(calls) && first in ids && first.value in AwaitedIds(calls);
  }

  lemma AnswerOutcome(calls: seq<ToolCall>, blocks: seq<Block>, deferred: seq<Out>)
    requires calls != [] && Answers(calls, blocks)
    ensures var n := |calls|;
            && AwaitedIds(calls) != {}
            && UserTurn(blocks, AwaitedIds(calls), deferred).emitted == 1
            && UserTurn(blocks, AwaitedIds(calls), deferred).out
               == ResultsIn(blocks[..n]) + deferred + TextMessage(TextsIn(blocks[n..]))
            && UserMessage(blocks) == ResultsIn(blocks[..n]) + TextMessage(TextsIn(blocks[n..]))
  {
    var results, rest := blocks[..|calls|], blocks[|calls|..];
    assert blocks == results + rest;
    ResultsAnswer(calls, results);
    var start := Turn([], [], AwaitedIds(calls), 0);
    AllResultsIn(start, results, deferred);
    AnswerTurn(start, results, rest, deferred, ResultsIn(results) + deferred);
    ResultsOnly(results);
    AnswerTurn(Turn([], [], {}, 0), results, rest, [], ResultsIn(results));
  }

  lemma FromStep(p: Option<Pending>, m: Message, rest: seq<Message>, q: Option<Pending>, out: seq<Out>, mode: ReplayMode)
    requires Step(p, m, mode) == Ok((q, out))
    ensures ConvertFrom(p, [m] + rest, mode) == Prefixed(out, ConvertFrom(q, rest, mode))
  {
    assert ([m] + rest)[0] == m && ([m] + rest)[1..] == rest;
  }

  lemma CallStep(call: Message, mode: ReplayMode)
    requires MakesCalls(call) && !Unsupported(call)
    ensures Step(None, call, mode) == Ok((Left(call), Own(call, mode)))
    ensures Own(call, mode) == [CallSpeech(call.content.blocks, call.reasoning, mode)]
    ensures Deferred(Left(call), mode) == LateSpeech(call.content.blocks, call.reasoning, mode)
    ensures Left(call).Some? ==> Left(call).value.remaining == AwaitedIds(MadeCalls(call.content.blocks))
  {
    assert [] + Own(call, mode) == Own(call, mode);
    SplitForm(call.content.blocks);
    OwnForm(call, mode);
    LeftForm(call, mode);
    AwaitedForm(call.content.blocks);
  }

  /** A call and its answer, from nothing pending to nothing pending. */
  lemma ExchangeIsReplayed(call: Message, answer: Message, rest: seq<Message>, mode: ReplayMode)
    requires MakesCalls(call) && !Unsupported(call) && !Unsupported(answer) && answer.role == User && answer.content.Blocks?
    requires Answers(MadeCalls(call.content.blocks), answer.content.blocks)
    ensures var r := ConvertFrom(None, rest, mode);
            ConvertFrom(None, [call] + ([answer] + rest), mode) == Prefixed(Exchange(call, answer, mode), r)
  {
    var blocks, calls := answer.content.blocks, MadeCalls(call.content.blocks);
    var p := Left(call);
    var own := ResultsIn(blocks[..|calls|]) + Deferred(p, mode) + TextMessage(TextsIn(blocks[|calls|..]));
    CallStep(call, mode);
    AnswerStep(p, calls, answer, mode);
    FromStep(None, call, [answer] + rest, p, Own(call, mode), mode);
    FromStep(p, answer, rest, None, own, mode);
    PrefixedTwice(Own(call, mode), own, ConvertFrom(None, rest, mode));
    ExchangeForm(Own(call, mode)[0], ResultsIn(blocks[..|calls|]), Deferred(p, mode), TextMessage(TextsIn(blocks[|calls|..])));
  }

  lemma ExchangeForm(head: Out, results: seq<Out>, deferred: seq<Out>, text: seq<Out>)
    ensures [head] + (results + deferred + text) == [head] + results + deferred + text
  {
  }

  lemma InjectedStep(p: Option<Pending>, answer: Message, mode: ReplayMode)
    requires Injects(p, answer) && !Unsupported(answer)
    requires UserTurn(answer.content.blocks, p.value.remaining, Deferred(p, mode)).emitted > 0
    ensures Step(p, answer, mode) == Ok((None, UserTurn(answer.content.blocks, p.value.remaining, Deferred(p, mode)).out))
  {
  }

  lemma PlainStep(answer: Message, mode: ReplayMode)
    requires answer.role == User && answer.content.Blocks? && !Unsupported(answer)
    ensures Step(None, answer, mode) == Ok((None, UserMessage(answer.content.blocks)))
  {
    assert [] + UserMessage(answer.content.blocks) == UserMessage(answer.content.blocks);
  }

  lemma AnswerStep(p: Option<Pending>, calls: seq<ToolCall>, answer: Message, mode: ReplayMode)
    requires answer.role == User && answer.content.Blocks? && !Unsupported(answer)
    requires p.Some? ==> p.value.remaining == AwaitedIds(calls)
    requires calls != [] && Answers(calls, answer.content.blocks)
    ensures var blocks, n := answer.content.blocks, |calls|;
            Step(p, answer, mode) == Ok((None, ResultsIn(blocks[..n]) + Deferred(p, mode) + TextMessage(TextsIn(blocks[n..]))))
  {
    var blocks, n := answer.content.blocks, |calls|;
    AnswerOutcome(calls, blocks, Deferred(p, mode));
    if p.Some? {
      InjectedStep(p, answer, mode);
    } else {
      PlainStep(answer, mode);
      assert ResultsIn(blocks[..n]) + [] == ResultsIn(blocks[..n]);
    }
  }

  lemma OwnIsReplayed(m: Message, rest: seq<Message>, mode: ReplayMode)
    requires !MakesCalls(m) && !Unsupported(m)
    ensures ConvertFrom(None, [m] + rest, mode) == Prefixed(Own(m, mode), ConvertFrom(None, rest, mode))
  {
    var all := [m] + rest;
    assert all[0] == m && all[1..] == rest;
    assert [] + Own(m, mode) == Own(m, mode);
    OwnForm(m, mode);
    if m.content.Blocks? {
      SplitForm(m.content.blocks);
    }
  }

  /** A history in good order is replayed in good order: every call message is directly followed by its
      results, then its deferred text, once, then the user's own text; all else stays as it is. */
  lemma {:induction false} GoodOrderIsReplayed(messages: seq<Message>, mode: ReplayMode)
    requires InGoodOrder(messages)
    ensures Convert(messages, mode) == Ok(Reference(messages, mode))
    decreases |messages|
  {
    if messages != [] {
      if MakesCalls(messages[0]) {
        var rest := messages[2..];
        assert messages == [messages[0]] + ([messages[1]] + rest);
        ExchangeIsReplayed(messages[0], messages[1], rest, mode);
        GoodOrderIsReplayed(rest, mode);
      } else {
        var rest := messages[1..];
        assert messages == [messages[0]] + rest;
        OwnIsReplayed(messages[0], rest, mode);
        GoodOrderIsReplayed(rest, mode);
      }
    }
  }

  // ---------------------------------------------------------------------------------------------
  // Calls and their answers in the transcript
  // ---------------------------------------------------------------------------------------------

  function ToolIds(out: seq<Out>): seq<Option<string>> {
    if out == [] then []
    else
      var last := out[|out| - 1];
      ToolIds(out[..|out| - 1]) + [if last.ToolMsg? then last.toolCallId else None]
  }

  predicate AllTools(out: seq<Out>) {
    forall i | 0 <= i < |out| :: out[i].ToolMsg?
  }

  /** What follows begins with tool messages for exactly the ids of the calls. */
  predicate AnsweredBy(calls: seq<ToolCall>, rest: seq<Out>) {
    calls != [] ==>
      |calls| <= |rest| && AllTools(rest[..|calls|]) && multiset(ToolIds(rest[..|calls|])) == multiset(CallIds(calls))
  }

  /** Every message that makes calls is directly followed by its tool messages. */
  predicate Answered(out: seq<Out>)
    decreases |out|
  {
    out == [] || (AnsweredBy(CallsOf(out[0]), out[1..]) && Answered(out[1..]))
  }

  lemma AnsweredByMore(calls: seq<ToolCall>, rest: seq<Out>, more: seq<Out>)
    requires AnsweredBy(calls, rest)
    ensures AnsweredBy(calls, rest + more)
  {
    if calls != [] {
      assert (rest + more)[..|calls|] == rest[..|calls|];
    }
  }

  lemma AnsweredCons(o: Out, rest: seq<Out>)
    requires AnsweredBy(CallsOf(o), rest) && Answered(rest)
    ensures Answered([o] + rest)
  {
    assert ([o] + rest)[0] == o && ([o] + rest)[1..] == rest;
  }

  lemma ConsAppend(a: seq<Out>, b: seq<Out>)
    requires a != []
    ensures a + b == [a[0]] + (a[1..] + b)
  {
  }

  lemma {:induction false} AnsweredAppend(a: seq<Out>, b: seq<Out>)
    requires Answered(a) && Answered(b)
    ensures Answered(a + b)
    decreases |a|
  {
    if a == [] {
      assert a + b == b;
    } else {
      AnsweredAppend(a[1..], b);
      AnsweredByMore(CallsOf(a[0]), a[1..], b);
      AnsweredCons(a[0], a[1..] + b);
      ConsAppend(a, b);
    }
  }

  lemma {:induction false} SilentIsAnswered(out: seq<Out>)
    requires AllCalls(out) == []
    ensures Answered(out)
    decreases |out|
  {
    if out != [] {
      var head, rest := out[0], out[1..];
      assert out == [head] + rest;
      CallsAppend([head], rest);
      CallsOfOne(head);
      SilentIsAnswered(rest);
    }
  }

  lemma {:induction false} ToolIdsOfResults(results: seq<Block>)
    requires AllResults(results)
    ensures ToolIds(ResultsIn(results)) == ResultIds(results)
    ensures |ResultsIn(results)| == |results| && AllTools(ResultsIn(results)) && AllCalls(ResultsIn(results)) == []
  {
    if results != [] {
      var front := results[..|results| - 1];
      ToolIdsOfResults(front);
      assert ResultsIn(results)[..|front|] == ResultsIn(front);
    }
  }

  lemma HeadIsAnswered(head: Out, rest: seq<Out>)
    requires AnsweredBy(CallsOf(head), rest) && Answered(rest)
    ensures Answered([head] + rest)
  {
    assert ([head] + rest)[0] == head && ([head] + rest)[1..] == rest;
  }

  lemma AnsweredExactly(calls: seq<ToolCall>, tools: seq<Out>)
    requires |tools| == |calls| && AllTools(tools) && multiset(ToolIds(tools)) == multiset(CallIds(calls))
    ensures AnsweredBy(calls, tools)
  {
    assert tools[..|calls|] == tools;
  }

  lemma CallIsAnswered(head: Out, results: seq<Block>)
    requires AllResults(results) && |results| == |CallsOf(head)|
    requires multiset(ResultIds(results)) == multiset(CallIds(CallsOf(head)))
    ensures Answered([head] + ResultsIn(results))
  {
    var tools := ResultsIn(results);
    ToolIdsOfResults(results);
    SilentIsAnswered(tools);
    AnsweredExactly(CallsOf(head), tools);
    HeadIsAnswered(head, tools);
  }

  lemma ExchangeIsAnswered(call: Message, answer: Message, mode: ReplayMode)
    requires MakesCalls(call) && answer.content.Blocks? && Answers(MadeCalls(call.content.blocks), answer.content.blocks)
    ensures Answered(Exchange(call, answer, mode))
  {
    var blocks, n := answer.content.blocks, |MadeCalls(call.content.blocks)|;
    var head, late := CallSpeech(call.content.blocks, call.reasoning, mode), LateSpeech(call.content.blocks, call.reasoning, mode);
    CallIsAnswered(head, blocks[..n]);
    LateIsSilent(late);
    AnsweredAppend([head] + ResultsIn(blocks[..n]), late);
    TextIsSilent(TextsIn(blocks[n..]));
    AnsweredAppend([head] + ResultsIn(blocks[..n]) + late, TextMessage(TextsIn(blocks[n..])));
  }

  lemma LateIsSilent(late: seq<Out>)
    requires late == [] || (|late| == 1 && CallsOf(late[0]) == [])
    ensures Answered(late)
  {
  }

  lemma TextIsSilent(texts: seq<string>)
    ensures Answered(TextMessage(texts))
  {
  }

  /** In the transcript of a history in good order every call message is directly followed by the tool
      messages for its ids, in whichever order the user gave them, and by nothing missing or foreign. */
  lemma {:induction false} EveryCallIsAnswered(messages: seq<Message>, mode: ReplayMode)
    requires InGoodOrder(messages)
    ensures Convert(messages, mode).Ok? && Answered(Convert(messages, mode).value)
    decreases |messages|
  {
    GoodOrderIsReplayed(messages, mode);
    if messages != [] {
      if MakesCalls(messages[0]) {
        GoodOrderIsReplayed(messages[2..], mode);
        EveryCallIsAnswered(messages[2..], mode);
        ExchangeIsAnswered(messages[0], messages[1], mode);
        AnsweredAppend(Exchange(messages[0], messages[1], mode), Reference(messages[2..], mode));
      } else {
        GoodOrderIsReplayed(messages[1..], mode);
        EveryCallIsAnswered(messages[1..], mode);
        OwnIsSilent(messages[0], mode);
        AnsweredAppend(Own(messages[0], mode), Reference(messages[1..], mode));
      }
    }
  }

  lemma OwnIsSilent(m: Message, mode: ReplayMode)
    requires !MakesCalls(m)
    ensures Answered(Own(m, mode))
  {
    OwnCalls(m, mode);
    if m.role == Assistant && m.content.Blocks? {
      ToolsMakeCalls(m.content.blocks);
    }
    SilentIsAnswered(Own(m, mode));
  }
}
