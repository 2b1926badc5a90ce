/** Deferred text over whole histories: it is never lost, and when one message repeats it. */
module ConversionHistory {
  import opened Prelude
  import opened Conversion
  import opened ConversionReference
  import opened ConversionOrder

  // ---------------------------------------------------------------------------------------------
  // The assistant's side
  // ---------------------------------------------------------------------------------------------

  /** What a message leaves to be put out later. */
  function Left(m: Message): Option<Pending> {
    if m.role == Assistant && m.content.Blocks? && AfterCalls(m.content.blocks) != [] then
      Some(Pending(Awaited(m.content.blocks), AfterCalls(m.content.blocks), Clean(m.reasoning)))
    else None
  }

  /** What an assistant message asks for: itself, and what is said after its calls. */
  function AssistantPart(m: Message, mode: ReplayMode): seq<Out> {
    if m.role == User then []
    else if m.content.Blocks? then Own(m, mode) + LateSpeech(m.content.blocks, m.reasoning, mode)
    else Own(m, mode)
  }

  lemma LeftForm(m: Message, mode: ReplayMode)
    ensures m.role == Assistant && m.content.Blocks? ==>
      && Left(m) == (if HasTools(m.content.blocks) then PendingOf(m.content.blocks, Clean(m.reasoning)) else None)
      && Deferred(Left(m), mode) == LateSpeech(m.content.blocks, m.reasoning, mode)
  {
    if m.content.Blocks? {
      PendingForm(m.content.blocks, Clean(m.reasoning));
      LateForm(m.content.blocks, Clean(m.reasoning), mode);
      NoteOfClean(AfterCalls(m.content.blocks), m.reasoning, mode);
      NothingAfterNoCalls(m.content.blocks);
    }
  }

  lemma {:induction false} NothingAfterNoCalls(blocks: seq<Block>)
    ensures AfterCalls(blocks) != [] ==> HasTools(blocks)
  {
    if blocks != [] && !blocks[0].ToolUse? {
      NothingAfterNoCalls(blocks[1..]);
    }
  }

  function AssistantParts(messages: seq<Message>, mode: ReplayMode): seq<Out>
    decreases messages
  {
    if messages == [] then [] else AssistantPart(messages[0], mode) + AssistantParts(messages[1..], mode)
  }

  /** How often one user message puts out the deferred text. */
  function Emissions(p: Option<Pending>, m: Message, mode: ReplayMode): nat {
    if Injects(p, m) then UserTurn(m.content.blocks, p.value.remaining, Deferred(p, mode)).emitted else 0
  }

  /** The copies beyond the first. */
  function Repeats(p: Option<Pending>, m: Message, mode: ReplayMode): seq<Out> {
    if Emissions(p, m, mode) <= 1 then [] else Repeat(Deferred(p, mode), Emissions(p, m, mode) - 1)
  }

  function AllRepeats(p: Option<Pending>, messages: seq<Message>, mode: ReplayMode): seq<Out>
    decreases messages
  {
    if messages == [] || Step(p, messages[0], mode).Refused? then []
    else Repeats(p, messages[0], mode) + AllRepeats(Step(p, messages[0], mode).value.0, messages[1..], mode)
  }

  lemma StepLeaves(p: Option<Pending>, m: Message, mode: ReplayMode)
    requires Step(p, m, mode).Ok? && !Injects(p, m)
    ensures Step(p, m, mode).value.0 == if KeepsPending(m) then p else Left(m)
  {
    LeftForm(m, mode);
  }

  /** After a message that does not inject, what is deferred has been put out and replaced. */
  lemma StepFlushes(p: Option<Pending>, m: Message, mode: ReplayMode)
    requires Step(p, m, mode).Ok? && !Injects(p, m) && !KeepsPending(m)
    ensures AssistantSide(Step(p, m, mode).value.1) == Deferred(p, mode) + OwnOfAssistant(m, mode)
  {
    StepForm(p, m, mode);
    OwnSides(m, mode);
    AfterDeferred(p, Own(m, mode), mode);
  }

  lemma StepInjects(p: Option<Pending>, m: Message, mode: ReplayMode)
    requires Step(p, m, mode).Ok? && Injects(p, m)
    ensures var (q, out) := Step(p, m, mode).value;
            && AssistantSide(out) == Repeat(Deferred(p, mode), Emissions(p, m, mode))
            && Deferred(q, mode) == if Emissions(p, m, mode) > 0 then [] else Deferred(p, mode)
  {
    StepForm(p, m, mode);
    DeferredSides(p, mode);
    UserTurnSides(m.content.blocks, p.value.remaining, Deferred(p, mode));
  }

  lemma RepeatOnce(s: seq<Out>, count: nat)
    requires count > 0
    ensures multiset(Repeat(s, count)) == multiset(s) + multiset(if count <= 1 then [] else Repeat(s, count - 1))
  {
    if count == 1 {
      assert Repeat(s, 1) == [] + s;
      assert [] + s == s;
    }
  }

  /** What is put out and still deferred after a message, against what was deferred before, what the
      message asks for, and what is put out again. */
  ghost predicate Balanced(side: seq<Out>, after: seq<Out>, before: seq<Out>, part: seq<Out>, again: seq<Out>) {
    multiset(side) + multiset(after) == multiset(before) + multiset(part) + multiset(again)
  }

  lemma RepeatBalances(d: seq<Out>, count: nat)
    ensures Balanced(Repeat(d, count), if count > 0 then [] else d, d, [], if count <= 1 then [] else Repeat(d, count - 1))
  {
    if count > 0 {
      RepeatOnce(d, count);
    }
  }

  lemma InjectionForm(p: Option<Pending>, m: Message, mode: ReplayMode)
    requires Injects(p, m)
    ensures AssistantPart(m, mode) == []
    ensures Repeats(p, m, mode) == if Emissions(p, m, mode) <= 1 then [] else Repeat(Deferred(p, mode), Emissions(p, m, mode) - 1)
  {
  }

  lemma InjectionBalances(p: Option<Pending>, m: Message, mode: ReplayMode)
    requires Step(p, m, mode).Ok? && Injects(p, m)
    ensures var (q, out) := Step(p, m, mode).value;
            Balanced(AssistantSide(out), Deferred(q, mode), Deferred(p, mode), AssistantPart(m, mode), Repeats(p, m, mode))
  {
    StepInjects(p, m, mode);
    InjectionForm(p, m, mode);
    RepeatBalances(Deferred(p, mode), Emissions(p, m, mode));
  }

  lemma OwnBalances(own: seq<Out>, before: seq<Out>, after: seq<Out>)
    ensures Balanced(before + own, after, before, own + after, [])
    ensures Balanced(own, before, before, own + [], [])
  {
    assert own + [] == own;
  }

  function OwnOfAssistant(m: Message, mode: ReplayMode): seq<Out> {
    if m.role == Assistant then Own(m, mode) else []
  }

  lemma PartForm(p: Option<Pending>, m: Message, mode: ReplayMode)
    requires !Injects(p, m)
    ensures AssistantPart(m, mode) == OwnOfAssistant(m, mode) + Deferred(Left(m), mode)
    ensures Repeats(p, m, mode) == []
  {
    LeftForm(m, mode);
    assert OwnOfAssistant(m, mode) + [] == OwnOfAssistant(m, mode);
  }

  lemma FlushBalances(p: Option<Pending>, m: Message, mode: ReplayMode)
    requires Step(p, m, mode).Ok? && !Injects(p, m) && !KeepsPending(m)
    ensures var (q, out) := Step(p, m, mode).value;
            Balanced(AssistantSide(out), Deferred(q, mode), Deferred(p, mode), AssistantPart(m, mode), Repeats(p, m, mode))
  {
    StepLeaves(p, m, mode);
    StepFlushes(p, m, mode);
    PartForm(p, m, mode);
    OwnBalances(OwnOfAssistant(m, mode), Deferred(p, mode), Deferred(Left(m), mode));
  }

  lemma KeepBalances(p: Option<Pending>, m: Message, mode: ReplayMode)
    requires Step(p, m, mode).Ok? && KeepsPending(m)
    ensures var (q, out) := Step(p, m, mode).value;
            Balanced(AssistantSide(out), Deferred(q, mode), Deferred(p, mode), AssistantPart(m, mode), Repeats(p, m, mode))
  {
    StepLeaves(p, m, mode);
    StepForm(p, m, mode);
    OwnSides(m, mode);
    PartForm(p, m, mode);
    OwnBalances(Own(m, mode), Deferred(p, mode), Deferred(p, mode));
  }

  lemma StepAssistantSide(p: Option<Pending>, m: Message, mode: ReplayMode)
    requires Step(p, m, mode).Ok?
    ensures var (q, out) := Step(p, m, mode).value;
            Balanced(AssistantSide(out), Deferred(q, mode), Deferred(p, mode), AssistantPart(m, mode), Repeats(p, m, mode))
  {
    if Injects(p, m) {
      InjectionBalances(p, m, mode);
    } else if KeepsPending(m) {
      KeepBalances(p, m, mode);
    } else {
      FlushBalances(p, m, mode);
    }
  }

  /** For every history that is converted at all, the transcript holds every assistant message and every
      deferred text at least once, and beyond that exactly the repeats. */
  lemma {:induction false} NothingDeferredIsLost(p: Option<Pending>, messages: seq<Message>, mode: ReplayMode)
    requires ConvertFrom(p, messages, mode).Ok?
    ensures multiset(AssistantSide(ConvertFrom(p, messages, mode).value))
         == multiset(Deferred(p, mode)) + multiset(AssistantParts(messages, mode)) + multiset(AllRepeats(p, messages, mode))
    decreases messages
  {
    if messages == [] {
      DeferredSides(p, mode);
    } else {
      var (q, out) := Step(p, messages[0], mode).value;
      var rest := ConvertFrom(q, messages[1..], mode).value;
      StepAssistantSide(p, messages[0], mode);
      NothingDeferredIsLost(q, messages[1..], mode);
      SidesAppend(out, rest);
      AddUp(AssistantSide(out), AssistantSide(rest), Deferred(p, mode), Deferred(q, mode), AssistantPart(messages[0], mode),
            AssistantParts(messages[1..], mode), Repeats(p, messages[0], mode), AllRepeats(q, messages[1..], mode));
    }
  }

  lemma AddUp(one: seq<Out>, rest: seq<Out>, d: seq<Out>, e: seq<Out>, part: seq<Out>, parts: seq<Out>, again: seq<Out>, agains: seq<Out>)
    requires Balanced(one, e, d, part, again)
    requires multiset(rest) == multiset(e) + multiset(parts) + multiset(agains)
    ensures multiset(one + rest) == multiset(d) + multiset(part + parts) + multiset(again + agains)
  {
    assert multiset(one + rest) == multiset(one) + multiset(e) + (multiset(parts) + multiset(agains));
  }

  // ---------------------------------------------------------------------------------------------
  // Repeats
  // ---------------------------------------------------------------------------------------------

  /** Block i is a tool result with which all awaited ids are answered. */
  predicate Completes(remaining: set<string>, blocks: seq<Block>, i: int) {
    0 <= i < |blocks| && blocks[i].ToolResult? && remaining <= AnsweredIds(blocks[..i + 1])
  }

  ghost predicate Twice(remaining: set<string>, blocks: seq<Block>) {
    exists i, j :: i < j && Completes(remaining, blocks, i) && Completes(remaining, blocks, j)
  }

  lemma CompletesEarlier(remaining: set<string>, blocks: seq<Block>, i: int)
    requires blocks != [] && i < |blocks| - 1
    ensures Completes(remaining, blocks, i) <==> Completes(remaining, blocks[..|blocks| - 1], i)
  {
    var front := blocks[..|blocks| - 1];
    if 0 <= i {
      assert front[..i + 1] == blocks[..i + 1];
    }
  }

  lemma {:induction false} EmittedMeaning(blocks: seq<Block>, remaining: set<string>, deferred: seq<Out>)
    ensures var emitted := TakeBlocks(Turn([], [], remaining, 0), blocks, deferred).emitted;
            && (emitted > 0 <==> exists i :: Completes(remaining, blocks, i))
            && (emitted > 1 <==> Twice(remaining, blocks))
  {
    if blocks != [] {
      var n, front := |blocks| - 1, blocks[..|blocks| - 1];
      EmittedMeaning(front, remaining, deferred);
      RemainingMeaning(blocks, remaining, deferred);
      assert blocks[..n + 1] == blocks;
      NothingLeft(remaining, AnsweredIds(blocks));
      forall i | i < n
        ensures Completes(remaining, blocks, i) <==> Completes(remaining, front, i) {
        CompletesEarlier(remaining, blocks, i);
      }
      LastMayComplete(remaining, blocks);
    }
  }

  lemma LastMayComplete(remaining: set<string>, blocks: seq<Block>)
    requires blocks != []
    requires forall i | i < |blocks| - 1 :: Completes(remaining, blocks, i) <==> Completes(remaining, blocks[..|blocks| - 1], i)
    ensures var n, front := |blocks| - 1, blocks[..|blocks| - 1];
            && ((exists i :: Completes(remaining, blocks, i)) <==>
                  Completes(remaining, blocks, n) || exists i :: Completes(remaining, front, i))
            && (Twice(remaining, blocks) <==>
                  Twice(remaining, front) || (Completes(remaining, blocks, n) && exists i :: Completes(remaining, front, i)))
  {
    var n, front := |blocks| - 1, blocks[..|blocks| - 1];
    forall i | Completes(remaining, front, i)
      ensures i < n && Completes(remaining, blocks, i) {
    }
    if Twice(remaining, blocks) && !Completes(remaining, blocks, n) {
      var i, j :| i < j && Completes(remaining, blocks, i) && Completes(remaining, blocks, j);
      assert j != n;
      assert Completes(remaining, front, i) && Completes(remaining, front, j);
    }
  }

  /** A user message repeats the deferred text exactly when a tool result follows the one that completes
      the answers. */
  lemma RepeatsIffResultsGoOn(p: Option<Pending>, m: Message, mode: ReplayMode)
    requires Injects(p, m) && p.value.deferred != []
    ensures Repeats(p, m, mode) != [] <==> Twice(p.value.remaining, m.content.blocks)
  {
    EmittedMeaning(m.content.blocks, p.value.remaining, Deferred(p, mode));
    var e := Emissions(p, m, mode);
    if e > 1 {
      assert Repeat(Deferred(p, mode), e - 1) == Repeat(Deferred(p, mode), e - 2) + Deferred(p, mode);
    }
  }
}
