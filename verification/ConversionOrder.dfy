/** What survives the replay of a history, and in which order. */
module ConversionOrder {
  import opened Prelude
  import opened Conversion
  import opened ConversionReference

  // ---------------------------------------------------------------------------------------------
  // Refusals
  // ---------------------------------------------------------------------------------------------

  /** The message holds a block that is refused: an image, or a server tool block of the assistant. */
  predicate Unsupported(m: Message) {
    m.content.Blocks? && if m.role == Assistant then FirstError(m.content.blocks).Some? else HasImage(m.content.blocks)
  }

  lemma {:induction false} FirstErrorMeaning(blocks: seq<Block>)
    ensures FirstError(blocks).Some? <==> exists b | b in blocks :: b.Image? || b.ServerBlock?
  {
    if blocks != [] {
      var front, last := blocks[..|blocks| - 1], blocks[|blocks| - 1];
      FirstErrorMeaning(front);
      assert blocks == front + [last];
      assert last in blocks;
    }
  }

  /** Conversion is refused exactly when some message is unsupported, wherever it stands. */
  lemma {:induction false} RefusedIffUnsupported(p: Option<Pending>, messages: seq<Message>, mode: ReplayMode)
    ensures ConvertFrom(p, messages, mode).Refused? <==> exists m | m in messages :: Unsupported(m)
    decreases messages
  {
    if messages != [] {
      var m, rest := messages[0], messages[1..];
      assert messages == [m] + rest;
      var r := Step(p, m, mode);
      assert r.Refused? <==> Unsupported(m);
      if r.Ok? {
        RefusedIffUnsupported(r.value.0, rest, mode);
        assert forall other | other in messages && Unsupported(other) :: other in rest;
      } else {
        assert m in messages;
      }
    }
  }

  /** Why the message is refused: for its first block of such a kind. */
  function ReasonOf(role: Role, blocks: seq<Block>): Option<ConversionError> {
    if blocks == [] then None
    else if blocks[0].Image? then Some(if role == User then UserImage else AssistantImage)
    else if blocks[0].ServerBlock? && role == Assistant then Some(ServerTool(blocks[0].kind))
    else ReasonOf(role, blocks[1..])
  }

  lemma {:induction false} ReasonLast(role: Role, front: seq<Block>, last: Block)
    ensures ReasonOf(role, front + [last]) == if ReasonOf(role, front).Some? then ReasonOf(role, front) else ReasonOf(role, [last])
  {
    if front == [] {
      assert [] + [last] == [last];
    } else {
      assert (front + [last])[0] == front[0] && (front + [last])[1..] == front[1..] + [last];
      ReasonLast(role, front[1..], last);
    }
  }

  lemma {:induction false} FirstErrorIs(blocks: seq<Block>)
    ensures FirstError(blocks) == ReasonOf(Assistant, blocks)
  {
    if blocks != [] {
      var front, last := blocks[..|blocks| - 1], blocks[|blocks| - 1];
      FirstErrorIs(front);
      assert blocks == front + [last] && [last][1..] == [];
      ReasonLast(Assistant, front, last);
    }
  }

  lemma {:induction false} UserErrorIs(blocks: seq<Block>)
    ensures ReasonOf(User, blocks) == if HasImage(blocks) then Some(UserImage) else None
  {
    if blocks != [] {
      UserErrorIs(blocks[1..]);
      assert blocks == [blocks[0]] + blocks[1..];
      assert HasImage(blocks) <==> blocks[0].Image? || HasImage(blocks[1..]);
    }
  }

  /** The error is that of the first message that is refused. */
  lemma {:induction false} RefusalIs(p: Option<Pending>, messages: seq<Message>, k: int, mode: ReplayMode)
    requires 0 <= k < |messages| && Unsupported(messages[k]) && forall j | 0 <= j < k :: !Unsupported(messages[j])
    ensures var reason := ReasonOf(messages[k].role, messages[k].content.blocks);
            reason.Some? && ConvertFrom(p, messages, mode) == Refused(reason.value)
    decreases messages
  {
    var m := messages[0];
    if m.content.Blocks? {
      FirstErrorIs(m.content.blocks);
      UserErrorIs(m.content.blocks);
    }
    if k > 0 {
      assert !Unsupported(m) && Step(p, m, mode).Ok?;
      RefusalIs(Step(p, m, mode).value.0, messages[1..], k - 1, mode);
    }
  }

  // ---------------------------------------------------------------------------------------------
  // The user's side
  // ---------------------------------------------------------------------------------------------

  /** The transcript without its assistant messages. */
  function UserSide(out: seq<Out>): seq<Out> {
    if out == [] then []
    else UserSide(out[..|out| - 1]) + if out[|out| - 1].AssistantMsg? then [] else [out[|out| - 1]]
  }

  function AssistantSide(out: seq<Out>): seq<Out> {
    if out == [] then []
    else AssistantSide(out[..|out| - 1]) + if out[|out| - 1].AssistantMsg? then [out[|out| - 1]] else []
  }

  lemma {:induction false} SidesAppend(a: seq<Out>, b: seq<Out>)
    ensures UserSide(a + b) == UserSide(a) + UserSide(b)
    ensures AssistantSide(a + b) == AssistantSide(a) + AssistantSide(b)
  {
    if b == [] {
      assert a + b == a;
    } else {
      assert (a + b)[..|a + b| - 1] == a + b[..|b| - 1];
      SidesAppend(a, b[..|b| - 1]);
    }
  }

  lemma SidesOfOne(m: Out)
    ensures UserSide([m]) == (if m.AssistantMsg? then [] else [m])
    ensures AssistantSide([m]) == (if m.AssistantMsg? then [m] else [])
  {
    assert [m][..0] == [];
  }

  lemma DeferredSides(p: Option<Pending>, mode: ReplayMode)
    ensures UserSide(Deferred(p, mode)) == [] && AssistantSide(Deferred(p, mode)) == Deferred(p, mode)
  {
    if Deferred(p, mode) != [] {
      SidesOfOne(Deferred(p, mode)[0]);
    }
  }

  /** count copies of s, one after the other. */
  function Repeat(s: seq<Out>, count: nat): seq<Out> {
    if count == 0 then [] else Repeat(s, count - 1) + s
  }

  /** The same user message with deferred text put in between, and without. */
  predicate Alongside(t: Turn, u: Turn, deferred: seq<Out>) {
    && t.texts == u.texts && UserSide(t.out) == u.out && UserSide(u.out) == u.out
    && AssistantSide(t.out) == Repeat(deferred, t.emitted)
  }

  lemma FlushSides(t: Turn, u: Turn, deferred: seq<Out>)
    requires Alongside(t, u, deferred)
    ensures Alongside(Flush(t), Flush(u), deferred) && Flush(t).texts == [] && Flush(t).emitted == t.emitted
  {
    if t.texts != [] {
      var m := UserMsg(Join(t.texts, "\n"));
      SidesAppend(t.out, [m]);
      SidesAppend(u.out, [m]);
      SidesOfOne(m);
      assert AssistantSide(t.out) + [] == AssistantSide(t.out);
    }
  }

  lemma ToolSides(out: seq<Out>, tool: Out)
    requires tool.ToolMsg?
    ensures UserSide(out + [tool]) == UserSide(out) + [tool] && AssistantSide(out + [tool]) == AssistantSide(out)
  {
    SidesOfOne(tool);
    SidesAppend(out, [tool]);
    assert AssistantSide(out) + [] == AssistantSide(out);
  }

  lemma DeferredAppended(out: seq<Out>, deferred: seq<Out>)
    requires UserSide(deferred) == [] && AssistantSide(deferred) == deferred
    ensures UserSide(out + deferred) == UserSide(out) && AssistantSide(out + deferred) == AssistantSide(out) + deferred
  {
    SidesAppend(out, deferred);
    assert UserSide(out) + [] == UserSide(out);
  }

  lemma TakeResult(t: Turn, b: Block, deferred: seq<Out>)
    requires t.texts == [] && b.ToolResult?
    ensures var next := TakeBlock(t, b, deferred);
            && next.texts == []
            && (next.emitted == t.emitted + 1 || next.emitted == t.emitted)
            && (next.emitted > t.emitted ==> next.out == t.out + [ToolMsg(b.toolUseId, b.content)] + deferred)
            && (next.emitted == t.emitted || deferred == [] ==> next.out == t.out + [ToolMsg(b.toolUseId, b.content)])
            && Repeat(deferred, t.emitted + 1) == Repeat(deferred, t.emitted) + deferred
  {
    var one := t.out + [ToolMsg(b.toolUseId, b.content)];
    assert one + [] == one;
  }

  lemma ResultSides(t: Turn, u: Turn, b: Block, deferred: seq<Out>)
    requires Alongside(t, u, deferred) && t.texts == [] && b.ToolResult?
    requires UserSide(deferred) == [] && AssistantSide(deferred) == deferred
    ensures Alongside(TakeBlock(t, b, deferred), TakeBlock(u, b, []), deferred)
  {
    var tool := ToolMsg(b.toolUseId, b.content);
    TakeResult(t, b, deferred);
    TakeResult(u, b, []);
    ToolSides(t.out, tool);
    ToolSides(u.out, tool);
    DeferredAppended(t.out + [tool], deferred);
  }

  /** What a user message adds does not depend on what is deferred; the deferred message comes on top,
      once for each tool result that leaves no awaited id. */
  lemma {:induction false} TurnSides(blocks: seq<Block>, remaining: set<string>, deferred: seq<Out>)
    requires UserSide(deferred) == [] && AssistantSide(deferred) == deferred
    ensures Alongside(TakeBlocks(Turn([], [], remaining, 0), blocks, deferred), TakeBlocks(Turn([], [], {}, 0), blocks, []), deferred)
  {
    if blocks != [] {
      var front, b := blocks[..|blocks| - 1], blocks[|blocks| - 1];
      TurnSides(front, remaining, deferred);
      var t := TakeBlocks(Turn([], [], remaining, 0), front, deferred);
      var u := TakeBlocks(Turn([], [], {}, 0), front, []);
      if b.ToolResult? {
        FlushSides(t, u, deferred);
        ResultSides(Flush(t), Flush(u), b, deferred);
        FlushesFirst(t, b, deferred);
        FlushesFirst(u, b, []);
      }
    }
  }

  lemma FlushesFirst(t: Turn, b: Block, deferred: seq<Out>)
    requires b.ToolResult?
    ensures TakeBlock(t, b, deferred) == TakeBlock(Flush(t), b, deferred)
  {
  }

  /** What the messages of the user put into the transcript, each for itself. */
  function UserPart(m: Message, mode: ReplayMode): seq<Out> {
    if m.role == Assistant then []
    else if m.content.Blocks? then Replies(m.content.blocks, {}, [])
    else [Words(m, mode)]
  }

  function UserParts(messages: seq<Message>, mode: ReplayMode): seq<Out>
    decreases messages
  {
    if messages == [] then [] else UserPart(messages[0], mode) + UserParts(messages[1..], mode)
  }

  lemma UserTurnSides(blocks: seq<Block>, remaining: set<string>, deferred: seq<Out>)
    requires UserSide(deferred) == [] && AssistantSide(deferred) == deferred
    ensures var t := UserTurn(blocks, remaining, deferred);
            UserSide(t.out) == UserMessage(blocks) && AssistantSide(t.out) == Repeat(deferred, t.emitted)
  {
    TurnSides(blocks, remaining, deferred);
    FlushSides(TakeBlocks(Turn([], [], remaining, 0), blocks, deferred), TakeBlocks(Turn([], [], {}, 0), blocks, []), deferred);
  }

  lemma {:induction false} NothingRepeated(count: nat)
    ensures Repeat([], count) == []
  {
    if count > 0 {
      NothingRepeated(count - 1);
    }
  }

  lemma UserMessageSides(blocks: seq<Block>)
    ensures UserSide(UserMessage(blocks)) == UserMessage(blocks) && AssistantSide(UserMessage(blocks)) == []
  {
    UserTurnSides(blocks, {}, []);
    NothingRepeated(UserTurn(blocks, {}, []).emitted);
  }

  lemma AfterDeferred(p: Option<Pending>, own: seq<Out>, mode: ReplayMode)
    ensures UserSide(Deferred(p, mode) + own) == UserSide(own)
    ensures AssistantSide(Deferred(p, mode) + own) == Deferred(p, mode) + AssistantSide(own)
  {
    DeferredSides(p, mode);
    SidesAppend(Deferred(p, mode), own);
    assert [] + UserSide(own) == UserSide(own);
  }

  /** What a message says of its own, besides what is said after its calls. */
  function Own(m: Message, mode: ReplayMode): seq<Out> {
    if !m.content.Blocks? then [Words(m, mode)]
    else if m.role == User then Replies(m.content.blocks, {}, [])
    else if MadeCalls(m.content.blocks) != [] then [CallSpeech(m.content.blocks, m.reasoning, mode)]
    else [Speech(m.content.blocks, m.reasoning, mode)]
  }

  lemma NoteOfClean(blocks: seq<Block>, reasoning: Option<string>, mode: ReplayMode)
    ensures Note(blocks, Clean(reasoning), mode) == Note(blocks, reasoning, mode)
  {
  }

  /** The converter's own messages are those. */
  lemma OwnForm(m: Message, mode: ReplayMode)
    ensures !m.content.Blocks? ==> Own(m, mode) == [PlainMessage(m, mode)]
    ensures m.content.Blocks? ==>
      var blocks, reasoning := m.content.blocks, Clean(m.reasoning);
      Own(m, mode) == if m.role == User then UserMessage(blocks)
                      else if HasTools(blocks) then [CallMessage(blocks, reasoning, mode)]
                      else [AssistantMessage(blocks, reasoning, mode)]
  {
    if !m.content.Blocks? {
      WordsForm(m, mode);
    } else {
      var blocks, reasoning := m.content.blocks, Clean(m.reasoning);
      SplitForm(blocks);
      NoteOfClean(blocks, m.reasoning, mode);
      NoteOfClean(BeforeCalls(blocks), m.reasoning, mode);
      RepliesForm(blocks, {}, []);
      CallForm(blocks, reasoning, mode);
      if !HasTools(blocks) {
        SpeechForm(blocks, reasoning, mode);
      }
    }
  }

  lemma OwnSides(m: Message, mode: ReplayMode)
    ensures UserSide(Own(m, mode)) == UserPart(m, mode)
    ensures AssistantSide(Own(m, mode)) == if m.role == Assistant then Own(m, mode) else []
  {
    if m.content.Blocks? && m.role == User {
      RepliesForm(m.content.blocks, {}, []);
      UserMessageSides(m.content.blocks);
    } else {
      OwnIsOne(m, mode);
      SidesOfOne(Own(m, mode)[0]);
    }
  }

  lemma OwnIsOne(m: Message, mode: ReplayMode)
    requires !(m.content.Blocks? && m.role == User)
    ensures |Own(m, mode)| == 1 && (Own(m, mode)[0].AssistantMsg? <==> m.role == Assistant)
    ensures Own(m, mode) == [Own(m, mode)[0]] && (m.role == User ==> UserPart(m, mode) == Own(m, mode))
  {
  }

  /** The user message is one whose tool results are counted. */
  predicate Injects(p: Option<Pending>, m: Message) {
    m.role == User && m.content.Blocks? && p.Some? && p.value.remaining != {}
  }

  predicate KeepsPending(m: Message) {
    m.role == Assistant && !m.content.Blocks?
  }

  lemma StepForm(p: Option<Pending>, m: Message, mode: ReplayMode)
    requires Step(p, m, mode).Ok?
    ensures Step(p, m, mode).value.1 ==
      if KeepsPending(m) then Own(m, mode)
      else if Injects(p, m) then UserTurn(m.content.blocks, p.value.remaining, Deferred(p, mode)).out
      else Deferred(p, mode) + Own(m, mode)
  {
    OwnForm(m, mode);
  }

  /** One message leaves the user's side of the transcript as the message itself has it. */
  lemma StepUserSide(p: Option<Pending>, m: Message, mode: ReplayMode)
    requires Step(p, m, mode).Ok?
    ensures UserSide(Step(p, m, mode).value.1) == UserPart(m, mode)
  {
    StepForm(p, m, mode);
    OwnSides(m, mode);
    AfterDeferred(p, Own(m, mode), mode);
    if Injects(p, m) {
      RepliesForm(m.content.blocks, {}, []);
      DeferredSides(p, mode);
      UserTurnSides(m.content.blocks, p.value.remaining, Deferred(p, mode));
    }
  }

  /** Whatever is deferred and wherever it is put, the user's texts and tool results come out complete
      and in their order: the user's side of the transcript is the user's messages converted one by one. */
  lemma {:induction false} UserSideIsKept(p: Option<Pending>, messages: seq<Message>, mode: ReplayMode)
    requires ConvertFrom(p, messages, mode).Ok?
    ensures UserSide(ConvertFrom(p, messages, mode).value) == UserParts(messages, mode)
    decreases messages
  {
    if messages == [] {
      DeferredSides(p, mode);
    } else {
      var r := Step(p, messages[0], mode);
      StepUserSide(p, messages[0], mode);
      UserSideIsKept(r.value.0, messages[1..], mode);
      SidesAppend(r.value.1, ConvertFrom(r.value.0, messages[1..], mode).value);
    }
  }

  // Within one user message: results stay, in order, and the texts between two results are joined.

  function ResultsIn(blocks: seq<Block>): seq<Out> {
    if blocks == [] then []
    else
      var last := blocks[|blocks| - 1];
      ResultsIn(blocks[..|blocks| - 1]) + if last.ToolResult? then [ToolMsg(last.toolUseId, last.content)] else []
  }

  function TextsIn(blocks: seq<Block>): seq<string> {
    if blocks == [] then []
    else
      var last := blocks[|blocks| - 1];
      TextsIn(blocks[..|blocks| - 1]) + if last.Text? then [last.text] else []
  }

  function ToolMsgs(out: seq<Out>): seq<Out> {
    if out == [] then []
    else ToolMsgs(out[..|out| - 1]) + if out[|out| - 1].ToolMsg? then [out[|out| - 1]] else []
  }

  function UserTexts(out: seq<Out>): seq<string> {
    if out == [] then []
    else UserTexts(out[..|out| - 1]) + if out[|out| - 1].UserMsg? then [out[|out| - 1].content] else []
  }

  lemma {:induction false} JoinAppend(a: seq<string>, b: seq<string>, sep: string)
    requires a != [] && b != []
    ensures Join(a + b, sep) == Join(a, sep) + sep + Join(b, sep)
    decreases |a|
  {
    if |a| == 1 {
      assert a + b == [a[0]] + b;
      assert (a + b)[1..] == b;
    } else {
      assert (a + b)[1..] == a[1..] + b;
      JoinAppend(a[1..], b, sep);
      JoinRegroup(a[0], sep, Join(a[1..], sep), Join(b, sep));
    }
  }

  lemma JoinRegroup(a: string, sep: string, b: string, c: string)
    ensures a + sep + (b + sep + c) == a + sep + b + sep + c
  {
  }

  /** Text put out so far and text held back, as one. */
  function AllText(out: seq<Out>, texts: seq<string>): string {
    Join(UserTexts(out) + if texts == [] then [] else [Join(texts, "\n")], "\n")
  }

  lemma TextsOfOne(out: seq<Out>, m: Out)
    ensures UserTexts(out + [m]) == UserTexts(out) + if m.UserMsg? then [m.content] else []
    ensures ToolMsgs(out + [m]) == ToolMsgs(out) + if m.ToolMsg? then [m] else []
  {
    assert (out + [m])[..|out|] == out;
  }

  lemma JoinOne(s: string, sep: string)
    ensures Join([s], sep) == s
  {
  }

  /** Joining the groups of texts is joining all texts. */
  lemma OneMoreText(groups: seq<string>, texts: seq<string>, text: string)
    ensures Join(groups + [Join(texts + [text], "\n")], "\n")
         == if groups == [] && texts == [] then text
            else Join(groups + (if texts == [] then [] else [Join(texts, "\n")]), "\n") + "\n" + text
  {
    JoinOne(text, "\n");
    assert [] + [text] == [text];
    if texts != [] {
      JoinAppend(texts, [text], "\n");
      JoinOne(Join(texts, "\n"), "\n");
      JoinOne(Join(texts + [text], "\n"), "\n");
      if groups == [] {
        assert groups + [Join(texts + [text], "\n")] == [Join(texts + [text], "\n")];
        assert groups + [Join(texts, "\n")] == [Join(texts, "\n")];
      } else {
        JoinAppend(groups, [Join(texts, "\n")], "\n");
        JoinAppend(groups, [Join(texts + [text], "\n")], "\n");
        JoinRegroup(Join(groups, "\n"), "\n", Join(texts, "\n"), text);
      }
    } else {
      if groups == [] {
        assert groups + [text] == [text];
      } else {
        JoinAppend(groups, [text], "\n");
        assert groups + [] == groups;
      }
    }
  }

  /** The turn has put out these results, and put out or holds back these texts. */
  predicate HoldsAll(u: Turn, results: seq<Out>, texts: seq<string>) {
    && ToolMsgs(u.out) == results && AllText(u.out, u.texts) == Join(texts, "\n")
    && (texts == [] <==> UserTexts(u.out) == [] && u.texts == [])
  }

  lemma TextHeld(u: Turn, results: seq<Out>, texts: seq<string>, text: string)
    requires HoldsAll(u, results, texts)
    ensures HoldsAll(u.(texts := u.texts + [text]), results, texts + [text])
  {
    OneMoreText(UserTexts(u.out), u.texts, text);
    JoinOne(text, "\n");
    if texts == [] {
      assert texts + [text] == [text];
    } else {
      JoinAppend(texts, [text], "\n");
    }
  }

  lemma FlushHolds(u: Turn, results: seq<Out>, texts: seq<string>)
    requires HoldsAll(u, results, texts)
    ensures HoldsAll(Flush(u), results, texts) && Flush(u).texts == []
  {
    if u.texts != [] {
      TextsOfOne(u.out, UserMsg(Join(u.texts, "\n")));
      assert ToolMsgs(u.out) + [] == ToolMsgs(u.out);
      assert UserTexts(Flush(u).out) + [] == UserTexts(Flush(u).out);
    }
  }

  lemma ResultHeld(u: Turn, results: seq<Out>, texts: seq<string>, b: Block)
    requires HoldsAll(u, results, texts) && u.texts == [] && b.ToolResult?
    ensures HoldsAll(TakeBlock(u, b, []), results + [ToolMsg(b.toolUseId, b.content)], texts)
  {
    TextsOfOne(u.out, ToolMsg(b.toolUseId, b.content));
    var out := u.out + [ToolMsg(b.toolUseId, b.content)];
    assert out + [] == out && UserTexts(u.out) + [] == UserTexts(u.out);
  }

  lemma {:induction false} TurnKeepsAll(blocks: seq<Block>)
    ensures HoldsAll(TakeBlocks(Turn([], [], {}, 0), blocks, []), ResultsIn(blocks), TextsIn(blocks))
  {
    if blocks != [] {
      var front, b := blocks[..|blocks| - 1], blocks[|blocks| - 1];
      TurnKeepsAll(front);
      var u := TakeBlocks(Turn([], [], {}, 0), front, []);
      assert ResultsIn(front) + [] == ResultsIn(front) && TextsIn(front) + [] == TextsIn(front);
      if b.Text? {
        TextHeld(u, ResultsIn(front), TextsIn(front), b.text);
      } else if b.ToolResult? {
        FlushHolds(u, ResultsIn(front), TextsIn(front));
        FlushesFirst(u, b, []);
        ResultHeld(Flush(u), ResultsIn(front), TextsIn(front), b);
      }
    }
  }

  /** A user message keeps its tool results in order, and its texts, joined by line breaks. */
  lemma UserMessageKeepsAll(blocks: seq<Block>)
    ensures ToolMsgs(UserMessage(blocks)) == ResultsIn(blocks)
    ensures Join(UserTexts(UserMessage(blocks)), "\n") == Join(TextsIn(blocks), "\n")
  {
    TurnKeepsAll(blocks);
    var u := TakeBlocks(Turn([], [], {}, 0), blocks, []);
    FlushHolds(u, ResultsIn(blocks), TextsIn(blocks));
    assert UserTexts(Flush(u).out) + [] == UserTexts(Flush(u).out);
  }

  /** The blocks of a user message that have a form in the transcript. */
  function Spoken(blocks: seq<Block>): seq<Block> {
    if blocks == [] then []
    else
      var last := blocks[|blocks| - 1];
      Spoken(blocks[..|blocks| - 1]) + if last.Text? || last.ToolResult? then [last] else []
  }

  lemma {:induction false} OthersAreTakenSilently(t: Turn, blocks: seq<Block>, deferred: seq<Out>)
    ensures TakeBlocks(t, blocks, deferred) == TakeBlocks(t, Spoken(blocks), deferred)
  {
    if blocks != [] {
      var front, last := blocks[..|blocks| - 1], blocks[|blocks| - 1];
      OthersAreTakenSilently(t, front, deferred);
      if last.Text? || last.ToolResult? {
        assert (Spoken(front) + [last])[..|Spoken(front)|] == Spoken(front);
      } else {
        assert Spoken(front) + [] == Spoken(front);
      }
    }
  }

  /** Every other block of a user message, an image apart, is dropped without a word: it is converted as
      if it were not there, whatever is pending. */
  lemma OtherUserBlocksAreDropped(p: Option<Pending>, m: Message, mode: ReplayMode)
    requires m.role == User && m.content.Blocks? && !HasImage(m.content.blocks)
    ensures Step(p, m, mode) == Step(p, m.(content := Blocks(Spoken(m.content.blocks))), mode)
  {
    var blocks := m.content.blocks;
    OthersAreTakenSilently(Turn([], [], {}, 0), blocks, []);
    if p.Some? {
      OthersAreTakenSilently(Turn([], [], p.value.remaining, 0), blocks, Deferred(p, mode));
    }
    SpokenIsNoImage(blocks);
  }

  lemma {:induction false} SpokenIsNoImage(blocks: seq<Block>)
    ensures !HasImage(Spoken(blocks))
  {
    if blocks != [] {
      SpokenIsNoImage(blocks[..|blocks| - 1]);
    }
  }
}
