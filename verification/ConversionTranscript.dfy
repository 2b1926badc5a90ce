/** The whole transcript of a history, message by message, in terms of the messages before each. */
module ConversionTranscript {
  import opened Prelude
  import opened Conversion
  import opened ConversionReference
  import opened ConversionOrder
  import opened ConversionHistory
  import opened ConversionRepeats

  // ---------------------------------------------------------------------------------------------
  // What waits before message n
  // ---------------------------------------------------------------------------------------------

  /** The message says something after its tool calls. */
  predicate SaysMore(m: Message) {
    m.role == Assistant && m.content.Blocks? && AfterCalls(m.content.blocks) != []
  }

  /** The last message that says more, if since then there were only strings of the assistant and blocks
      of the user. */
  function Asker(messages: seq<Message>, n: nat): int
    requires n <= |messages|
  {
    if n == 0 then -1
    else if SaysMore(messages[n - 1]) then n - 1
    else if Carries(messages[n - 1]) then Asker(messages, n - 1)
    else -1
  }

  /** The user has sent blocks between messages j and n. */
  predicate UserSpoke(messages: seq<Message>, j: int, n: nat)
    requires 0 <= j < n <= |messages|
  {
    exists i | j < i < n :: messages[i].role == User && messages[i].content.Blocks?
  }

  /** The ids of the calls of message j that are not answered before message n. */
  function OpenIds(messages: seq<Message>, j: int, n: nat): set<string>
    requires 0 <= j < n <= |messages| && SaysMore(messages[j])
  {
    Awaited(messages[j].content.blocks) - AnsweredIds(Sent(messages[j + 1..n]))
  }

  predicate Waits(messages: seq<Message>, n: nat)
    requires n <= |messages|
  {
    var j := Asker(messages, n);
    0 <= j < n && SaysMore(messages[j]) && (UserSpoke(messages, j, n) ==> OpenIds(messages, j, n) != {})
  }

  /** What waits to be said before message n. */
  function Late(messages: seq<Message>, n: nat, mode: ReplayMode): seq<Out>
    requires n <= |messages|
  {
    if !Waits(messages, n) then []
    else
      var m := messages[Asker(messages, n)];
      LateSpeech(m.content.blocks, m.reasoning, mode)
  }

  // ---------------------------------------------------------------------------------------------
  // The transcript
  // ---------------------------------------------------------------------------------------------

  /** What message n puts into the transcript. A string of the assistant leaves the waiting text waiting; the
      user's blocks do while ids are open, and have it follow each result with which none is; anything
      else comes after it. */
  function Piece(messages: seq<Message>, n: nat, mode: ReplayMode): seq<Out>
    requires n < |messages|
  {
    var m := messages[n];
    if m.role == Assistant && !m.content.Blocks? then [Words(m, mode)]
    else if m.role == User && m.content.Blocks? && Waits(messages, n) && OpenIds(messages, Asker(messages, n), n) != {} then
      Replies(m.content.blocks, OpenIds(messages, Asker(messages, n), n), Late(messages, n, mode))
    else Late(messages, n, mode) + Own(m, mode)
  }

  function PiecesFrom(messages: seq<Message>, n: nat, mode: ReplayMode): seq<Out>
    requires n <= |messages|
    decreases |messages| - n
  {
    if n == |messages| then Late(messages, n, mode) else Piece(messages, n, mode) + PiecesFrom(messages, n + 1, mode)
  }

  // ---------------------------------------------------------------------------------------------
  // The converter's state says what waits
  // ---------------------------------------------------------------------------------------------

  lemma {:induction false} AskerSays(messages: seq<Message>, n: nat)
    requires n <= |messages|
    ensures var j := Asker(messages, n);
            -1 <= j < n && (j >= 0 ==> SaysMore(messages[j]) && forall i | j < i < n :: Carries(messages[i]))
  {
    if n > 0 {
      AskerSays(messages, n - 1);
    }
  }

  ghost predicate Matches(p: Option<Pending>, messages: seq<Message>, n: nat)
    requires n <= |messages|
  {
    if !Waits(messages, n) then p == None
    else
      var j := Asker(messages, n);
      p == Some(Pending(OpenIds(messages, j, n), AfterCalls(messages[j].content.blocks), Clean(messages[j].reasoning)))
  }

  lemma MatchesLate(p: Option<Pending>, messages: seq<Message>, n: nat, mode: ReplayMode)
    requires n <= |messages| && Matches(p, messages, n)
    ensures Deferred(p, mode) == Late(messages, n, mode)
    ensures p.Some? ==> p.value.deferred != []
  {
    if Waits(messages, n) {
      LeftForm(messages[Asker(messages, n)], mode);
    }
  }

  lemma SentSnoc(messages: seq<Message>, j: int, n: nat)
    requires 0 <= j < n < |messages|
    ensures Sent(messages[j + 1..n + 1]) == Sent(messages[j + 1..n]) + SentBy(messages[n])
  {
    var a, b := messages[j + 1..n], [messages[n]];
    assert messages[j + 1..n + 1] == a + b;
    SentAppend(a, b);
    assert b[1..] == [] && SentBy(messages[n]) + [] == SentBy(messages[n]);
  }

  function SentBy(m: Message): seq<Block> {
    if m.role == User && m.content.Blocks? then m.content.blocks else []
  }

  lemma {:induction false} SentAppend(a: seq<Message>, b: seq<Message>)
    ensures Sent(a + b) == Sent(a) + Sent(b)
  {
    if a == [] {
      assert a + b == b;
    } else {
      assert (a + b)[0] == a[0] && (a + b)[1..] == a[1..] + b;
      SentAppend(a[1..], b);
    }
  }

  lemma OpenSnoc(messages: seq<Message>, j: int, n: nat)
    requires 0 <= j < n < |messages| && SaysMore(messages[j])
    ensures OpenIds(messages, j, n + 1) == OpenIds(messages, j, n) - AnsweredIds(SentBy(messages[n]))
  {
    SentSnoc(messages, j, n);
    AnsweredAppend(Sent(messages[j + 1..n]), SentBy(messages[n]));
  }

  lemma OpenAtFirst(messages: seq<Message>, n: nat)
    requires n < |messages| && SaysMore(messages[n])
    ensures OpenIds(messages, n, n + 1) == Awaited(messages[n].content.blocks) && !UserSpoke(messages, n, n + 1)
  {
    assert messages[n + 1..n + 1] == [];
    assert AnsweredIds([]) == {};
  }

  /** A message that says more is what waits next. */
  lemma AskedNext(p: Option<Pending>, messages: seq<Message>, n: nat, mode: ReplayMode)
    requires n < |messages| && Matches(p, messages, n) && Step(p, messages[n], mode).Ok? && !Carries(messages[n])
    ensures Matches(Step(p, messages[n], mode).value.0, messages, n + 1)
  {
    StepLeaves(p, messages[n], mode);
    if SaysMore(messages[n]) {
      OpenAtFirst(messages, n);
    }
  }

  lemma StringNext(p: Option<Pending>, messages: seq<Message>, n: nat, mode: ReplayMode)
    requires n < |messages| && Matches(p, messages, n) && Step(p, messages[n], mode).Ok? && KeepsPending(messages[n])
    ensures Matches(Step(p, messages[n], mode).value.0, messages, n + 1)
  {
    AskerSays(messages, n);
    var j := Asker(messages, n);
    if j >= 0 {
      OpenSnoc(messages, j, n);
      assert AnsweredIds([]) == {};
      assert OpenIds(messages, j, n) - {} == OpenIds(messages, j, n);
      assert UserSpoke(messages, j, n + 1) <==> UserSpoke(messages, j, n);
    }
  }

  /** After blocks of the user, what waits is what is still open. */
  lemma SpokenTo(messages: seq<Message>, n: nat)
    requires n < |messages| && messages[n].role == User && messages[n].content.Blocks?
    ensures var j := Asker(messages, n);
            && Asker(messages, n + 1) == j
            && (0 <= j < n && SaysMore(messages[j]) ==>
                  && OpenIds(messages, j, n + 1) == OpenIds(messages, j, n) - AnsweredIds(messages[n].content.blocks)
                  && (Waits(messages, n + 1) <==> OpenIds(messages, j, n + 1) != {}))
            && (j < 0 ==> !Waits(messages, n + 1))
  {
    var j := Asker(messages, n);
    if 0 <= j < n && SaysMore(messages[j]) {
      OpenSnoc(messages, j, n);
      assert UserSpoke(messages, j, n + 1);
    }
  }

  lemma {:induction false} AllAnswered(remaining: set<string>, blocks: seq<Block>)
    ensures remaining != {} && remaining <= AnsweredIds(blocks) ==> exists i :: Completes(remaining, blocks, i)
  {
    if blocks == [] {
      assert AnsweredIds([]) == {};
    } else {
      var n, front := |blocks| - 1, blocks[..|blocks| - 1];
      assert blocks == front + [blocks[n]] && blocks[..n + 1] == blocks;
      if blocks[n].ToolResult? {
        assert Completes(remaining, blocks, n) <==> remaining <= AnsweredIds(blocks);
      } else {
        AnsweredSnoc(front, blocks[n]);
        AllAnswered(remaining, front);
        if i :| Completes(remaining, front, i) {
          CompletesEarlier(remaining, blocks, i);
        }
      }
    }
  }

  /** What the injecting message leaves: the same text, for the ids it does not answer. */
  lemma InjectionLeaves(p: Option<Pending>, m: Message, mode: ReplayMode)
    requires Injects(p, m) && Step(p, m, mode).Ok?
    ensures var open := p.value.remaining - AnsweredIds(m.content.blocks);
            Step(p, m, mode).value.0 == if open == {} then None else Some(p.value.(remaining := open))
  {
    AnswerLeavesOpen(p, m, mode);
    AnswerKeepsText(p, m, mode);
    NothingLeft(p.value.remaining, AnsweredIds(m.content.blocks));
    if p.value.remaining <= AnsweredIds(m.content.blocks) {
      AllAnswered(p.value.remaining, m.content.blocks);
      EmittedMeaning(m.content.blocks, p.value.remaining, Deferred(p, mode));
    }
  }

  lemma InjectedNext(p: Option<Pending>, messages: seq<Message>, n: nat, mode: ReplayMode)
    requires n < |messages| && Matches(p, messages, n) && Step(p, messages[n], mode).Ok? && Injects(p, messages[n])
    ensures Matches(Step(p, messages[n], mode).value.0, messages, n + 1)
  {
    SpokenTo(messages, n);
    InjectionLeaves(p, messages[n], mode);
  }

  lemma FlushedNext(p: Option<Pending>, messages: seq<Message>, n: nat, mode: ReplayMode)
    requires n < |messages| && Matches(p, messages, n) && Step(p, messages[n], mode).Ok? && !Injects(p, messages[n])
    requires messages[n].role == User && messages[n].content.Blocks?
    ensures Matches(Step(p, messages[n], mode).value.0, messages, n + 1)
  {
    SpokenTo(messages, n);
    AskerSays(messages, n);
    StepLeaves(p, messages[n], mode);
    var j := Asker(messages, n);
    if j >= 0 {
      assert OpenIds(messages, j, n) == {};
      assert {} - AnsweredIds(messages[n].content.blocks) == {};
    }
  }

  lemma AnswerKeepsText(p: Option<Pending>, m: Message, mode: ReplayMode)
    requires Injects(p, m) && Step(p, m, mode).Ok?
    ensures var q := Step(p, m, mode).value.0; q.Some? ==> q == Some(p.value.(remaining := q.value.remaining))
  {
  }

  lemma StepMatches(p: Option<Pending>, messages: seq<Message>, n: nat, mode: ReplayMode)
    requires n < |messages| && Matches(p, messages, n) && Step(p, messages[n], mode).Ok?
    ensures Matches(Step(p, messages[n], mode).value.0, messages, n + 1)
    ensures Step(p, messages[n], mode).value.1 == Piece(messages, n, mode)
  {
    var m := messages[n];
    if !Carries(m) {
      AskedNext(p, messages, n, mode);
    } else if KeepsPending(m) {
      StringNext(p, messages, n, mode);
    } else if Injects(p, m) {
      InjectedNext(p, messages, n, mode);
    } else {
      FlushedNext(p, messages, n, mode);
    }
    PieceForm(p, messages, n, mode);
  }

  lemma PieceForm(p: Option<Pending>, messages: seq<Message>, n: nat, mode: ReplayMode)
    requires n < |messages| && Matches(p, messages, n) && Step(p, messages[n], mode).Ok?
    ensures Step(p, messages[n], mode).value.1 == Piece(messages, n, mode)
  {
    MatchesLate(p, messages, n, mode);
    StepForm(p, messages[n], mode);
    if Injects(p, messages[n]) {
      RepliesForm(messages[n].content.blocks, p.value.remaining, Deferred(p, mode));
    }
  }

  lemma {:induction false} FromMessage(p: Option<Pending>, messages: seq<Message>, n: nat, mode: ReplayMode)
    requires n <= |messages| && Matches(p, messages, n) && ConvertFrom(p, messages[n..], mode).Ok?
    ensures ConvertFrom(p, messages[n..], mode).value == PiecesFrom(messages, n, mode)
    decreases |messages| - n
  {
    if n == |messages| {
      assert messages[n..] == [];
      MatchesLate(p, messages, n, mode);
    } else {
      assert messages[n..][0] == messages[n] && messages[n..][1..] == messages[n + 1..];
      StepMatches(p, messages, n, mode);
      FromMessage(Step(p, messages[n], mode).value.0, messages, n + 1, mode);
    }
  }

  /** For every history that is converted, in every mode: the transcript is what its messages say, one after
      the other, with what stands after tool calls put where its results, or the first message that does
      not wait for them, call for it. */
  lemma TranscriptIs(messages: seq<Message>, mode: ReplayMode)
    requires Convert(messages, mode).Ok?
    ensures Convert(messages, mode).value == PiecesFrom(messages, 0, mode)
  {
    assert messages[0..] == messages;
    FromMessage(None, messages, 0, mode);
  }
}
