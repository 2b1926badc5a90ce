/** Cross-provider fallback: candidates are tried in order, and nothing reaches the client before a
    candidate has shown content or completed. */
module Fallback {
  import opened Prelude
  import opened SseEvents
  import opened StreamContract
  import opened SseBuilder
  import opened EmittedTracker
  import opened ProviderAttempts

  /** content_block_start and content_block_delta prove that real output has started. */
  predicate IsContent(e: Event) {
    || e.BlockStart? || e.BlockDelta?
    || (e.Malformed? && (e.name == "content_block_start" || e.name == "content_block_delta"))
  }

  predicate Commits(es: seq<Event>) {
    exists k | 0 <= k < |es| :: IsContent(es[k])
  }

  function ModeOf(isLast: bool): OnOpenError {
    if isLast then Render else Raise
  }

  /** What the client receives, by recursion over the chain, and whether an exception escapes. */
  function Served<C>(chain: seq<C>, provider: (C, OnOpenError) -> Attempt, messageId: string): (seq<Event>, bool) {
    if chain == [] then ([], false)
    else
      var isLast := |chain| == 1;
      var a := provider(chain[0], ModeOf(isLast));
      match a.outcome
      case Completes => (a.events, false)
      case OtherException => (if Commits(a.events) then a.events else [], true)
      case ProviderError(message) =>
        if Commits(a.events) then (a.events + ProviderErrorEvents(messageId, message, true), false)
        else if isLast then (ProviderErrorEvents(messageId, message, false), false)
        else Served(chain[1..], provider, messageId)
  }

  /** The source's loop: hold back events until the first content event, then pass them through. */
  method DrainAttempt(a: Attempt) returns (out: seq<Event>, buffered: seq<Event>, committed: bool)
    ensures committed <==> Commits(a.events)
    ensures if committed then out == a.events && buffered == [] else out == [] && buffered == a.events
  {
    out, buffered, committed := [], [], false;
    for k := 0 to |a.events|
      invariant committed <==> Commits(a.events[..k])
      invariant if committed then out == a.events[..k] && buffered == [] else out == [] && buffered == a.events[..k]
    {
      var e := a.events[k];
      assert a.events[..k + 1] == a.events[..k] + [e];
      assert forall j | 0 <= j < k :: a.events[..k + 1][j] == a.events[..k][j];
      if committed {
        out := out + [e];
      } else if IsContent(e) {
        assert IsContent(a.events[..k + 1][k]);
        committed := true;
        out := out + buffered + [e];
        buffered := [];
      } else {
        buffered := buffered + [e];
      }
    }
    assert a.events[..|a.events|] == a.events;
  }

  method StreamWithFallback<C>(chain: seq<C>, provider: (C, OnOpenError) -> Attempt, messageId: string)
    returns (out: seq<Event>, raised: bool)
    ensures (out, raised) == Served(chain, provider, messageId)
  {
    for index := 0 to |chain|
      invariant Served(chain, provider, messageId) == Served(chain[index..], provider, messageId)
    {
      assert chain[index..][0] == chain[index] && chain[index..][1..] == chain[index + 1..];
      var isLast := index == |chain| - 1;
      var a := provider(chain[index], if isLast then Render else Raise);
      var sent, buffered, committed := DrainAttempt(a);
      match a.outcome {
        case Completes =>
          return if committed then sent else buffered, false;
        case OtherException =>
          return sent, true;
        case ProviderError(message) =>
          if committed || isLast {
            var tail := IterProviderStreamError(messageId, message, committed);
            assert !committed ==> sent == [] && sent + tail == tail;
            return sent + tail, false;
          }
      }
    }
    return [], false;
  }

  // ---------------------------------------------------------------------------------------------
  // A failure after content
  // ---------------------------------------------------------------------------------------------

  /** Legal so far, with nothing open and index 0 not used. */
  predicate CanTakeErrorBlock(events: seq<Event>, allowError: bool) {
    && HasMessageStart(events) && (allowError || !HasError(events))
    && Fold(EMPTY, events).Some?
    && Fold(EMPTY, events).value.open == map[]
    && 0 !in Fold(EMPTY, events).value.seen
  }

  /** The error block after a committed failure comes from a fresh builder and so has index 0. The
      client's stream meets the contract exactly when the interrupted stream was legal, had no open
      block and had not used index 0. */
  lemma CommittedFailure(events: seq<Event>, messageId: string, message: string, allowError: bool)
    ensures Contract(events + ProviderErrorEvents(messageId, message, true), allowError) <==> CanTakeErrorBlock(events, allowError)
  {
    var tail := ProviderErrorEvents(messageId, message, true);
    var all := events + tail;
    assert tail == ErrorBlock(0, message) + [MessageDelta("end_turn", 1), MessageStop];
    assert forall k | 0 <= k < |events| :: all[k] == events[k];
    assert forall k | |events| <= k < |all| :: all[k] == tail[k - |events|];
    assert HasMessageStart(all) <==> HasMessageStart(events);
    assert HasError(all) <==> HasError(events);
    FoldAppend(EMPTY, events, tail);
    if Fold(EMPTY, events).Some? {
      var c := Fold(EMPTY, events).value;
      if 0 !in c.open && 0 !in c.seen {
        ErrorTailIsLegal(c, 0, message);
        assert 0 in c.seen + {0};
      } else {
        assert tail[0] == BlockStart(0, TextBlock(""));
        OpenWasSeen(EMPTY, events);
      }
    }
  }

  /** Hence a stream that numbers its blocks from 0, as every transport does, is always broken by it. */
  lemma CommittedFailureBreaks(events: seq<Event>, messageId: string, message: string, allowError: bool)
    requires exists k | 0 <= k < |events| :: events[k].BlockStart? && events[k].index == 0
    ensures !Contract(events + ProviderErrorEvents(messageId, message, true), allowError)
  {
    CommittedFailure(events, messageId, message, allowError);
    if Fold(EMPTY, events).Some? {
      FoldMeaning(events);
      var k :| 0 <= k < |events| && events[k].BlockStart? && events[k].index == 0;
      assert events[k].index in Fold(EMPTY, events).value.seen;
    }
  }

  // ---------------------------------------------------------------------------------------------
  // The first candidate that does not give way
  // ---------------------------------------------------------------------------------------------

  function AttemptAt<C>(chain: seq<C>, provider: (C, OnOpenError) -> Attempt, k: int): Attempt
    requires 0 <= k < |chain|
  {
    provider(chain[k], if k == |chain| - 1 then Render else Raise)
  }

  /** One of the events starts a block or adds to one, well-formed or not. */
  predicate HasContent(es: seq<Event>) {
    exists k | 0 <= k < |es| ::
      || es[k].BlockStart? || es[k].BlockDelta?
      || (es[k].Malformed? && (es[k].name == "content_block_start" || es[k].name == "content_block_delta"))
  }

  lemma ContentCommits(es: seq<Event>)
    ensures Commits(es) <==> HasContent(es)
  {
    if k :| 0 <= k < |es| && IsContent(es[k]) {
      assert HasContent(es);
    }
  }

  /** A candidate gives way to the next one, if there is one, by a ProviderError before any content. */
  predicate GivesWay<C>(chain: seq<C>, provider: (C, OnOpenError) -> Attempt, k: int)
    requires 0 <= k < |chain|
  {
    k < |chain| - 1 && AttemptAt(chain, provider, k).outcome.ProviderError? && !HasContent(AttemptAt(chain, provider, k).events)
  }

  /** Candidate k does not, and all before it do. */
  predicate Stays<C>(chain: seq<C>, provider: (C, OnOpenError) -> Attempt, k: int) {
    0 <= k < |chain| && !GivesWay(chain, provider, k) && forall j | 0 <= j < k :: GivesWay(chain, provider, j)
  }

  /** What a candidate that does not give way leaves the client with: its stream, verbatim; after an
      error the stream and an error block, or only a fresh error message if it held no content yet. */
  function Left(a: Attempt, messageId: string): (seq<Event>, bool) {
    match a.outcome
    case Completes => (a.events, false)
    case OtherException => (if HasContent(a.events) then a.events else [], true)
    case ProviderError(message) =>
      ((if HasContent(a.events) then a.events else []) + ProviderErrorEvents(messageId, message, HasContent(a.events)), false)
  }

  lemma {:induction false} SomeoneStays<C>(chain: seq<C>, provider: (C, OnOpenError) -> Attempt, from: nat) returns (k: int)
    requires from < |chain| && forall j | 0 <= j < from :: GivesWay(chain, provider, j)
    ensures Stays(chain, provider, k)
    decreases |chain| - from
  {
    if GivesWay(chain, provider, from) {
      k := SomeoneStays(chain, provider, from + 1);
    } else {
      k := from;
    }
  }

  /** The client gets what the first candidate that does not give way leaves, and nothing of the
      candidates before it, whatever any of them does. */
  lemma {:induction false} FirstToStayIsServed<C>(chain: seq<C>, provider: (C, OnOpenError) -> Attempt, messageId: string, k: int)
    requires Stays(chain, provider, k)
    ensures Served(chain, provider, messageId) == Left(AttemptAt(chain, provider, k), messageId)
    decreases chain
  {
    ContentCommits(AttemptAt(chain, provider, 0).events);
    if k == 0 {
      var a := AttemptAt(chain, provider, 0);
      if a.outcome.ProviderError? {
        assert [] + ProviderErrorEvents(messageId, a.outcome.message, false) == ProviderErrorEvents(messageId, a.outcome.message, false);
      }
    } else {
      var rest := chain[1..];
      assert GivesWay(chain, provider, 0);
      forall j | 0 <= j < |rest|
        ensures AttemptAt(rest, provider, j) == AttemptAt(chain, provider, j + 1)
        ensures GivesWay(rest, provider, j) <==> GivesWay(chain, provider, j + 1) {
      }
      FirstToStayIsServed(rest, provider, messageId, k - 1);
    }
  }

  /** A candidate whose ending leaves the client with a contract stream. */
  predicate EndsWell(a: Attempt, allowError: bool) {
    match a.outcome
    case Completes => Contract(a.events, allowError)
    case OtherException => false
    case ProviderError(_) => HasContent(a.events) ==> CanTakeErrorBlock(a.events, allowError)
  }

  /** For every chain and whatever its candidates do: the client gets a contract stream, and no
      exception, if and only if the first candidate that does not give way ends well. */
  lemma FallbackMeetsContractIff<C>(chain: seq<C>, provider: (C, OnOpenError) -> Attempt, messageId: string, allowError: bool, k: int)
    requires Stays(chain, provider, k)
    ensures var (out, raised) := Served(chain, provider, messageId);
            Contract(out, allowError) && !raised <==> EndsWell(AttemptAt(chain, provider, k), allowError)
  {
    var a := AttemptAt(chain, provider, k);
    FirstToStayIsServed(chain, provider, messageId, k);
    if a.outcome.ProviderError? {
      if HasContent(a.events) {
        CommittedFailure(a.events, messageId, a.outcome.message, allowError);
      } else {
        FreshErrorMeetsContract(messageId, a.outcome.message, allowError);
        assert [] + ProviderErrorEvents(messageId, a.outcome.message, false) == ProviderErrorEvents(messageId, a.outcome.message, false);
      }
    }
  }
}
