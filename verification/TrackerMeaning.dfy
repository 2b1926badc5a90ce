/** What the tracker knows after any events, what its recovery sends, and what a client reads of a broken
    native response, spelled out event by event. */
module TrackerMeaning {
  import opened Prelude
  import opened SseEvents
  import opened StreamContract
  import opened SseBuilder
  import opened EmittedTracker
  import opened RemapperContract
  import Remapper = NativeRemapper
  import Native = NativeTransport

  /** The index that the event starts a block with, also if it is a start that is malformed otherwise. */
  function Begins(e: Event): Option<int> {
    match e
    case BlockStart(i, _) => Some(i)
    case Malformed(name, at) => if name == "content_block_start" then at else None
    case _ => None
  }

  function Ends(e: Event): Option<int> {
    match e
    case BlockStop(i) => Some(i)
    case Malformed(name, at) => if name == "content_block_stop" then at else None
    case _ => None
  }

  /** A start or a stop without an index makes the tracker raise. */
  predicate Breaks(e: Event) {
    e.Malformed? && e.at == None && (e.name == "content_block_start" || e.name == "content_block_stop")
  }

  predicate NoneBreaks(es: seq<Event>) {
    forall k | 0 <= k < |es| :: !Breaks(es[k])
  }

  predicate BegunOnce(es: seq<Event>) {
    forall p, q | 0 <= p < q < |es| && Begins(es[p]).Some? :: Begins(es[p]) != Begins(es[q])
  }

  /** m is the largest index that was begun, or -1. */
  ghost predicate IsLargest(es: seq<Event>, m: int) {
    && -1 <= m && (forall k | 0 <= k < |es| && Begins(es[k]).Some? :: Begins(es[k]).value <= m)
    && (m == -1 || exists k | 0 <= k < |es| :: Begins(es[k]) == Some(m))
  }

  function AllBut(s: seq<int>, i: int): seq<int> {
    if s == [] then [] else AllBut(s[..|s| - 1], i) + if s[|s| - 1] == i then [] else [s[|s| - 1]]
  }

  /** The indexes that were begun and not ended since, in their order. */
  function OpenAfter(es: seq<Event>): seq<int> {
    if es == [] then []
    else
      var open, e := OpenAfter(es[..|es| - 1]), es[|es| - 1];
      if Begins(e).Some? then open + [Begins(e).value]
      else if Ends(e).Some? then AllBut(open, Ends(e).value)
      else open
  }

  lemma {:induction false} ObserveSnoc(t: Track, es: seq<Event>, e: Event)
    ensures var (t1, ok) := ObserveAll(t, es);
            ObserveAll(t, es + [e]) ==
            if !ok then (t1, false) else match Observe(t1, e) case None => (t1, false) case Some(t2) => (t2, true)
    decreases es
  {
    if es == [] {
      assert [] + [e] == [e] && [e][1..] == [];
    } else {
      assert (es + [e])[0] == es[0] && (es + [e])[1..] == es[1..] + [e];
      match Observe(t, es[0])
      case None =>
      case Some(t1) => ObserveSnoc(t1, es[1..], e);
    }
  }

  lemma {:induction false} AllButNone(s: seq<int>, i: int)
    requires i !in s
    ensures AllBut(s, i) == s
  {
    if s != [] {
      AllButNone(s[..|s| - 1], i);
    }
  }

  lemma {:induction false} WithoutIsAllBut(s: seq<int>, i: int)
    requires Distinct(s)
    ensures Without(s, i) == AllBut(s, i)
  {
    if s != [] {
      var front, last := s[..|s| - 1], s[|s| - 1];
      assert s == front + [last];
      WithoutIsAllBut(front, i);
      WithoutSnoc(front, last, i);
      if i !in front {
        AllButNone(front, i);
      }
    }
  }

  lemma {:induction false} WithoutSnoc(s: seq<int>, last: int, i: int)
    ensures Without(s + [last], i) == if i in s then Without(s, i) + [last] else s + if last == i then [] else [last]
  {
    if s == [] {
      assert [] + [last] == [last] && [last][1..] == [] && [last] + [] == [last];
    } else {
      assert (s + [last])[0] == s[0] && (s + [last])[1..] == s[1..] + [last];
      assert s == [s[0]] + s[1..];
      WithoutSnoc(s[1..], last, i);
    }
  }

  lemma StoppedForm(t: Track, i: int)
    requires Distinct(t.open)
    ensures Stopped(t, i) == t.(open := AllBut(t.open, i))
  {
    WithoutIsAllBut(t.open, i);
    if t.open != [] && t.open[|t.open| - 1] == i {
      var front := t.open[..|t.open| - 1];
      assert t.open == front + [i];
      AllButNone(front, i);
    }
  }

  lemma {:induction false} AllButHas(s: seq<int>, i: int)
    ensures (forall j :: j in AllBut(s, i) <==> j in s && j != i) && (Distinct(s) ==> Distinct(AllBut(s, i)))
  {
    if s != [] {
      AllButHas(s[..|s| - 1], i);
      assert s == s[..|s| - 1] + [s[|s| - 1]];
      assert Distinct(s) ==> s[|s| - 1] !in s[..|s| - 1];
    }
  }

  lemma {:induction false} OpenWasBegun(es: seq<Event>)
    ensures forall i | i in OpenAfter(es) :: exists k | 0 <= k < |es| :: Begins(es[k]) == Some(i)
    ensures BegunOnce(es) ==> Distinct(OpenAfter(es))
  {
    if es != [] {
      var front, e := es[..|es| - 1], es[|es| - 1];
      OpenWasBegun(front);
      assert forall k | 0 <= k < |front| :: front[k] == es[k];
      if Ends(e).Some? {
        AllButHas(OpenAfter(front), Ends(e).value);
      }
      forall i | i in OpenAfter(es)
        ensures exists k | 0 <= k < |es| :: Begins(es[k]) == Some(i) {
        if i in OpenAfter(front) {
          var k :| 0 <= k < |front| && Begins(front[k]) == Some(i);
          assert Begins(es[k]) == Some(i);
        } else {
          assert Begins(es[|es| - 1]) == Some(i);
        }
      }
      if BegunOnce(es) {
        assert BegunOnce(front);
      }
    }
  }

  lemma LargestSnoc(es: seq<Event>, e: Event, m: int)
    requires IsLargest(es, m)
    ensures IsLargest(es + [e], if Begins(e).Some? then Max(m, Begins(e).value) else m)
  {
    var all := es + [e];
    assert forall k | 0 <= k < |es| :: all[k] == es[k];
    assert all[|es|] == e;
    if m != -1 {
      var k :| 0 <= k < |es| && Begins(es[k]) == Some(m);
      assert Begins(all[k]) == Some(m);
    }
  }

  lemma BreaksSnoc(es: seq<Event>, e: Event)
    ensures NoneBreaks(es + [e]) <==> NoneBreaks(es) && !Breaks(e)
  {
    var all := es + [e];
    assert forall k | 0 <= k < |es| :: all[k] == es[k];
    assert all[|es|] == e;
  }

  lemma ObserveForm(t: Track, e: Event)
    ensures Observe(t, e).None? <==> Breaks(e)
    ensures !Breaks(e) ==>
      Observe(t, e).value == if Begins(e).Some? then Track(t.open + [Begins(e).value], Max(t.maxIndex, Begins(e).value))
                             else if Ends(e).Some? then Stopped(t, Ends(e).value) else t
  {
  }

  lemma StackNext(es: seq<Event>, e: Event, t: Track)
    requires BegunOnce(es + [e]) && t.open == OpenAfter(es) && !Breaks(e)
    ensures Observe(t, e).value.open == OpenAfter(es + [e])
  {
    ObserveForm(t, e);
    assert (es + [e])[..|es|] == es;
    OnceBefore(es, e);
    OpenWasBegun(es);
    if Ends(e).Some? {
      StoppedForm(t, Ends(e).value);
    }
  }

  lemma OnceBefore(es: seq<Event>, e: Event)
    requires BegunOnce(es + [e])
    ensures BegunOnce(es)
  {
    assert forall k | 0 <= k < |es| :: (es + [e])[k] == es[k];
  }

  /** After any events at all: the tracker has raised exactly if one of them breaks it. Otherwise its index is
      the largest one begun, and, if no index was begun twice, its stack holds what is open. */
  lemma {:induction false} TrackerKnows(es: seq<Event>)
    ensures var (t, ok) := ObserveAll(UNUSED, es);
            && (ok <==> NoneBreaks(es))
            && (ok ==> IsLargest(es, t.maxIndex) && (BegunOnce(es) ==> t.open == OpenAfter(es)))
  {
    if es != [] {
      var front, e := es[..|es| - 1], es[|es| - 1];
      assert es == front + [e];
      TrackerKnows(front);
      ObserveSnoc(UNUSED, front, e);
      BreaksSnoc(front, e);
      var (t, ok) := ObserveAll(UNUSED, front);
      ObserveForm(t, e);
      if ok && !Breaks(e) {
        LargestSnoc(front, e, t.maxIndex);
        StoppedKeepsLargest(t, e);
        if BegunOnce(es) {
          OnceBefore(front, e);
          StackNext(front, e, t);
        }
      }
    }
  }

  lemma StoppedKeepsLargest(t: Track, e: Event)
    ensures Ends(e).Some? ==> Stopped(t, Ends(e).value).maxIndex == t.maxIndex
  {
  }

  // ---------------------------------------------------------------------------------------------
  // What is sent for a failure
  // ---------------------------------------------------------------------------------------------

  function InReverse(open: seq<int>): seq<Event> {
    seq(|open|, k requires 0 <= k < |open| => BlockStop(open[|open| - 1 - k]))
  }

  /** The message as a text block of its own, and the end. */
  function MessageAs(i: int, message: string): seq<Event> {
    [BlockStart(i, TextBlock("")), BlockDelta(i, TextDelta(message)), BlockStop(i), MessageDelta("end_turn", 1), MessageStop]
  }

  lemma {:induction false} ClosesInReverse(open: seq<int>)
    ensures EmittedTracker.Closes(open) == InReverse(open)
  {
    if open != [] {
      ClosesInReverse(open[..|open| - 1]);
    }
  }

  lemma RecoveryIs(t: Track, message: string)
    ensures Recovery(t, message) == InReverse(t.open) + MessageAs(t.maxIndex + 1, message)
  {
    ClosesInReverse(t.open);
    assert ErrorTail(t, message) == MessageAs(t.maxIndex + 1, message);
  }

  lemma ProviderErrorIs(messageId: string, message: string, sentAnyEvent: bool)
    ensures ProviderErrorEvents(messageId, message, sentAnyEvent)
         == (if sentAnyEvent then [] else [MessageStart(messageId)]) + MessageAs(0, message)
  {
    assert ErrorBlock(0, message) + [MessageDelta("end_turn", 1), MessageStop] == MessageAs(0, message);
    if !sentAnyEvent {
      assert [MessageStart(messageId)] + ErrorBlock(0, message) + [MessageDelta("end_turn", 1), MessageStop]
          == [MessageStart(messageId)] + (ErrorBlock(0, message) + [MessageDelta("end_turn", 1), MessageStop]);
    }
  }

  /** What the client reads after the events that were sent before a failure: if there are none, a whole
      message with the text; otherwise the stops of what is open, innermost first, and the text in a block
      above all others. */
  function Repair(sent: seq<Event>, above: int, messageId: string, message: string): seq<Event> {
    if sent == [] then [MessageStart(messageId)] + MessageAs(0, message)
    else InReverse(OpenAfter(sent)) + MessageAs(above, message)
  }

  lemma {:induction false} LegalIsOnce(c: Check, es: seq<Event>)
    requires Fold(c, es).Some?
    ensures NoneBreaks(es) && BegunOnce(es) && forall k | 0 <= k < |es| && Begins(es[k]).Some? :: Begins(es[k]).value !in c.seen
    decreases es
  {
    if es != [] {
      var c1, rest := Step(c, es[0]).value, es[1..];
      LegalIsOnce(c1, rest);
      assert forall k | 1 <= k < |es| :: es[k] == rest[k - 1];
      assert c.seen <= c1.seen;
    }
  }

  /** The text of a broken response is that of what was remapped, and of the failure events. */
  lemma BrokenText(upstream: seq<Event>, message: string, crash: string, messageId: string, env: Native.Env)
    requires Native.Sound(env) && ObeyAll(QUIET, upstream, env.thinking).Some?
    ensures var out := Remapper.Run(Remapper.INITIAL, upstream, env.thinking).1;
            var tail := if out != [] then Recovery(ObserveAll(UNUSED, out).0, message) else ProviderErrorEvents(messageId, message, false);
            && Fold(EMPTY, out).Some?
            && Native.ResponseText(upstream, Some(message), crash, messageId, env) == "" + Text(out, env.encode) + Text(tail, env.encode)
  {
    InitialSim();
    Native.RelayIsRun(Remapper.INITIAL, QUIET, EMPTY, [], Native.SILENT_LINK, upstream, env);
    RunKeeps(Remapper.INITIAL, QUIET, EMPTY, [], upstream, env.thinking);
  }

  lemma RecoveryRepairs(out: seq<Event>, t: Track, messageId: string, message: string)
    requires out != [] && t.open == OpenAfter(out)
    ensures Recovery(t, message) == Repair(out, t.maxIndex + 1, messageId, message)
  {
    RecoveryIs(t, message);
  }

  lemma RepairIs(out: seq<Event>, messageId: string, message: string)
    requires Fold(EMPTY, out).Some?
    ensures var track := ObserveAll(UNUSED, out).0;
            && IsLargest(out, track.maxIndex)
            && (if out != [] then Recovery(track, message) else ProviderErrorEvents(messageId, message, false))
               == Repair(out, track.maxIndex + 1, messageId, message)
  {
    var track := ObserveAll(UNUSED, out).0;
    LegalIsOnce(EMPTY, out);
    TrackerKnows(out);
    if out != [] {
      RecoveryRepairs(out, track, messageId, message);
    } else {
      ProviderErrorIs(messageId, message, false);
    }
  }

  /** When an upstream that obeys the protocol fails, at any point and in any chunking, the client reads what
      was remapped until then, and the repair of that with the message of the failure. */
  lemma BrokenResponseReads(upstream: seq<Event>, message: string, crash: string, messageId: string, env: Native.Env) returns (above: int)
    requires Native.Sound(env) && ObeyAll(QUIET, upstream, env.thinking).Some?
    ensures var out := Remapper.Run(Remapper.INITIAL, upstream, env.thinking).1;
            && IsLargest(out, above - 1)
            && Native.ReadBack(Native.ResponseText(upstream, Some(message), crash, messageId, env), env.decode)
               == out + Repair(out, above, messageId, message)
  {
    var out := Remapper.Run(Remapper.INITIAL, upstream, env.thinking).1;
    above := ObserveAll(UNUSED, out).0.maxIndex + 1;
    BrokenText(upstream, message, crash, messageId, env);
    RepairIs(out, messageId, message);
    Native.SentReadsBack(out, Repair(out, above, messageId, message), env);
  }
}
