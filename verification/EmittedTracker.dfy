/** The tracker of emitted events, and the recovery it makes possible when the upstream fails in the
    middle of a stream. */
module EmittedTracker {
  import opened Prelude
  import opened SseEvents
  import opened StreamContract
  import opened SseWire
  import opened SseBuilder

  /** open is the stack of started and unstopped indexes, as the tracker sees them. (The message id
      and model it also records are not part of any event it emits.) */
  datatype Track = Track(open: seq<int>, maxIndex: int)

  const UNUSED: Track := Track([], -1)

  function Max(a: int, b: int): int {
    if a < b then b else a
  }

  function Started(t: Track, i: int): Track {
    Track(t.open + [i], Max(t.maxIndex, i))
  }

  function Without(s: seq<int>, i: int): seq<int> {
    if s == [] then [] else if s[0] == i then s[1..] else [s[0]] + Without(s[1..], i)
  }

  /** Pop when the index is on top, otherwise drop its first occurrence if there is one. */
  function Stopped(t: Track, i: int): Track {
    if t.open != [] && t.open[|t.open| - 1] == i then t.(open := t.open[..|t.open| - 1])
    else t.(open := Without(t.open, i))
  }

  /** None is the assertion error for a start or stop without an integer index. */
  function Observe(t: Track, e: Event): Option<Track> {
    match e
    case BlockStart(i, _) => Some(Started(t, i))
    case BlockStop(i) => Some(Stopped(t, i))
    case Malformed(name, at) =>
      if name != "content_block_start" && name != "content_block_stop" then Some(t)
      else if at.None? then None
      else if name == "content_block_start" then Some(Started(t, at.value))
      else Some(Stopped(t, at.value))
    case _ => Some(t)
  }

  /** Observing stops at the first error; the flag tells whether there was none. */
  function ObserveAll(t: Track, es: seq<Event>): (Track, bool)
    decreases es
  {
    if es == [] then (t, true)
    else
      match Observe(t, es[0])
      case None => (t, false)
      case Some(t1) => ObserveAll(t1, es[1..])
  }

  function Decode(raw: seq<RawEvent>, decode: RawEvent -> Event): seq<Event> {
    seq(|raw|, i requires 0 <= i < |raw| => decode(raw[i]))
  }

  function FrameEvents(frame: string, decode: RawEvent -> Event): seq<Event> {
    if Strip(frame) == "" then [] else Decode(ReadLines(NO_FIELDS, SplitLines(frame)), decode)
  }

  /** The reading of one frame, as a parameter of the buffering. */
  function Reader(decode: RawEvent -> Event): string -> seq<Event> {
    (frame: string) => FrameEvents(frame, decode)
  }

  /** Take complete frames off the buffer: what stays buffered, the track, and whether no frame
      raised. */
  function Drain(buf: string, t: Track, read: string -> seq<Event>): (string, Track, bool)
    decreases |buf|
  {
    var sep := Find(buf, "\n\n");
    if sep < 0 then (buf, t, true)
    else
      var (t1, ok) := ObserveAll(t, read(buf[..sep]));
      if ok then Drain(buf[sep + 2..], t1, read) else (buf[sep + 2..], t1, false)
  }

  lemma DrainFrame(buf: string, t: Track, decode: RawEvent -> Event)
    requires Find(buf, "\n\n") >= 0
    ensures var sep := Find(buf, "\n\n");
            if Strip(buf[..sep]) == "" then Drain(buf, t, Reader(decode)) == Drain(buf[sep + 2..], t, Reader(decode))
            else
              var (t1, ok) := ObserveAll(t, FrameEvents(buf[..sep], decode));
              Drain(buf, t, Reader(decode)) == if ok then Drain(buf[sep + 2..], t1, Reader(decode)) else (buf[sep + 2..], t1, false)
  {
  }

  /** The stops for what is open, innermost first. */
  function Closes(open: seq<int>): seq<Event> {
    if open == [] then [] else [BlockStop(open[|open| - 1])] + Closes(open[..|open| - 1])
  }

  function ErrorTail(t: Track, message: string): seq<Event> {
    ErrorBlock(t.maxIndex + 1, message) + [MessageDelta("end_turn", 1), MessageStop]
  }

  function Recovery(t: Track, message: string): seq<Event> {
    Closes(t.open) + ErrorTail(t, message)
  }

  class EmittedNativeSseTracker {
    const decode: RawEvent -> Event
    var buf: string
    var openStack: seq<int>
    var maxIndex: int

    function View(): Track
      reads this
    {
      Track(openStack, maxIndex)
    }

    constructor (decode: RawEvent -> Event)
      ensures this.decode == decode && buf == "" && View() == UNUSED
    {
      this.decode := decode;
      buf, openStack, maxIndex := "", [], -1;
    }

    method Feed(chunk: string) returns (ok: bool)
      modifies this
      ensures (buf, View(), ok) == Drain(old(buf) + chunk, old(View()), Reader(decode))
    {
      buf := buf + chunk;
      ghost var whole := Drain(buf, View(), Reader(decode));
      var sep := Find(buf, "\n\n");
      while sep >= 0
        invariant sep == Find(buf, "\n\n")
        invariant Drain(buf, View(), Reader(decode)) == whole
        decreases |buf|
      {
        ok := TakeFrame(sep);
        if !ok {
          return;
        }
        sep := Find(buf, "\n\n");
      }
      ok := true;
    }

    method TakeFrame(sep: int) returns (ok: bool)
      requires sep == Find(buf, "\n\n") && sep >= 0
      modifies this
      ensures |buf| < |old(buf)|
      ensures Drain(old(buf), old(View()), Reader(decode)) == if ok then Drain(buf, View(), Reader(decode)) else (buf, View(), false)
    {
      DrainFrame(buf, View(), decode);
      var frame := buf[..sep];
      buf := buf[sep + 2..];
      ok := true;
      if Strip(frame) != "" {
        ok := ObserveFrame(frame);
      }
    }

    method ObserveFrame(frame: string) returns (ok: bool)
      requires Strip(frame) != ""
      modifies this`openStack, this`maxIndex
      ensures (View(), ok) == ObserveAll(old(View()), FrameEvents(frame, decode))
    {
      var raw := ParseSseLines(SplitLines(frame));
      ghost var events := Decode(raw, decode);
      ghost var whole := ObserveAll(View(), events);
      for k := 0 to |raw|
        invariant ObserveAll(View(), events[k..]) == whole
      {
        assert events[k..][0] == events[k] && events[k..][1..] == events[k + 1..];
        ok := ObserveOne(decode(raw[k]));
        if !ok {
          return;
        }
      }
      ok := true;
    }

    method ObserveOne(e: Event) returns (ok: bool)
      modifies this`openStack, this`maxIndex
      ensures if ok then Observe(old(View()), e) == Some(View())
              else Observe(old(View()), e) == None && View() == old(View())
    {
      ok := true;
      match e {
        case BlockStart(i, _) => NoteStart(i);
        case BlockStop(i) => NoteStop(i);
        case Malformed(name, at) =>
          if name == "content_block_start" || name == "content_block_stop" {
            if at == None {
              return false;
            }
            if name == "content_block_start" {
              NoteStart(at.value);
            } else {
              NoteStop(at.value);
            }
          }
        case _ =>
      }
    }

    method NoteStart(i: int)
      modifies this`openStack, this`maxIndex
      ensures View() == Started(old(View()), i)
    {
      if maxIndex < i {
        maxIndex := i;
      }
      openStack := openStack + [i];
    }

    method NoteStop(i: int)
      modifies this`openStack
      ensures View() == Stopped(old(View()), i)
    {
      if openStack != [] && openStack[|openStack| - 1] == i {
        openStack := openStack[..|openStack| - 1];
      } else {
        openStack := Without(openStack, i);
      }
    }

    method IterCloseUnclosedBlocks() returns (out: seq<Event>)
      modifies this`openStack
      ensures openStack == [] && out == Closes(old(openStack))
    {
      out := [];
      while openStack != []
        invariant out + Closes(openStack) == Closes(old(openStack))
        decreases |openStack|
      {
        var i := openStack[|openStack| - 1];
        openStack := openStack[..|openStack| - 1];
        Regroup(out, [BlockStop(i)], Closes(openStack));
        out := out + [BlockStop(i)];
      }
      assert out + [] == out;
    }

    method IterMidstreamErrorTail(message: string) returns (out: seq<Event>)
      ensures out == ErrorTail(View(), message)
    {
      var sse := new SSEBuilder();
      sse.nextIndex := maxIndex + 1;
      out := sse.EmitErrorBlock(message);
      out := out + [MessageDelta("end_turn", 1), MessageStop];
    }
  }

  lemma Regroup(a: seq<Event>, b: seq<Event>, c: seq<Event>)
    ensures a + (b + c) == a + b + c
  {
  }

  // ---------------------------------------------------------------------------------------------
  // How the text is cut does not matter
  // ---------------------------------------------------------------------------------------------

  lemma FindInPrefix(a: string, b: string, t: string)
    requires t != "" && Find(a, t) >= 0
    ensures Find(a + b, t) == Find(a, t)
  {
    var k, all := Find(a, t), a + b;
    FindFirst(a, t);
    FindFirst(all, t);
    assert OccursAt(all, t, k) by { assert all[k..k + |t|] == a[k..k + |t|]; }
    forall j | 0 <= j < k ensures !OccursAt(all, t, j) {
      assert !OccursAt(a, t, j);
      assert all[j..j + |t|] == a[j..j + |t|];
    }
  }

  /** Draining a text in one go, or its first part and then the remainder with the second part. */
  lemma {:induction false} DrainInTwo(a: string, b: string, t: Track, read: string -> seq<Event>)
    ensures var (rest, t1, ok) := Drain(a, t, read);
            if ok then Drain(a + b, t, read) == Drain(rest + b, t1, read)
            else Drain(a + b, t, read) == (rest + b, t1, false)
    decreases |a|
  {
    var sep := Find(a, "\n\n");
    if sep >= 0 {
      FindInPrefix(a, b, "\n\n");
      assert (a + b)[..sep] == a[..sep] && (a + b)[sep + 2..] == a[sep + 2..] + b;
      var (t1, ok) := ObserveAll(t, read(a[..sep]));
      if ok {
        DrainInTwo(a[sep + 2..], b, t1, read);
      }
    }
  }

  /** Feeding piece by piece; feeding stops when a frame raises. */
  function FeedAll(buf: string, t: Track, pieces: seq<string>, read: string -> seq<Event>): (string, Track, bool)
    decreases pieces
  {
    if pieces == [] then (buf, t, true)
    else
      var (buf1, t1, ok) := Drain(buf + pieces[0], t, read);
      if ok then FeedAll(buf1, t1, pieces[1..], read) else (buf1, t1, false)
  }

  /** The buffer holds no complete frame between feeds. */
  lemma {:induction false} DrainLeavesNoFrame(buf: string, t: Track, read: string -> seq<Event>)
    ensures var (rest, t1, ok) := Drain(buf, t, read); ok ==> Drain(rest, t1, read) == (rest, t1, true)
    decreases |buf|
  {
    var sep := Find(buf, "\n\n");
    if sep >= 0 {
      var (t1, ok) := ObserveAll(t, read(buf[..sep]));
      if ok {
        DrainLeavesNoFrame(buf[sep + 2..], t1, read);
      }
    }
  }

  lemma {:induction false} FeedAllIsDrain(buf: string, t: Track, pieces: seq<string>, read: string -> seq<Event>)
    requires Drain(buf, t, read) == (buf, t, true)
    ensures var (rest, t1, ok) := FeedAll(buf, t, pieces, read);
            var (rest', t', ok') := Drain(buf + Concat(pieces), t, read);
            t1 == t' && ok == ok' && (ok ==> rest == rest')
    decreases pieces
  {
    if pieces == [] {
      assert buf + Concat(pieces) == buf;
    } else {
      var later := Concat(pieces[1..]);
      assert buf + Concat(pieces) == buf + pieces[0] + later;
      DrainInTwo(buf + pieces[0], later, t, read);
      DrainLeavesNoFrame(buf + pieces[0], t, read);
      var (buf1, t1, ok) := Drain(buf + pieces[0], t, read);
      if ok {
        FeedAllIsDrain(buf1, t1, pieces[1..], read);
      }
    }
  }

  /** The open stack, the maximum index and whether a frame raised depend only on the text fed in
      total, not on how it is cut; so does the unconsumed remainder while nothing raised. */
  lemma CutsDoNotMatter(pieces: seq<string>, other: seq<string>, read: string -> seq<Event>)
    requires Concat(pieces) == Concat(other)
    ensures var (rest, t, ok) := FeedAll("", UNUSED, pieces, read);
            var (rest', t', ok') := FeedAll("", UNUSED, other, read);
            t == t' && ok == ok' && (ok ==> rest == rest')
  {
    FeedAllIsDrain("", UNUSED, pieces, read);
    FeedAllIsDrain("", UNUSED, other, read);
  }

  // ---------------------------------------------------------------------------------------------
  // Emitted events in any cut
  // ---------------------------------------------------------------------------------------------

  /** JSON encoding as the source uses it: each event has one clean name and one clean data line,
      and decoding them gives the event back. */
  ghost predicate Faithful(encode: Event -> RawEvent, decode: RawEvent -> Event) {
    forall e: Event :: Clean(encode(e)) && decode(encode(e)) == e
  }

  function Text(es: seq<Event>, encode: Event -> RawEvent): string {
    if es == [] then "" else Format(encode(es[0])) + Text(es[1..], encode)
  }

  lemma FrameOfEvent(e: Event, encode: Event -> RawEvent, decode: RawEvent -> Event)
    requires Faithful(encode, decode)
    ensures FrameEvents(FrameText(encode(e)), decode) == [e]
  {
    var raw := encode(e);
    FrameRoundTrip(raw);
    NotBlank(raw);
    DecodeOne(raw, decode);
  }

  lemma DecodeOne(raw: RawEvent, decode: RawEvent -> Event)
    ensures Decode([raw], decode) == [decode(raw)]
  {
  }

  lemma NotBlank(raw: RawEvent)
    requires Clean(raw)
    ensures Strip(FrameText(raw)) != ""
  {
    var text := FrameText(raw);
    assert text[0] == 'e' && !IsSpace(text[0]);
    assert StripLeft(text) == text;
    assert text[|text| - 1] == raw.data[|raw.data| - 1];
    assert StripRight(text) == text;
  }

  lemma DrainOneEvent(e: Event, later: string, t: Track, encode: Event -> RawEvent, decode: RawEvent -> Event)
    requires Faithful(encode, decode)
    ensures Drain(Format(encode(e)) + later, t, Reader(decode))
         == match Observe(t, e) { case None => (later, t, false) case Some(t1) => Drain(later, t1, Reader(decode)) }
  {
    var raw := encode(e);
    FirstBlankLine(raw, later);
    FrameCut(FrameText(raw), later);
    FrameOfEvent(e, encode, decode);
    ObserveJust(t, e);
  }

  lemma FrameCut(frame: string, later: string)
    ensures var text := frame + "\n\n" + later; text[..|frame|] == frame && text[|frame| + 2..] == later
  {
  }

  lemma ObserveJust(t: Track, e: Event)
    ensures ObserveAll(t, [e]) == match Observe(t, e) { case None => (t, false) case Some(t1) => (t1, true) }
  {
    assert [e][0] == e && [e][1..] == [];
  }

  /** Written out and drained, events are observed one by one and nothing stays buffered. */
  lemma {:induction false} TextIsObserved(es: seq<Event>, t: Track, encode: Event -> RawEvent, decode: RawEvent -> Event)
    requires Faithful(encode, decode)
    ensures var (rest, t1, ok) := Drain(Text(es, encode), t, Reader(decode));
            && (t1, ok) == ObserveAll(t, es)
            && (ok ==> rest == "")
    decreases es
  {
    if es != [] {
      DrainOneEvent(es[0], Text(es[1..], encode), t, encode, decode);
      match Observe(t, es[0]) {
        case None =>
        case Some(t1) => TextIsObserved(es[1..], t1, encode, decode);
      }
    }
  }

  // ---------------------------------------------------------------------------------------------
  // Recovery
  // ---------------------------------------------------------------------------------------------

  /** The stack is a permutation of the open blocks, and every started index is at most maxIndex. */
  ghost predicate Follows(t: Track, c: Check) {
    && Distinct(t.open)
    && (forall i :: i in t.open <==> i in c.open)
    && (forall i | i in c.seen :: i <= t.maxIndex)
    && (forall i | i in c.open :: i in c.seen)
  }

  lemma {:induction false} WithoutRemoves(s: seq<int>, i: int)
    requires Distinct(s)
    ensures Distinct(Without(s, i))
    ensures forall j :: j in Without(s, i) <==> j in s && j != i
  {
    if s != [] {
      assert s == [s[0]] + s[1..];
      assert s[0] !in s[1..];
      WithoutRemoves(s[1..], i);
    }
  }

  lemma StartFollows(t: Track, c: Check, e: Event)
    requires Follows(t, c) && e.BlockStart? && Step(c, e).Some?
    ensures Observe(t, e).Some? && Follows(Observe(t, e).value, Step(c, e).value)
  {
    assert e.index !in t.open;
  }

  lemma PopRemoves(s: seq<int>)
    requires Distinct(s) && s != []
    ensures Distinct(s[..|s| - 1])
    ensures forall j :: j in s[..|s| - 1] <==> j in s && j != s[|s| - 1]
  {
    var last := |s| - 1;
    assert s == s[..last] + [s[last]];
  }

  lemma StoppedRemoves(t: Track, i: int)
    requires Distinct(t.open) && i in t.open
    ensures Distinct(Stopped(t, i).open) && Stopped(t, i).maxIndex == t.maxIndex
    ensures forall j :: j in Stopped(t, i).open <==> j in t.open && j != i
  {
    WithoutRemoves(t.open, i);
    PopRemoves(t.open);
  }

  lemma StopFollows(t: Track, c: Check, i: int)
    requires Follows(t, c) && i in c.open
    ensures Observe(t, BlockStop(i)).Some? && Follows(Observe(t, BlockStop(i)).value, Step(c, BlockStop(i)).value)
  {
    StoppedRemoves(t, i);
  }

  lemma ObserveFollows(t: Track, c: Check, e: Event)
    requires Follows(t, c) && Step(c, e).Some?
    ensures Observe(t, e).Some? && Follows(Observe(t, e).value, Step(c, e).value)
  {
    match e {
      case BlockStart(i, _) => StartFollows(t, c, e);
      case BlockStop(i) => StopFollows(t, c, i);
      case _ =>
    }
  }

  lemma {:induction false} LegalIsObserved(t: Track, c: Check, es: seq<Event>)
    requires Follows(t, c) && Fold(c, es).Some?
    ensures ObserveAll(t, es).1 && Follows(ObserveAll(t, es).0, Fold(c, es).value)
    decreases es
  {
    if es != [] {
      ObserveFollows(t, c, es[0]);
      LegalIsObserved(Observe(t, es[0]).value, Step(c, es[0]).value, es[1..]);
    }
  }

  lemma {:induction false} ClosesAreLegal(t: Track, c: Check)
    requires Follows(t, c)
    ensures Fold(c, Closes(t.open)) == Some(Check(map[], c.seen))
    decreases |t.open|
  {
    if t.open == [] {
      SameMap(c.open, map[]);
    } else {
      var last := |t.open| - 1;
      var i := t.open[last];
      assert t.open == t.open[..last] + [i];
      var c1 := Step(c, BlockStop(i)).value;
      FoldOne(c, BlockStop(i));
      ClosesAreLegal(t.(open := t.open[..last]), c1);
      FoldAppend(c, [BlockStop(i)], Closes(t.open[..last]));
    }
  }

  /** An error block at an unused index, and the end of the message. */
  lemma ErrorTailIsLegal(c: Check, i: int, message: string)
    requires i !in c.open && i !in c.seen
    ensures var tail := ErrorBlock(i, message) + [MessageDelta("end_turn", 1), MessageStop];
            Fold(c, tail) == Some(Check(c.open, c.seen + {i}))
  {
    var start, delta, stop := BlockStart(i, TextBlock("")), BlockDelta(i, TextDelta(message)), BlockStop(i);
    var end := [MessageDelta("end_turn", 1), MessageStop];
    var c1 := Check(c.open[i := TextOpen], c.seen + {i});
    var c2 := Check(c.open, c.seen + {i});
    assert ErrorBlock(i, message) + end == [start] + ([delta] + ([stop] + end));
    FoldAppend(c, [start], [delta] + ([stop] + end));
    FoldOne(c, start);
    FoldAppend(c1, [delta], [stop] + end);
    FoldOne(c1, delta);
    FoldAppend(c1, [stop], end);
    FoldOne(c1, stop);
    SameMap(c1.open - {i}, c.open);
    assert end[1..] == [MessageStop];
    FoldOne(c2, MessageStop);
  }

  /** The terminal error stream of a provider that sent nothing. */
  lemma FreshErrorMeetsContract(messageId: string, message: string, allowError: bool)
    ensures Contract(ProviderErrorEvents(messageId, message, false), allowError)
  {
    var es := ProviderErrorEvents(messageId, message, false);
    var tail := ErrorBlock(0, message) + [MessageDelta("end_turn", 1), MessageStop];
    assert es == [MessageStart(messageId)] + tail;
    FoldAppend(EMPTY, [MessageStart(messageId)], tail);
    FoldOne(EMPTY, MessageStart(messageId));
    ErrorTailIsLegal(EMPTY, 0, message);
    assert es[0].MessageStart?;
    assert 0 in EMPTY.seen + {0};
  }

  lemma {:induction false} ClosesAreStops(open: seq<int>)
    ensures forall k | 0 <= k < |Closes(open)| :: Closes(open)[k].BlockStop?
  {
    if open != [] {
      ClosesAreStops(open[..|open| - 1]);
    }
  }

  /** Cut any stream anywhere between two events and append the tracker's recovery: the result meets
      the whole contract exactly when what was sent before the cut was legal so far and contained a
      message_start (and no error event, where errors are not allowed). */
  lemma RecoveryMeetsContract(es: seq<Event>, message: string, allowError: bool)
    ensures Contract(es + Recovery(ObserveAll(UNUSED, es).0, message), allowError) <==>
      HasMessageStart(es) && Fold(EMPTY, es).Some? && (allowError || !HasError(es))
  {
    var t := ObserveAll(UNUSED, es).0;
    var recovery := Recovery(t, message);
    var all := es + recovery;
    ClosesAreStops(t.open);
    var n := |es|;
    assert forall k | 0 <= k < n :: all[k] == es[k];
    assert forall k | n <= k < |all| :: all[k] == recovery[k - n];
    assert forall k | 0 <= k < |recovery| :: !recovery[k].MessageStart? && !recovery[k].ErrorEvent?;
    assert HasMessageStart(all) <==> HasMessageStart(es);
    assert HasError(all) <==> HasError(es);
    assert all[|all| - 1] == MessageStop;
    FoldAppend(EMPTY, es, recovery);
    if Fold(EMPTY, es).Some? {
      RecoveryIsLegal(es, message);
    }
  }

  lemma RecoveryIsLegal(es: seq<Event>, message: string)
    requires Fold(EMPTY, es).Some?
    ensures var t := ObserveAll(UNUSED, es).0;
            Fold(Fold(EMPTY, es).value, Recovery(t, message))
            == Some(Check(map[], Fold(EMPTY, es).value.seen + {t.maxIndex + 1}))
  {
    var c := Fold(EMPTY, es).value;
    var t := ObserveAll(UNUSED, es).0;
    assert Follows(UNUSED, EMPTY);
    LegalIsObserved(UNUSED, EMPTY, es);
    ClosesAreLegal(t, c);
    FoldAppend(c, Closes(t.open), ErrorTail(t, message));
    ErrorTailIsLegal(Check(map[], c.seen), t.maxIndex + 1, message);
  }

  /** In particular every cut of a contract stream after its message_start can be repaired. */
  lemma EveryCutIsRepaired(es: seq<Event>, k: nat, message: string, allowError: bool)
    requires Contract(es, allowError) && k <= |es| && HasMessageStart(es[..k])
    ensures Contract(es[..k] + Recovery(ObserveAll(UNUSED, es[..k]).0, message), allowError)
  {
    FoldPrefix(EMPTY, es, k);
    assert forall j | 0 <= j < k :: es[..k][j] == es[j];
    RecoveryMeetsContract(es[..k], message, allowError);
  }
}
