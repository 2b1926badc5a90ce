/** The native transport: upstream events go through the remapper, are written out, cut into chunks
    that the tracker sees, and are followed by a recovery when the upstream fails. The statements are
    about the text the client receives. */
module NativeTransport {
  import opened Prelude
  import opened SseEvents
  import opened StreamContract
  import opened SseWire
  import opened SseBuilder
  import opened NativeRemapper
  import opened RemapperContract
  import opened EmittedTracker
  import opened ProviderAttempts

  /** encode and decode stand for JSON; cut is how a transformed event is split into chunks (whole
      events or single lines, depending on the transport). */
  datatype Env = Env(
    encode: Event -> RawEvent,
    decode: RawEvent -> Event,
    cut: string -> seq<string>,
    thinking: bool)

  ghost predicate Sound(env: Env) {
    Faithful(env.encode, env.decode) && forall s :: Concat(env.cut(s)) == s
  }

  /** sent is the text yielded so far; any is the flag sent_any_event. */
  datatype Link = Link(sent: string, buf: string, track: Track, any: bool)

  const SILENT_LINK: Link := Link("", "", UNUSED, false)

  /** The tracker is fed before a chunk is yielded; a chunk that makes it raise is not yielded. */
  function SendChunk(link: Link, chunk: string, env: Env): (Link, bool) {
    var (buf, track, ok) := Drain(link.buf + chunk, link.track, Reader(env.decode));
    (Link(if ok then link.sent + chunk else link.sent, buf, track, true), ok)
  }

  function SendChunks(link: Link, chunks: seq<string>, env: Env): (Link, bool)
    decreases chunks
  {
    if chunks == [] then (link, true)
    else
      var (link1, ok) := SendChunk(link, chunks[0], env);
      if ok then SendChunks(link1, chunks[1..], env) else (link1, false)
  }

  lemma SendUnfolds(link: Link, chunks: seq<string>, k: nat, link1: Link, ok: bool, env: Env)
    requires k < |chunks| && SendChunk(link, chunks[k], env) == (link1, ok)
    ensures SendChunks(link, chunks[k..], env) == if ok then SendChunks(link1, chunks[k + 1..], env) else (link1, false)
  {
    assert chunks[k..][0] == chunks[k] && chunks[k..][1..] == chunks[k + 1..];
  }

  function SendEvents(link: Link, out: seq<Event>, env: Env): (Link, bool) {
    if out == [] then (link, true) else SendChunks(link, env.cut(Text(out, env.encode)), env)
  }

  function Relay(s: Policy, link: Link, upstream: seq<Event>, env: Env): (Link, bool)
    decreases upstream
  {
    if upstream == [] then (link, true)
    else
      var (s1, out) := Transform(s, upstream[0], env.thinking);
      var (link1, ok) := SendEvents(link, out, env);
      if ok then Relay(s1, link1, upstream[1..], env) else (link1, false)
  }

  function FailureEvents(link: Link, messageId: string, message: string): seq<Event> {
    if link.any then Recovery(link.track, message) else ProviderErrorEvents(messageId, message, false)
  }

  /** What the client receives: the relayed events, and after a failure (of the upstream, or of the
      tracker on what it was fed) the events of the error path. */
  function ResponseText(upstream: seq<Event>, failure: Option<string>, crash: string, messageId: string, env: Env): string {
    var (link, ok) := Relay(INITIAL, SILENT_LINK, upstream, env);
    if !ok then link.sent + Text(FailureEvents(link, messageId, crash), env.encode)
    else if failure.Some? then link.sent + Text(FailureEvents(link, messageId, failure.value), env.encode)
    else link.sent
  }

  /** What one upstream is to the transport: the request body may be refused, it may not open; then events
      come, and it may fail. */
  datatype NativeUpstream = NativeUpstream(body: Option<BodyFault>, opening: Option<OpenError>, events: seq<Event>, failure: Option<string>)

  /** The text sent and how the stream ends. A body that cannot be built raises before anything is sent. A
      failure to open is rendered like one before any event, or raised. */
  function AttemptedText(upstream: NativeUpstream, mode: OnOpenError, crash: string, messageId: string, env: Env): (string, Outcome) {
    if upstream.body.Some? then ("", Escaping(upstream.body.value.mapped))
    else
      match upstream.opening
      case None => (ResponseText(upstream.events, upstream.failure, crash, messageId, env), Completes)
      case Some(error) =>
        if mode == Raise then ("", Escaping(error.mapped))
        else (ResponseText([], Some(error.shown), crash, messageId, env), Completes)
  }

  class AnthropicMessagesTransport {
    const env: Env
    const policy: BlockPolicy
    const tracker: EmittedNativeSseTracker
    var sent: string
    var sentAnyEvent: bool

    ghost predicate Valid()
      reads this, policy, tracker
    {
      policy.Valid() && tracker.decode == env.decode
    }

    function View(): Link
      reads this, tracker
    {
      Link(sent, tracker.buf, tracker.View(), sentAnyEvent)
    }

    constructor (env: Env)
      ensures Valid() && this.env == env && View() == SILENT_LINK && policy.View() == INITIAL
      ensures fresh(policy) && fresh(tracker)
    {
      this.env := env;
      policy := new BlockPolicy();
      tracker := new EmittedNativeSseTracker(env.decode);
      sent, sentAnyEvent := "", false;
    }

    method YieldChunk(chunk: string) returns (ok: bool)
      requires Valid()
      modifies this, tracker
      ensures Valid()
      ensures (View(), ok) == SendChunk(old(View()), chunk, env)
    {
      sentAnyEvent := true;
      ok := tracker.Feed(chunk);
      if ok {
        sent := sent + chunk;
      }
    }

    method YieldChunks(chunks: seq<string>) returns (ok: bool)
      requires Valid()
      modifies this, tracker
      ensures Valid()
      ensures (View(), ok) == SendChunks(old(View()), chunks, env)
    {
      ghost var whole := SendChunks(View(), chunks, env);
      assert chunks[0..] == chunks;
      for k := 0 to |chunks|
        invariant Valid()
        invariant SendChunks(View(), chunks[k..], env) == whole
      {
        ghost var before := View();
        ok := YieldChunk(chunks[k]);
        SendUnfolds(before, chunks, k, View(), ok, env);
        if !ok {
          return;
        }
      }
      assert chunks[|chunks|..] == [];
      ok := true;
    }

    method YieldEvents(out: seq<Event>)
      modifies this`sent
      ensures sent == old(sent) + Text(out, env.encode)
    {
      sent := sent + Text(out, env.encode);
    }

    method FailWith(messageId: string, message: string)
      modifies this, tracker
      ensures sent == old(sent) + Text(FailureEvents(old(View()), messageId, message), env.encode)
    {
      var out := EventsOfFailure(messageId, message);
      YieldEvents(out);
    }

    method EventsOfFailure(messageId: string, message: string) returns (out: seq<Event>)
      modifies tracker
      ensures out == FailureEvents(old(View()), messageId, message)
    {
      if sentAnyEvent {
        out := tracker.IterCloseUnclosedBlocks();
        var tail := tracker.IterMidstreamErrorTail(message);
        out := out + tail;
      } else {
        out := IterProviderStreamError(messageId, message, false);
      }
    }

    method StreamEvents(upstream: seq<Event>, failure: Option<string>, crash: string, messageId: string)
      requires Valid() && View() == SILENT_LINK && policy.View() == INITIAL
      modifies this, policy, tracker
      ensures sent == ResponseText(upstream, failure, crash, messageId, env)
    {
      ghost var whole := Relay(INITIAL, SILENT_LINK, upstream, env);
      for k := 0 to |upstream|
        invariant Valid()
        invariant Relay(policy.View(), View(), upstream[k..], env) == whole
      {
        assert upstream[k..][0] == upstream[k] && upstream[k..][1..] == upstream[k + 1..];
        var out := policy.TransformEvent(upstream[k], env.thinking);
        var ok := true;
        if out != [] {
          ok := YieldChunks(env.cut(Text(out, env.encode)));
        }
        if !ok {
          FailWith(messageId, crash);
          return;
        }
      }
      if failure.Some? {
        FailWith(messageId, failure.value);
      }
    }

    /** One response. The body is built before anything is sent; a failure to open the upstream is rendered
        or raised. */
    method StreamResponse(upstream: NativeUpstream, mode: OnOpenError, crash: string, messageId: string) returns (outcome: Outcome)
      requires Valid() && View() == SILENT_LINK && policy.View() == INITIAL
      modifies this, policy, tracker
      ensures (sent, outcome) == AttemptedText(upstream, mode, crash, messageId, env)
    {
      if upstream.body.Some? {
        return Escaping(upstream.body.value.mapped);
      }
      if upstream.opening.Some? {
        if mode == Raise {
          return Escaping(upstream.opening.value.mapped);
        }
        FailWith(messageId, upstream.opening.value.shown);
      } else {
        StreamEvents(upstream.events, upstream.failure, crash, messageId);
      }
      return Completes;
    }
  }

  // ---------------------------------------------------------------------------------------------
  // The text the client receives
  // ---------------------------------------------------------------------------------------------

  lemma {:induction false} TextAppend(a: seq<Event>, b: seq<Event>, encode: Event -> RawEvent)
    ensures Text(a + b, encode) == Text(a, encode) + Text(b, encode)
  {
    if a == [] {
      assert a + b == b;
    } else {
      assert (a + b)[0] == a[0] && (a + b)[1..] == a[1..] + b;
      TextAppend(a[1..], b, encode);
    }
  }

  lemma NothingAfter(s: string)
    ensures s + "" == s
  {
  }

  lemma SentInTwo(sent: string, a: string, b: string)
    ensures sent + a + b == sent + (a + b)
  {
  }

  /** Chunks of a text that the tracker accepts are all sent, and seen as one text. */
  lemma {:induction false} ChunksAreSent(link: Link, chunks: seq<string>, env: Env)
    requires Drain(link.buf, link.track, Reader(env.decode)) == (link.buf, link.track, true)
    requires Drain(link.buf + Concat(chunks), link.track, Reader(env.decode)).2
    ensures var (buf, track, ok) := Drain(link.buf + Concat(chunks), link.track, Reader(env.decode));
            SendChunks(link, chunks, env) == (Link(link.sent + Concat(chunks), buf, track, link.any || chunks != []), true)
    decreases chunks
  {
    if chunks == [] {
      NothingAfter(link.buf);
      NothingAfter(link.sent);
    } else {
      var later := Concat(chunks[1..]);
      SentInTwo(link.buf, chunks[0], later);
      SentInTwo(link.sent, chunks[0], later);
      DrainInTwo(link.buf + chunks[0], later, link.track, Reader(env.decode));
      DrainLeavesNoFrame(link.buf + chunks[0], link.track, Reader(env.decode));
      var (buf, track, ok) := Drain(link.buf + chunks[0], link.track, Reader(env.decode));
      var link1 := Link(link.sent + chunks[0], buf, track, true);
      ChunksAreSent(link1, chunks[1..], env);
    }
  }

  lemma EventsAreSent(link: Link, out: seq<Event>, env: Env)
    requires Sound(env) && link.buf == ""
    requires ObserveAll(link.track, out).1
    ensures SendEvents(link, out, env)
         == (Link(link.sent + Text(out, env.encode), "", ObserveAll(link.track, out).0, link.any || out != []), true)
  {
    if out == [] {
      assert link.sent + "" == link.sent;
    } else {
      var text := Text(out, env.encode);
      TextIsObserved(out, link.track, env.encode, env.decode);
      assert "" + text == text && Find("", "\n\n") == -1;
      var chunks := env.cut(text);
      assert Concat(chunks) == text;
      assert chunks != [] by { assert |text| > 0; }
      ChunksAreSent(link, chunks, env);
    }
  }

  lemma {:induction false} ObserveAppend(t: Track, a: seq<Event>, b: seq<Event>)
    requires ObserveAll(t, a).1
    ensures ObserveAll(t, a + b) == ObserveAll(ObserveAll(t, a).0, b)
    decreases a
  {
    if a == [] {
      assert a + b == b;
    } else {
      assert (a + b)[0] == a[0] && (a + b)[1..] == a[1..] + b;
      ObserveAppend(Observe(t, a[0]).value, a[1..], b);
    }
  }

  lemma RelayUnfolds(s: Policy, link: Link, upstream: seq<Event>, env: Env, s1: Policy, out1: seq<Event>, link1: Link)
    requires upstream != [] && Transform(s, upstream[0], env.thinking) == (s1, out1)
    requires SendEvents(link, out1, env) == (link1, true)
    ensures Relay(s, link, upstream, env) == Relay(s1, link1, upstream[1..], env)
    ensures Run(s, upstream, env.thinking).1 == out1 + Run(s1, upstream[1..], env.thinking).1
  {
  }

  /** The link after everything was sent and observed. */
  function AfterSending(link: Link, out: seq<Event>, env: Env): Link {
    Link(link.sent + Text(out, env.encode), "", ObserveAll(link.track, out).0, link.any || out != [])
  }

  lemma SendingInTwo(link: Link, out1: seq<Event>, out2: seq<Event>, env: Env)
    requires ObserveAll(link.track, out1).1
    ensures AfterSending(AfterSending(link, out1, env), out2, env) == AfterSending(link, out1 + out2, env)
  {
    ObserveAppend(link.track, out1, out2);
    TextAppend(out1, out2, env.encode);
    SentInTwo(link.sent, Text(out1, env.encode), Text(out2, env.encode));
  }

  /** The whole relay, on an upstream that obeys the protocol: everything is sent, and the tracker
      has observed exactly what was sent. */
  lemma {:induction false} RelayIsRun(s: Policy, u: Upstream, c: Check, owners: seq<int>, link: Link, upstream: seq<Event>, env: Env)
    requires Sound(env) && link.buf == "" && Follows(link.track, c)
    requires Sim(s, u, c, owners) && ObeyAll(u, upstream, env.thinking).Some?
    ensures Relay(s, link, upstream, env) == (AfterSending(link, Run(s, upstream, env.thinking).1, env), true)
    decreases upstream
  {
    if upstream == [] {
      assert link.sent + "" == link.sent;
    } else {
      EventKeeps(s, u, c, owners, upstream[0], env.thinking);
      var (s1, out1) := Transform(s, upstream[0], env.thinking);
      LegalIsObserved(link.track, c, out1);
      EventsAreSent(link, out1, env);
      var link1 := AfterSending(link, out1, env);
      RelayUnfolds(s, link, upstream, env, s1, out1, link1);
      RelayIsRun(s1, Obey(u, upstream[0], env.thinking).value, Fold(c, out1).value,
                 Extend(owners, s, upstream[0], env.thinking), link1, upstream[1..], env);
      SendingInTwo(link, out1, Run(s1, upstream[1..], env.thinking).1, env);
    }
  }

  /** Reading a text back as events. */
  function ReadBack(text: string, decode: RawEvent -> Event): seq<Event> {
    Decode(ReadLines(NO_FIELDS, SplitLines(text)), decode)
  }

  function Encoded(es: seq<Event>, encode: Event -> RawEvent): seq<RawEvent> {
    if es == [] then [] else [encode(es[0])] + Encoded(es[1..], encode)
  }

  lemma DecodeOneMore(raw: RawEvent, more: seq<RawEvent>, decode: RawEvent -> Event)
    ensures FormatAll([raw] + more) == Format(raw) + FormatAll(more)
    ensures AllClean([raw] + more) <==> Clean(raw) && AllClean(more)
    ensures Decode([raw] + more, decode) == [decode(raw)] + Decode(more, decode)
  {
    assert ([raw] + more)[1..] == more;
    assert forall k | 0 <= k < |more| :: ([raw] + more)[k + 1] == more[k];
  }

  lemma {:induction false} TextOfEncoded(es: seq<Event>, encode: Event -> RawEvent, decode: RawEvent -> Event)
    requires Faithful(encode, decode)
    ensures Text(es, encode) == FormatAll(Encoded(es, encode))
    ensures AllClean(Encoded(es, encode))
    ensures Decode(Encoded(es, encode), decode) == es
  {
    if es != [] {
      var raw, more := encode(es[0]), Encoded(es[1..], encode);
      TextOfEncoded(es[1..], encode, decode);
      assert Clean(raw) && decode(raw) == es[0];
      DecodeOneMore(raw, more, decode);
      assert [es[0]] + es[1..] == es;
    }
  }

  lemma TextReadsBack(es: seq<Event>, env: Env)
    requires Sound(env)
    ensures ReadBack(Text(es, env.encode), env.decode) == es
  {
    TextOfEncoded(es, env.encode, env.decode);
    StreamRoundTrip(Encoded(es, env.encode));
  }

  /** A complete response with no failure is the remapped stream, in any chunking. */
  lemma UnbrokenResponse(upstream: seq<Event>, crash: string, messageId: string, env: Env)
    requires Sound(env) && ObeyAll(QUIET, upstream, env.thinking).Some?
    ensures ReadBack(ResponseText(upstream, None, crash, messageId, env), env.decode)
         == Run(INITIAL, upstream, env.thinking).1
  {
    InitialSim();
    RelayIsRun(INITIAL, QUIET, EMPTY, [], SILENT_LINK, upstream, env);
    TextReadsBack(Run(INITIAL, upstream, env.thinking).1, env);
    NothingBefore(Text(Run(INITIAL, upstream, env.thinking).1, env.encode));
  }

  /** When an upstream that has obeyed the protocol so far fails, at any point and in any chunking,
      the client reads a stream that meets the whole contract, provided that whatever was already
      sent included the message_start. */
  lemma BrokenResponseMeetsContract(upstream: seq<Event>, message: string, crash: string, messageId: string,
                                    env: Env, allowError: bool)
    requires Sound(env) && ObeyAll(QUIET, upstream, env.thinking).Some?
    ensures Contract(ReadBack(ResponseText(upstream, Some(message), crash, messageId, env), env.decode), allowError) <==>
            Run(INITIAL, upstream, env.thinking).1 == []
            || (HasMessageStart(upstream) && (allowError || !HasError(upstream)))
  {
    InitialSim();
    RelayIsRun(INITIAL, QUIET, EMPTY, [], SILENT_LINK, upstream, env);
    RunKeeps(INITIAL, QUIET, EMPTY, [], upstream, env.thinking);
    var out := Run(INITIAL, upstream, env.thinking).1;
    var track := ObserveAll(UNUSED, out).0;
    var tail := if out != [] then Recovery(track, message) else ProviderErrorEvents(messageId, message, false);
    SentReadsBack(out, tail, env);
    BlocksAreNumbered(INITIAL, upstream, env.thinking);
    OuterHas(out);
    OuterHas(upstream);
    BrokenMeetsContract(out, message, messageId, allowError);
  }

  lemma SentReadsBack(out: seq<Event>, tail: seq<Event>, env: Env)
    requires Sound(env)
    ensures ReadBack("" + Text(out, env.encode) + Text(tail, env.encode), env.decode) == out + tail
  {
    TextAppend(out, tail, env.encode);
    NothingBefore(Text(out, env.encode));
    TextReadsBack(out + tail, env);
  }

  lemma NothingBefore(s: string)
    ensures "" + s == s
  {
  }

  /** A legal stream that breaks off, with what the error path adds. */
  lemma BrokenMeetsContract(out: seq<Event>, message: string, messageId: string, allowError: bool)
    requires Fold(EMPTY, out).Some?
    ensures var tail := if out != [] then Recovery(ObserveAll(UNUSED, out).0, message) else ProviderErrorEvents(messageId, message, false);
            Contract(out + tail, allowError) <==> out == [] || (HasMessageStart(out) && (allowError || !HasError(out)))
  {
    if out == [] {
      var tail := ProviderErrorEvents(messageId, message, false);
      assert out + tail == tail;
      FreshErrorMeetsContract(messageId, message, allowError);
    } else {
      RecoveryMeetsContract(out, message, allowError);
    }
  }
}
