/** Fallback over the two transports of this repository: which chains of upstreams give the client a
    stream that meets the contract. */
module TransportFallback {
  import opened Prelude
  import opened SseEvents
  import opened StreamContract
  import opened SseBuilder
  import opened EmittedTracker
  import opened ProviderAttempts
  import opened Fallback
  import opened RemapperContract
  import Remapper = NativeRemapper
  import OpenAI = OpenAIStream
  import Contracts = OpenAIContract
  import Native = NativeTransport
  import Replay = Conversion
  import ConversionOrder
  import opened TrackerMeaning

  /** What the client asks for: a history, and whether it uses fields that only native providers take. */
  datatype Request = Request(messages: seq<Replay.Message>, nativeOnly: bool)

  /** A candidate of the chain: a transport with all that its upstream will do. Where it stands in for the
      history, an OpenAI provider has its replay mode and the text of its refusal; faults of its own when it
      builds the body are those of its upstream. A provider that is not available cannot be set up. */
  datatype Candidate<!H> =
    | OpenAIChat(env: OpenAI.Env<H>, heuristic: H, replay: Replay.ReplayMode, refusal: string, openAI: OpenAI.Upstream,
                 crash: string, messageId: string)
    | AnthropicMessages(wire: Native.Env, native: Native.NativeUpstream, crash: string, messageId: string)
    | NotAvailable

  /** An OpenAI body is refused for native fields, or when the history cannot be converted. */
  function OpenAIBody<H>(request: Request, c: Candidate<H>): Option<BodyFault>
    requires c.OpenAIChat?
  {
    if request.nativeOnly || Replay.Convert(request.messages, c.replay).Refused? then Some(BodyFault(Some(c.refusal)))
    else c.openAI.body
  }

  /** The events read from the candidate's stream, and how it ends. A provider that cannot be set up raises
      before the loop looks after its errors. */
  function Streams<H>(request: Request, c: Candidate<H>, mode: OnOpenError): Attempt {
    match c
    case OpenAIChat(env, heuristic, _, _, openAI, crash, messageId) =>
      OpenAI.Attempted(messageId, heuristic, openAI.(body := OpenAIBody(request, c)), mode, crash, env)
    case AnthropicMessages(wire, native, crash, messageId) =>
      var (text, outcome) := Native.AttemptedText(native, mode, crash, messageId, wire);
      Attempt(Native.ReadBack(text, wire.decode), outcome)
    case NotAvailable => Attempt([], OtherException)
  }

  function Provider<H>(request: Request): (Candidate<H>, OnOpenError) -> Attempt {
    (c, mode) => Streams(request, c, mode)
  }

  /** A native upstream is written and read faithfully and obeys the protocol as far as it goes. */
  ghost predicate Fair<H>(c: Candidate<H>) {
    c.AnthropicMessages? ==> Native.Sound(c.wire) && ObeyAll(QUIET, c.native.events, c.wire.thinking).Some?
  }

  // ---------------------------------------------------------------------------------------------
  // How a candidate ends
  // ---------------------------------------------------------------------------------------------

  function Body<H>(request: Request, c: Candidate<H>): Option<BodyFault> {
    match c
    case OpenAIChat(_, _, _, _, _, _, _) => OpenAIBody(request, c)
    case AnthropicMessages(_, native, _, _) => native.body
    case NotAvailable => Some(BodyFault(None))
  }

  function Opening<H>(c: Candidate<H>): Option<OpenError> {
    match c
    case OpenAIChat(_, _, _, _, openAI, _, _) => openAI.opening
    case AnthropicMessages(_, native, _, _) => native.opening
    case NotAvailable => None
  }

  function AsOutcome(mapped: Option<string>): Outcome {
    match mapped
    case Some(message) => ProviderError(message)
    case None => OtherException
  }

  /** What is raised before any content: a body that is refused raises in both modes, an upstream that does
      not open only when it is asked to. */
  function Early<H>(request: Request, c: Candidate<H>, mode: OnOpenError): Option<Outcome> {
    if Body(request, c).Some? then Some(AsOutcome(Body(request, c).value.mapped))
    else if Opening(c).Some? && mode == Raise then Some(AsOutcome(Opening(c).value.mapped))
    else None
  }

  /** An OpenAI stream that does not fail, but whose tokens nobody can count. */
  predicate Uncounted<H>(c: Candidate<H>) {
    c.OpenAIChat? && c.openAI.opening.None? && !Contracts.Failed(c.heuristic, c.openAI.chunks, c.openAI.failure, c.env)
    && !Contracts.Countable(c.heuristic, c.openAI.chunks, c.openAI.counted, c.env)
  }

  lemma NothingReadsBack(env: Native.Env)
    requires Native.Sound(env)
    ensures Native.ReadBack("", env.decode) == []
  {
    Native.TextReadsBack([], env);
  }

  lemma OpenAIEnds<H>(request: Request, c: Candidate<H>, mode: OnOpenError)
    requires c.OpenAIChat? && Early(request, c, mode).None?
    ensures Streams(request, c, mode).outcome == if Uncounted(c) then OtherException else Completes
  {
    if c.openAI.opening.Some? {
      Contracts.ResponseMeetsContract(c.messageId, c.heuristic, [], Some(c.openAI.opening.value.shown), c.crash, c.env, c.openAI.counted);
    } else {
      Contracts.ResponseMeetsContract(c.messageId, c.heuristic, c.openAI.chunks, c.openAI.failure, c.crash, c.env, c.openAI.counted);
    }
  }

  /** A candidate raises before any content if and only if its body is refused, in both modes, or its
      upstream does not open and raising is asked for. Otherwise it completes, unless it is an OpenAI stream
      whose tokens nobody can count. */
  lemma RaisesExactlyWhen<H>(request: Request, c: Candidate<H>, mode: OnOpenError)
    requires Fair(c)
    ensures var a, early := Streams(request, c, mode), Early(request, c, mode);
            if early.Some? then a.outcome == early.value && !HasContent(a.events)
            else a.outcome == if Uncounted(c) then OtherException else Completes
  {
    if c.AnthropicMessages? {
      NothingReadsBack(c.wire);
    } else if c.OpenAIChat? && Early(request, c, mode).None? {
      OpenAIEnds(request, c, mode);
    }
  }

  /** Where it is not asked to raise, an upstream that does not open is shown as a whole message with the text
      of its error. */
  lemma UnopenedIsShown<H>(request: Request, c: Candidate<H>)
    requires Fair(c) && Body(request, c).None? && Opening(c).Some?
    ensures Streams(request, c, Render) == Attempt([MessageStart(c.messageId)] + MessageAs(0, Opening(c).value.shown), Completes)
  {
    var shown := Opening(c).value.shown;
    match c
    case OpenAIChat(env, heuristic, _, _, openAI, crash, messageId) =>
      assert OpenAI.FailureTail(FRESH, shown) == MessageAs(0, shown);
      assert [MessageStart(messageId)] + [] + MessageAs(0, shown) == [MessageStart(messageId)] + MessageAs(0, shown);
    case AnthropicMessages(wire, native, crash, messageId) =>
      var above := BrokenResponseReads([], shown, crash, messageId, wire);
      assert [] + Repair([], above, messageId, shown) == Repair([], above, messageId, shown);
  }

  /** The candidate lets the next one try: its body is refused or its upstream does not open, with an error that
      is mapped to a ProviderError. */
  predicate GivesUp<H>(request: Request, c: Candidate<H>) {
    if Body(request, c).Some? then Body(request, c).value.mapped.Some?
    else Opening(c).Some? && Opening(c).value.mapped.Some?
  }

  lemma GivesWayIff<H>(request: Request, chain: seq<Candidate<H>>, k: int)
    requires 0 <= k < |chain| && Fair(chain[k])
    ensures GivesWay(chain, Provider<H>(request), k) <==> k < |chain| - 1 && GivesUp(request, chain[k])
  {
    RaisesExactlyWhen(request, chain[k], ModeOf(k == |chain| - 1));
  }

  // ---------------------------------------------------------------------------------------------
  // What a candidate delivers
  // ---------------------------------------------------------------------------------------------

  predicate DeliversOpenAI<H>(env: OpenAI.Env<H>, heuristic: H, openAI: OpenAI.Upstream, allowError: bool) {
    var failed := Contracts.Failed(heuristic, openAI.chunks, openAI.failure, env);
    && (failed || Contracts.Countable(heuristic, openAI.chunks, openAI.counted, env))
    && (allowError || !(failed && HasStartedTool(OpenAI.ProcessChunks(OpenAI.Begin(heuristic), openAI.chunks, env).0.blocks)))
  }

  predicate DeliversNative(env: Native.Env, native: Native.NativeUpstream, allowError: bool) {
    var out := Remapper.Run(Remapper.INITIAL, native.events, env.thinking).1;
    if native.failure.None? then Contract(out, allowError)
    else out == [] || (HasMessageStart(native.events) && (allowError || !HasError(native.events)))
  }

  /** An upstream that does not open is reported by a whole stream. An OpenAI one gives one if it fails or
      its tokens can be counted, with a bare error event when it fails after a native tool call. A native
      one gives one when what it sent is remapped to one, or when it fails before anything or after its
      message_start. */
  predicate Delivers<H>(c: Candidate<H>, allowError: bool) {
    || Opening(c).Some?
    || match c
       case OpenAIChat(env, heuristic, _, _, openAI, _, _) => DeliversOpenAI(env, heuristic, openAI, allowError)
       case AnthropicMessages(wire, native, _, _) => DeliversNative(wire, native, allowError)
       case NotAvailable => false
  }

  lemma OpenAIDelivers<H>(request: Request, c: Candidate<H>, mode: OnOpenError, allowError: bool)
    requires c.OpenAIChat? && Early(request, c, mode).None?
    ensures Contract(Streams(request, c, mode).events, allowError) <==> Delivers(c, allowError)
  {
    if c.openAI.opening.Some? {
      Contracts.ResponseMeetsContract(c.messageId, c.heuristic, [], Some(c.openAI.opening.value.shown), c.crash, c.env, c.openAI.counted);
      assert OpenAI.ProcessChunks(OpenAI.Begin(c.heuristic), [], c.env).0.blocks == FRESH;
    } else {
      Contracts.ResponseMeetsContract(c.messageId, c.heuristic, c.openAI.chunks, c.openAI.failure, c.crash, c.env, c.openAI.counted);
    }
  }

  lemma NativeDelivers<H>(request: Request, c: Candidate<H>, mode: OnOpenError, allowError: bool)
    requires c.AnthropicMessages? && Fair(c) && Early(request, c, mode).None?
    ensures Contract(Streams(request, c, mode).events, allowError) <==> Delivers(c, allowError)
  {
    if c.native.opening.Some? {
      Native.BrokenResponseMeetsContract([], c.native.opening.value.shown, c.crash, c.messageId, c.wire, allowError);
    } else if c.native.failure.Some? {
      Native.BrokenResponseMeetsContract(c.native.events, c.native.failure.value, c.crash, c.messageId, c.wire, allowError);
    } else {
      Native.UnbrokenResponse(c.native.events, c.crash, c.messageId, c.wire);
    }
  }

  /** The candidate's ending leaves the client with a contract stream: an early error that is mapped to a
      ProviderError is reported by a fresh one. */
  predicate LeavesWhole<H>(request: Request, c: Candidate<H>, mode: OnOpenError, allowError: bool) {
    if Body(request, c).Some? then Body(request, c).value.mapped.Some?
    else if Opening(c).Some? && mode == Raise then Opening(c).value.mapped.Some?
    else Delivers(c, allowError)
  }

  lemma EndsWellIff<H>(request: Request, c: Candidate<H>, mode: OnOpenError, allowError: bool)
    requires Fair(c)
    ensures EndsWell(Streams(request, c, mode), allowError) <==> LeavesWhole(request, c, mode, allowError)
  {
    RaisesExactlyWhen(request, c, mode);
    if Early(request, c, mode).None? {
      if c.OpenAIChat? {
        OpenAIDelivers(request, c, mode, allowError);
      } else {
        NativeDelivers(request, c, mode, allowError);
      }
    }
  }

  /** For every request and every chain of upstreams: let k be the first that does not give up, or the last.
      The client gets a contract stream, and no exception, if and only if candidate k leaves one behind: as
      the last, its body is refused or its upstream delivers, opened or not; before that, its body is taken,
      its upstream opens and it delivers. An error that is not mapped to a ProviderError ends the request
      although candidates are left. */
  lemma FallbackDeliversIff<H>(request: Request, chain: seq<Candidate<H>>, messageId: string, allowError: bool, k: int)
    requires 0 <= k < |chain| && (forall c | c in chain :: Fair(c))
    requires (forall j | 0 <= j < k :: GivesUp(request, chain[j])) && (k == |chain| - 1 || !GivesUp(request, chain[k]))
    ensures var (out, raised) := Served(chain, Provider<H>(request), messageId);
            Contract(out, allowError) && !raised <==> LeavesWhole(request, chain[k], ModeOf(k == |chain| - 1), allowError)
  {
    KStays(request, chain, k);
    FallbackMeetsContractIff(chain, Provider<H>(request), messageId, allowError, k);
    assert chain[k] in chain;
    EndsWellIff(request, chain[k], ModeOf(k == |chain| - 1), allowError);
  }

  lemma KStays<H>(request: Request, chain: seq<Candidate<H>>, k: int)
    requires 0 <= k < |chain| && (forall c | c in chain :: Fair(c))
    requires (forall j | 0 <= j < k :: GivesUp(request, chain[j])) && (k == |chain| - 1 || !GivesUp(request, chain[k]))
    ensures Stays(chain, Provider<H>(request), k)
  {
    forall j | 0 <= j <= k
      ensures GivesWay(chain, Provider<H>(request), j) <==> j < |chain| - 1 && GivesUp(request, chain[j]) {
      assert chain[j] in chain;
      GivesWayIff(request, chain, j);
    }
  }

  // ---------------------------------------------------------------------------------------------
  // A history that cannot be converted
  // ---------------------------------------------------------------------------------------------

  /** A history with a block that is refused makes every OpenAI provider give up. */
  lemma UnsupportedIsRefused<H>(request: Request, c: Candidate<H>)
    requires c.OpenAIChat? && exists m | m in request.messages :: ConversionOrder.Unsupported(m)
    ensures forall mode :: Early(request, c, mode) == Some(ProviderError(c.refusal))
    ensures GivesUp(request, c)
  {
    ConversionOrder.RefusedIffUnsupported(None, request.messages, c.replay);
  }

  /** With such a history and a chain that comes down to an OpenAI provider, which raises although it is
      asked to render, the client gets exactly one fresh error message with the refusal. */
  lemma UnsupportedIsReported<H>(request: Request, chain: seq<Candidate<H>>, messageId: string, allowError: bool)
    requires chain != [] && chain[|chain| - 1].OpenAIChat? && (forall c | c in chain :: Fair(c))
    requires exists m | m in request.messages :: ConversionOrder.Unsupported(m)
    requires forall j | 0 <= j < |chain| - 1 :: chain[j].OpenAIChat? || GivesUp(request, chain[j])
    ensures var (out, raised) := Served(chain, Provider<H>(request), messageId);
            && out == ProviderErrorEvents(messageId, chain[|chain| - 1].refusal, false) && !raised
            && Contract(out, allowError)
  {
    var k, last := |chain| - 1, chain[|chain| - 1];
    forall j | 0 <= j < k
      ensures GivesUp(request, chain[j]) {
      if chain[j].OpenAIChat? {
        UnsupportedIsRefused(request, chain[j]);
      }
    }
    KStays(request, chain, k);
    FirstToStayIsServed(chain, Provider<H>(request), messageId, k);
    UnsupportedIsRefused(request, last);
    assert last in chain;
    RaisesExactlyWhen(request, last, Render);
    var a := AttemptAt(chain, Provider<H>(request), k);
    assert a == Streams(request, last, Render);
    assert [] + ProviderErrorEvents(messageId, last.refusal, false) == ProviderErrorEvents(messageId, last.refusal, false);
    FreshErrorMeetsContract(messageId, last.refusal, allowError);
  }

  /** Such a chain: a first upstream that is refused at opening, and an OpenAI provider that is asked for a
      user's image. */
  lemma UserImageIsReported<H>(first: Candidate<H>, last: Candidate<H>, messageId: string, allowError: bool)
    requires last.OpenAIChat? && first.AnthropicMessages? && Fair(first) && first.native.body.None?
    requires first.native.opening.Some? && first.native.opening.value.mapped.Some?
    ensures var request := Request([Replay.Message(Replay.User, Replay.Blocks([Replay.Image]), None)], false);
            var (out, raised) := Served([first, last], Provider<H>(request), messageId);
            out == ProviderErrorEvents(messageId, last.refusal, false) && !raised && Contract(out, allowError)
  {
    var image := Replay.Message(Replay.User, Replay.Blocks([Replay.Image]), None);
    var request := Request([image], false);
    assert Replay.Image in [Replay.Image] && image in request.messages;
    assert ConversionOrder.Unsupported(image);
    UnsupportedIsReported(request, [first, last], messageId, allowError);
  }
}
