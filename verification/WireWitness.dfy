/** The transport's results ask of JSON only that events are written on one line and read back. Here is
    an encoding that does so, which shows that this can be met: an event as a list of numbers, each
    written in unary. */
module WireWitness {
  import opened Prelude
  import opened SseEvents
  import opened SseWire
  import opened EmittedTracker
  import opened NativeTransport

  // ---------------------------------------------------------------------------------------------
  // Numbers as text
  // ---------------------------------------------------------------------------------------------

  function Unary(n: nat): string {
    if n == 0 then "0" else "1" + Unary(n - 1)
  }

  function WriteAll(ns: seq<nat>): string {
    if ns == [] then "" else Unary(ns[0]) + WriteAll(ns[1..])
  }

  function ReadAll(s: string, sofar: nat): seq<nat>
    decreases s
  {
    if s == "" then []
    else if s[0] == '1' then ReadAll(s[1..], sofar + 1)
    else [sofar] + ReadAll(s[1..], 0)
  }

  lemma {:induction false} UnaryReadsBack(n: nat, rest: string, sofar: nat)
    ensures ReadAll(Unary(n) + rest, sofar) == [sofar + n] + ReadAll(rest, 0)
  {
    if n == 0 {
      assert ("0" + rest)[1..] == rest;
    } else {
      assert Unary(n) + rest == "1" + (Unary(n - 1) + rest);
      assert (Unary(n) + rest)[1..] == Unary(n - 1) + rest;
      UnaryReadsBack(n - 1, rest, sofar + 1);
    }
  }

  lemma {:induction false} NumbersReadBack(ns: seq<nat>)
    ensures ReadAll(WriteAll(ns), 0) == ns
  {
    if ns != [] {
      UnaryReadsBack(ns[0], WriteAll(ns[1..]), 0);
      NumbersReadBack(ns[1..]);
    }
  }

  predicate Digital(s: string) {
    forall k | 0 <= k < |s| :: s[k] == '0' || s[k] == '1'
  }

  lemma {:induction false} UnaryIsDigital(n: nat)
    ensures Digital(Unary(n))
  {
    if n > 0 {
      UnaryIsDigital(n - 1);
    }
  }

  lemma {:induction false} WrittenIsDigital(ns: seq<nat>)
    ensures Digital(WriteAll(ns))
  {
    if ns != [] {
      UnaryIsDigital(ns[0]);
      WrittenIsDigital(ns[1..]);
    }
  }

  lemma DigitalIsClean(s: string)
    requires Digital(s)
    ensures CleanField("[" + s + "]")
  {
  }

  // ---------------------------------------------------------------------------------------------
  // Strings, options and numbers with a sign
  // ---------------------------------------------------------------------------------------------

  function Codes(s: string): seq<nat> {
    if s == "" then [] else [s[0] as nat] + Codes(s[1..])
  }

  function CharOf(n: nat): char {
    if n < 0xD800 || 0xE000 <= n < 0x11_0000 then n as char else ' '
  }

  function Chars(ns: seq<nat>): string {
    if ns == [] then "" else [CharOf(ns[0])] + Chars(ns[1..])
  }

  lemma {:induction false} CodesReadBack(s: string)
    ensures |Codes(s)| == |s| && Chars(Codes(s)) == s
  {
    if s != "" {
      CodesReadBack(s[1..]);
    }
  }

  function PutString(s: string): seq<nat> {
    [|s|] + Codes(s)
  }

  function GetString(ns: seq<nat>): (string, seq<nat>) {
    if ns == [] || |ns| < 1 + ns[0] then ("", []) else (Chars(ns[1..1 + ns[0]]), ns[1 + ns[0]..])
  }

  lemma StringReadsBack(s: string, rest: seq<nat>)
    ensures GetString(PutString(s) + rest) == (s, rest)
  {
    CodesReadBack(s);
    var ns := PutString(s) + rest;
    assert ns[0] == |s| && ns[1..1 + |s|] == Codes(s) && ns[1 + |s|..] == rest;
  }

  function PutInt(i: int): seq<nat> {
    if i >= 0 then [0, i] else [1, -i]
  }

  function GetInt(ns: seq<nat>): (int, seq<nat>) {
    if |ns| < 2 then (0, []) else (if ns[0] == 0 then ns[1] else -(ns[1] as int), ns[2..])
  }

  lemma IntReadsBack(i: int, rest: seq<nat>)
    ensures GetInt(PutInt(i) + rest) == (i, rest)
  {
    assert (PutInt(i) + rest)[2..] == rest;
  }

  function PutOption(o: Option<string>): seq<nat> {
    match o
    case None => [0]
    case Some(s) => [1] + PutString(s)
  }

  function GetOption(ns: seq<nat>): (Option<string>, seq<nat>) {
    if ns == [] || ns[0] == 0 then (None, if ns == [] then [] else ns[1..])
    else var (s, rest) := GetString(ns[1..]); (Some(s), rest)
  }

  lemma OptionReadsBack(o: Option<string>, rest: seq<nat>)
    ensures GetOption(PutOption(o) + rest) == (o, rest)
  {
    match o
    case None => assert ([0] + rest)[1..] == rest;
    case Some(s) =>
      StringReadsBack(s, rest);
      assert ([1] + PutString(s) + rest)[1..] == PutString(s) + rest;
  }

  // ---------------------------------------------------------------------------------------------
  // Events
  // ---------------------------------------------------------------------------------------------

  function PutBlock(b: Block): seq<nat> {
    match b
    case TextBlock(text) => [0] + PutString(text)
    case ThinkingBlock(thinking) => [1] + PutString(thinking)
    case ToolUseBlock(id, name, input) => [2] + (PutOption(id) + (PutOption(name) + PutOption(input)))
    case RedactedThinkingBlock(data) => [3] + PutString(data)
    case ServerToolBlock(body) => [4] + PutString(body)
    case UnlistedBlock(typeName) => [5] + PutString(typeName)
  }

  function GetBlock(ns: seq<nat>): Block {
    if ns == [] then TextBlock("")
    else if ns[0] == 2 then
      var (id, ns1) := GetOption(ns[1..]);
      var (name, ns2) := GetOption(ns1);
      ToolUseBlock(id, name, GetOption(ns2).0)
    else
      var s := GetString(ns[1..]).0;
      if ns[0] == 0 then TextBlock(s)
      else if ns[0] == 1 then ThinkingBlock(s)
      else if ns[0] == 3 then RedactedThinkingBlock(s)
      else if ns[0] == 4 then ServerToolBlock(s)
      else UnlistedBlock(s)
  }

  lemma ToolReadsBack(id: Option<string>, name: Option<string>, input: Option<string>)
    ensures GetBlock(PutBlock(ToolUseBlock(id, name, input))) == ToolUseBlock(id, name, input)
  {
    OptionReadsBack(id, PutOption(name) + PutOption(input));
    OptionReadsBack(name, PutOption(input));
    OptionReadsBack(input, []);
    assert PutOption(input) + [] == PutOption(input);
    assert PutBlock(ToolUseBlock(id, name, input))[1..] == PutOption(id) + (PutOption(name) + PutOption(input));
  }

  lemma TaggedReadsBack(tag: nat, s: string)
    ensures GetString(([tag] + PutString(s))[1..]).0 == s
  {
    StringReadsBack(s, []);
    assert PutString(s) + [] == PutString(s) == ([tag] + PutString(s))[1..];
  }

  lemma BlockReadsBack(b: Block)
    ensures GetBlock(PutBlock(b)) == b
  {
    match b
    case TextBlock(text) => TaggedReadsBack(0, text);
    case ThinkingBlock(thinking) => TaggedReadsBack(1, thinking);
    case ToolUseBlock(id, name, input) => ToolReadsBack(id, name, input);
    case RedactedThinkingBlock(data) => TaggedReadsBack(3, data);
    case ServerToolBlock(body) => TaggedReadsBack(4, body);
    case UnlistedBlock(typeName) => TaggedReadsBack(5, typeName);
  }

  function PutDelta(d: Delta): seq<nat> {
    match d
    case TextDelta(text) => [0] + PutString(text)
    case ThinkingDelta(thinking) => [1] + PutString(thinking)
    case SignatureDelta(signature) => [2] + PutString(signature)
    case InputJsonDelta(partialJson) => [3] + PutString(partialJson)
    case UnlistedDelta(typeName) => [4] + PutString(typeName)
    case UntypedDelta => [5]
  }

  function GetDelta(ns: seq<nat>): Delta {
    if ns == [] then TextDelta("")
    else
      var s := GetString(ns[1..]).0;
      if ns[0] == 0 then TextDelta(s)
      else if ns[0] == 1 then ThinkingDelta(s)
      else if ns[0] == 2 then SignatureDelta(s)
      else if ns[0] == 3 then InputJsonDelta(s)
      else if ns[0] == 4 then UnlistedDelta(s)
      else UntypedDelta
  }

  lemma DeltaReadsBack(d: Delta)
    ensures GetDelta(PutDelta(d)) == d
  {
    match d
    case TextDelta(text) => TaggedReadsBack(0, text);
    case ThinkingDelta(thinking) => TaggedReadsBack(1, thinking);
    case SignatureDelta(signature) => TaggedReadsBack(2, signature);
    case InputJsonDelta(partialJson) => TaggedReadsBack(3, partialJson);
    case UnlistedDelta(typeName) => TaggedReadsBack(4, typeName);
    case UntypedDelta =>
  }

  function PutEvent(e: Event): seq<nat> {
    match e
    case MessageStart(id) => [0] + PutString(id)
    case BlockStart(index, block) => [1] + (PutInt(index) + PutBlock(block))
    case BlockDelta(index, delta) => [2] + (PutInt(index) + PutDelta(delta))
    case BlockStop(index) => [3] + (PutInt(index) + [])
    case MessageDelta(stopReason, outputTokens) => [4] + (PutInt(outputTokens) + PutString(stopReason))
    case MessageStop => [5]
    case ErrorEvent(message) => [6] + PutString(message)
    case OtherEvent(name) => [7] + PutString(name)
    case Malformed(name, at) =>
      if at.None? then [8] + PutString(name) else [9] + (PutInt(at.value) + PutString(name))
  }

  function GetEvent(ns: seq<nat>): Event {
    if ns == [] || ns[0] == 5 then MessageStop
    else
      var s := GetString(ns[1..]).0;
      var (i, rest) := GetInt(ns[1..]);
      if ns[0] == 0 then MessageStart(s)
      else if ns[0] == 1 then BlockStart(i, GetBlock(rest))
      else if ns[0] == 2 then BlockDelta(i, GetDelta(rest))
      else if ns[0] == 3 then BlockStop(i)
      else if ns[0] == 4 then MessageDelta(GetString(rest).0, i)
      else if ns[0] == 6 then ErrorEvent(s)
      else if ns[0] == 7 then OtherEvent(s)
      else if ns[0] == 8 then Malformed(s, None)
      else Malformed(GetString(rest).0, Some(i))
  }

  lemma IndexedReadsBack(tag: nat, i: int, rest: seq<nat>)
    ensures GetInt(([tag] + (PutInt(i) + rest))[1..]) == (i, rest)
  {
    IntReadsBack(i, rest);
    assert ([tag] + (PutInt(i) + rest))[1..] == PutInt(i) + rest;
  }

  lemma StringAlone(s: string)
    ensures GetString(PutString(s)).0 == s
  {
    StringReadsBack(s, []);
    assert PutString(s) + [] == PutString(s);
  }

  lemma StartReadsBack(index: int, block: Block)
    ensures GetEvent(PutEvent(BlockStart(index, block))) == BlockStart(index, block)
  {
    IndexedReadsBack(1, index, PutBlock(block));
    BlockReadsBack(block);
  }

  lemma DeltaEventReadsBack(index: int, delta: Delta)
    ensures GetEvent(PutEvent(BlockDelta(index, delta))) == BlockDelta(index, delta)
  {
    IndexedReadsBack(2, index, PutDelta(delta));
    DeltaReadsBack(delta);
  }

  lemma EndReadsBack(stopReason: string, outputTokens: int)
    ensures GetEvent(PutEvent(MessageDelta(stopReason, outputTokens))) == MessageDelta(stopReason, outputTokens)
  {
    IndexedReadsBack(4, outputTokens, PutString(stopReason));
    StringAlone(stopReason);
  }

  lemma MalformedReadsBack(name: string, at: Option<int>)
    ensures GetEvent(PutEvent(Malformed(name, at))) == Malformed(name, at)
  {
    if at.None? {
      TaggedReadsBack(8, name);
    } else {
      IndexedReadsBack(9, at.value, PutString(name));
      StringAlone(name);
    }
  }

  lemma MessageReadsBack(id: string)
    ensures GetEvent(PutEvent(MessageStart(id))) == MessageStart(id)
  {
    TaggedReadsBack(0, id);
  }

  lemma ErrorReadsBack(message: string)
    ensures GetEvent(PutEvent(ErrorEvent(message))) == ErrorEvent(message)
  {
    TaggedReadsBack(6, message);
  }

  lemma OtherReadsBack(name: string)
    ensures GetEvent(PutEvent(OtherEvent(name))) == OtherEvent(name)
  {
    TaggedReadsBack(7, name);
  }

  lemma EventReadsBack(e: Event)
    ensures GetEvent(PutEvent(e)) == e
  {
    match e
    case MessageStart(id) => MessageReadsBack(id);
    case BlockStart(index, block) => StartReadsBack(index, block);
    case BlockDelta(index, delta) => DeltaEventReadsBack(index, delta);
    case BlockStop(index) => IndexedReadsBack(3, index, []);
    case MessageDelta(stopReason, outputTokens) => EndReadsBack(stopReason, outputTokens);
    case MessageStop =>
    case ErrorEvent(message) => ErrorReadsBack(message);
    case OtherEvent(name) => OtherReadsBack(name);
    case Malformed(name, at) => MalformedReadsBack(name, at);
  }

  // ---------------------------------------------------------------------------------------------
  // The environment
  // ---------------------------------------------------------------------------------------------

  function Write(e: Event): RawEvent {
    RawEvent("event", "[" + WriteAll(PutEvent(e)) + "]")
  }

  function Read(raw: RawEvent): Event {
    if |raw.data| < 2 then MessageStop else GetEvent(ReadAll(raw.data[1..|raw.data| - 1], 0))
  }

  lemma WrittenReadsBack(e: Event)
    ensures Clean(Write(e)) && Read(Write(e)) == e
  {
    var s := WriteAll(PutEvent(e));
    WrittenIsDigital(PutEvent(e));
    DigitalIsClean(s);
    NumbersReadBack(PutEvent(e));
    assert ("[" + s + "]")[1..|"[" + s + "]"| - 1] == s;
    EventReadsBack(e);
  }

  function InUnary(thinking: bool): Env {
    Env((e: Event) => Write(e), (raw: RawEvent) => Read(raw), (s: string) => [s], thinking)
  }

  /** What the transport asks of its environment can be met. */
  lemma SoundExists(thinking: bool)
    ensures Sound(InUnary(thinking))
  {
    var env := InUnary(thinking);
    forall e: Event
      ensures Clean(env.encode(e)) && env.decode(env.encode(e)) == e {
      WrittenReadsBack(e);
    }
    forall s: string
      ensures Concat(env.cut(s)) == s {
      assert [s][1..] == [] && s + "" == s;
    }
  }
}
