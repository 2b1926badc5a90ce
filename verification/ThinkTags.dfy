/** The streaming parser for <think>...</think> tags, against a one-pass scanner that sees the whole
    text at once. */
module ThinkTags {
  import opened Prelude

  datatype ContentType = TEXT | THINKING

  datatype ContentChunk = ContentChunk(kind: ContentType, content: string)

  datatype Parser = Parser(buffer: string, inThink: bool)

  const OPEN_TAG := "<think>"
  const CLOSE_TAG := "</think>"

  // ---------------------------------------------------------------------------------------------
  // The parser
  // ---------------------------------------------------------------------------------------------

  /** Python's s.rfind("<"). */
  function LastBracket(s: string): (k: int)
    ensures -1 <= k < |s|
    ensures k >= 0 ==> s[k] == '<'
    ensures forall j | k < j < |s| :: s[j] != '<'
  {
    if s == "" then -1
    else if s[|s| - 1] == '<' then |s| - 1
    else LastBracket(s[..|s| - 1])
  }

  predicate ProperPrefix(s: string, tag: string) {
    |s| < |tag| && s <= tag
  }

  predicate PartialTag(s: string, inThink: bool) {
    ProperPrefix(s, CLOSE_TAG) || (!inThink && ProperPrefix(s, OPEN_TAG))
  }

  function Chunk(kind: ContentType, content: string): Option<ContentChunk> {
    if content == "" then None else Some(ContentChunk(kind, content))
  }

  function KindIn(inThink: bool): ContentType {
    if inThink then THINKING else TEXT
  }

  /** No complete tag is buffered: emit all but a possible start of a tag at the end. */
  function HoldBack(p: Parser): (Parser, Option<ContentChunk>) {
    var last := LastBracket(p.buffer);
    var cut := if last != -1 && PartialTag(p.buffer[last..], p.inThink) then last else |p.buffer|;
    (p.(buffer := p.buffer[cut..]), Chunk(KindIn(p.inThink), p.buffer[..cut]))
  }

  function Consume(p: Parser, at: int, tag: string, inThink: bool): (Parser, Option<ContentChunk>)
    requires 0 <= at <= |p.buffer| - |tag|
  {
    (Parser(p.buffer[at + |tag|..], inThink), Chunk(KindIn(p.inThink), p.buffer[..at]))
  }

  function ParseOutside(p: Parser): (Parser, Option<ContentChunk>) {
    var start := Find(p.buffer, OPEN_TAG);
    var orphan := Find(p.buffer, CLOSE_TAG);
    if orphan != -1 && (start == -1 || orphan < start) then Consume(p, orphan, CLOSE_TAG, false)
    else if start == -1 then HoldBack(p)
    else Consume(p, start, OPEN_TAG, true)
  }

  function ParseInside(p: Parser): (Parser, Option<ContentChunk>) {
    var end := Find(p.buffer, CLOSE_TAG);
    if end == -1 then HoldBack(p) else Consume(p, end, CLOSE_TAG, false)
  }

  function ParseStep(p: Parser): (Parser, Option<ContentChunk>) {
    if p.inThink then ParseInside(p) else ParseOutside(p)
  }

  /** Each turn of the loop emits something or shortens the buffer, or the loop stops. */
  function Drain(p: Parser): (Parser, seq<ContentChunk>)
    decreases |p.buffer|
  {
    if p.buffer == "" then (p, [])
    else
      var (p1, chunk) := ParseStep(p);
      if |p1.buffer| == |p.buffer| then (p1, [])
      else
        var (p2, chunks) := Drain(p1);
        (p2, (if chunk.Some? then [chunk.value] else []) + chunks)
  }

  lemma DrainUnfolds(p: Parser, p1: Parser, chunk: Option<ContentChunk>, sofar: seq<ContentChunk>)
    requires p.buffer != "" && ParseStep(p) == (p1, chunk)
    requires if chunk.Some? then |p1.buffer| < |p.buffer| else |p1.buffer| <= |p.buffer|
    ensures if |p1.buffer| == |p.buffer| then Drain(p) == (p1, []) && sofar + [] == sofar
            else Drain(p) == (Drain(p1).0, (if chunk.Some? then [chunk.value] else []) + Drain(p1).1)
    ensures chunk.Some? ==> sofar + Drain(p).1 == sofar + [chunk.value] + Drain(p1).1
    ensures chunk.None? && |p1.buffer| < |p.buffer| ==> Drain(p).1 == Drain(p1).1
    ensures p1 == p || |p1.buffer| < |p.buffer|
  {
  }

  function Feed(p: Parser, content: string): (Parser, seq<ContentChunk>) {
    Drain(p.(buffer := p.buffer + content))
  }

  function Flush(p: Parser): (Parser, Option<ContentChunk>) {
    (p.(buffer := ""), Chunk(KindIn(p.inThink), p.buffer))
  }

  class ThinkTagParser {
    var buffer: string
    var inThinkTag: bool

    function View(): Parser
      reads this
    {
      Parser(buffer, inThinkTag)
    }

    constructor ()
      ensures View() == Parser("", false)
    {
      buffer, inThinkTag := "", false;
    }

    method FeedContent(content: string) returns (chunks: seq<ContentChunk>)
      modifies this
      ensures (View(), chunks) == Feed(old(View()), content)
    {
      buffer := buffer + content;
      chunks := [];
      ghost var end, emitted := Drain(View()).0, Drain(View()).1;
      while buffer != ""
        invariant Drain(View()).0 == end
        invariant chunks + Drain(View()).1 == emitted
        decreases |buffer|
      {
        var prevLen := |buffer|;
        var chunk := ParseOnce(chunks);
        if chunk.Some? {
          chunks := chunks + [chunk.value];
        } else if |buffer| == prevLen {
          break;
        }
      }
      assert Drain(View()) == (View(), []) && chunks + [] == chunks;
    }

    /** One turn of the loop, and what is left for the turns after it. */
    method ParseOnce(ghost sofar: seq<ContentChunk>) returns (chunk: Option<ContentChunk>)
      requires buffer != ""
      modifies this
      ensures (View(), chunk) == ParseStep(old(View()))
      ensures if chunk.Some? then |buffer| < old(|buffer|) else |buffer| <= old(|buffer|)
      ensures Drain(View()).0 == Drain(old(View())).0
      ensures chunk.Some? ==> sofar + [chunk.value] + Drain(View()).1 == sofar + Drain(old(View())).1
      ensures chunk.None? ==> Drain(View()).1 == Drain(old(View())).1
      ensures chunk.None? && |buffer| == old(|buffer|) ==> Drain(View()) == (View(), []) && sofar + [] == sofar
    {
      ghost var before := View();
      if !inThinkTag {
        chunk := ParseOutsideThink();
      } else {
        chunk := ParseInsideThink();
      }
      DrainUnfolds(before, View(), chunk, sofar);
    }

    method Emit(cut: int, rest: int, inThink: bool) returns (chunk: Option<ContentChunk>)
      requires 0 <= cut <= rest <= |buffer|
      modifies this
      ensures View() == Parser(old(buffer)[rest..], inThink)
      ensures chunk == Chunk(KindIn(old(inThinkTag)), old(buffer)[..cut])
    {
      var content := buffer[..cut];
      var kind := if inThinkTag then THINKING else TEXT;
      buffer := buffer[rest..];
      inThinkTag := inThink;
      if content == "" {
        return None;
      }
      return Some(ContentChunk(kind, content));
    }

    method ParseOutsideThink() returns (chunk: Option<ContentChunk>)
      requires !inThinkTag
      modifies this
      ensures (View(), chunk) == ParseOutside(old(View()))
    {
      var thinkStart := Find(buffer, OPEN_TAG);
      var orphanClose := Find(buffer, CLOSE_TAG);
      if orphanClose != -1 && (thinkStart == -1 || orphanClose < thinkStart) {
        chunk := Emit(orphanClose, orphanClose + |CLOSE_TAG|, false);
        return;
      }
      if thinkStart == -1 {
        var last := LastBracket(buffer);
        if last != -1 && (ProperPrefix(buffer[last..], OPEN_TAG) || ProperPrefix(buffer[last..], CLOSE_TAG)) {
          chunk := Emit(last, last, false);
          return;
        }
        chunk := Emit(|buffer|, |buffer|, false);
        return;
      }
      chunk := Emit(thinkStart, thinkStart + |OPEN_TAG|, true);
    }

    method ParseInsideThink() returns (chunk: Option<ContentChunk>)
      requires inThinkTag
      modifies this
      ensures (View(), chunk) == ParseInside(old(View()))
    {
      var thinkEnd := Find(buffer, CLOSE_TAG);
      if thinkEnd == -1 {
        var last := LastBracket(buffer);
        if last != -1 && |buffer| - last < |CLOSE_TAG| && buffer[last..] <= CLOSE_TAG {
          chunk := Emit(last, last, true);
          return;
        }
        chunk := Emit(|buffer|, |buffer|, true);
        return;
      }
      chunk := Emit(thinkEnd, thinkEnd + |CLOSE_TAG|, false);
    }

    method FlushRest() returns (chunk: Option<ContentChunk>)
      modifies this
      ensures (View(), chunk) == Flush(old(View()))
    {
      assert buffer[..|buffer|] == buffer && buffer[|buffer|..] == "";
      chunk := Emit(|buffer|, |buffer|, inThinkTag);
    }
  }

  // ---------------------------------------------------------------------------------------------
  // The reference: one pass over the whole text
  // ---------------------------------------------------------------------------------------------

  datatype Typed = Typed(kind: ContentType, c: char)

  /** Reads the text from left to right; a tag switches the mode and disappears, any other character
      is emitted with the type of the current mode. A close tag outside is dropped. */
  function Scan(w: string, inThink: bool): seq<Typed>
    decreases |w|
  {
    if w == "" then []
    else if CLOSE_TAG <= w then Scan(w[|CLOSE_TAG|..], false)
    else if !inThink && OPEN_TAG <= w then Scan(w[|OPEN_TAG|..], true)
    else [Typed(KindIn(inThink), w[0])] + Scan(w[1..], inThink)
  }

  /** The mode the scanner ends in. */
  function ScanMode(w: string, inThink: bool): bool
    decreases |w|
  {
    if w == "" then inThink
    else if CLOSE_TAG <= w then ScanMode(w[|CLOSE_TAG|..], false)
    else if !inThink && OPEN_TAG <= w then ScanMode(w[|OPEN_TAG|..], true)
    else ScanMode(w[1..], inThink)
  }

  function TypedText(kind: ContentType, s: string): seq<Typed> {
    seq(|s|, i requires 0 <= i < |s| => Typed(kind, s[i]))
  }

  function TypedChunk(chunk: Option<ContentChunk>): seq<Typed> {
    if chunk.None? then [] else TypedText(chunk.value.kind, chunk.value.content)
  }

  function TypedChunks(chunks: seq<ContentChunk>): seq<Typed> {
    if chunks == [] then [] else TypedText(chunks[0].kind, chunks[0].content) + TypedChunks(chunks[1..])
  }

  lemma {:induction false} TypedChunksAppend(a: seq<ContentChunk>, b: seq<ContentChunk>)
    ensures TypedChunks(a + b) == TypedChunks(a) + TypedChunks(b)
  {
    if a == [] {
      assert a + b == b;
    } else {
      assert (a + b)[0] == a[0] && (a + b)[1..] == a[1..] + b;
      TypedChunksAppend(a[1..], b);
    }
  }

  /** A tag that the current mode recognises starts at position j. */
  ghost predicate TagAt(w: string, inThink: bool, j: int) {
    OccursAt(w, CLOSE_TAG, j) || (!inThink && OccursAt(w, OPEN_TAG, j))
  }

  lemma TagAtStart(w: string, inThink: bool)
    ensures TagAt(w, inThink, 0) <==> CLOSE_TAG <= w || (!inThink && OPEN_TAG <= w)
  {
  }

  lemma OccursShift(w: string, t: string, k: nat, j: nat)
    requires k <= |w|
    ensures OccursAt(w[k..], t, j) <==> OccursAt(w, t, k + j)
  {
    if k + j + |t| <= |w| {
      assert w[k..][j..j + |t|] == w[k + j..k + j + |t|];
    }
  }

  /** Text in which no tag starts is scanned character by character. */
  lemma {:induction false} ScanPlain(a: string, w: string, inThink: bool)
    requires forall j | 0 <= j < |a| :: !TagAt(a + w, inThink, j)
    ensures Scan(a + w, inThink) == TypedText(KindIn(inThink), a) + Scan(w, inThink)
    ensures ScanMode(a + w, inThink) == ScanMode(w, inThink)
    decreases |a|
  {
    if a == "" {
      assert a + w == w;
      assert TypedText(KindIn(inThink), a) == [];
    } else {
      assert (a + w)[1..] == a[1..] + w && (a + w)[0] == a[0];
      PlainRest(a, w, inThink);
      ScanHead(a + w, inThink);
      ScanPlain(a[1..], w, inThink);
      TypedHead(KindIn(inThink), a, Scan(w, inThink));
    }
  }

  lemma ScanHead(w: string, inThink: bool)
    requires w != "" && !TagAt(w, inThink, 0)
    ensures Scan(w, inThink) == [Typed(KindIn(inThink), w[0])] + Scan(w[1..], inThink)
    ensures ScanMode(w, inThink) == ScanMode(w[1..], inThink)
  {
    TagAtStart(w, inThink);
  }

  lemma PlainRest(a: string, w: string, inThink: bool)
    requires a != "" && forall j | 0 <= j < |a| :: !TagAt(a + w, inThink, j)
    ensures forall j | 0 <= j < |a[1..]| :: !TagAt(a[1..] + w, inThink, j)
  {
    assert (a + w)[1..] == a[1..] + w;
    forall j | 0 <= j < |a[1..]| ensures !TagAt(a[1..] + w, inThink, j) {
      OccursShift(a + w, CLOSE_TAG, 1, j);
      OccursShift(a + w, OPEN_TAG, 1, j);
      assert !TagAt(a + w, inThink, j + 1);
    }
  }

  lemma TypedHead(kind: ContentType, a: string, more: seq<Typed>)
    requires a != ""
    ensures TypedText(kind, a) + more == [Typed(kind, a[0])] + (TypedText(kind, a[1..]) + more)
  {
    assert TypedText(kind, a) == [Typed(kind, a[0])] + TypedText(kind, a[1..]);
  }

  ghost predicate TagShape(t: string) {
    t != "" && t[0] == '<' && forall i | 0 < i < |t| :: t[i] != '<'
  }

  lemma OccursShape(w: string, t: string, j: int)
    requires OccursAt(w, t, j) && TagShape(t)
    ensures w[j] == '<' && forall i | j < i < j + |t| :: w[i] != '<'
  {
    var piece := w[j..j + |t|];
    assert w[j] == piece[0];
    forall i | j < i < j + |t| ensures w[i] != '<' {
      assert w[i] == piece[i - j];
    }
  }

  /** Where text follows the buffer, a tag starting inside the buffer is complete there, or the
      buffer ends in a part of it. Tags have one bracket, at the front, so this happens at the last
      bracket of the buffer only. */
  lemma OccursInBuffer(a: string, w: string, t: string, j: int)
    requires TagShape(t) && OccursAt(a + w, t, j) && j < |a|
    ensures OccursAt(a, t, j) || (ProperPrefix(a[j..], t) && LastBracket(a) == j)
    ensures forall cut | j < cut < |a| && a[cut] == '<' :: OccursAt(a, t, j)
  {
    if j + |t| <= |a| {
      assert (a + w)[j..j + |t|] == a[j..j + |t|];
    } else {
      OneBracket(a, w, t, j);
      OverhangIsPrefix(a, w, t, j);
    }
  }

  /** A tag that hangs over the end of a has the last bracket of a. */
  lemma OneBracket(a: string, w: string, t: string, j: int)
    requires TagShape(t) && OccursAt(a + w, t, j) && 0 <= j < |a| < j + |t|
    ensures a[j] == '<' && forall i | j < i < |a| :: a[i] != '<'
    ensures LastBracket(a) == j
  {
    OccursShape(a + w, t, j);
    assert forall i | j <= i < |a| :: a[i] == (a + w)[i];
  }

  lemma OverhangIsPrefix(a: string, w: string, t: string, j: int)
    requires OccursAt(a + w, t, j) && j < |a| < j + |t|
    ensures a[j..] == t[..|a| - j]
  {
    assert a[j..] == (a + w)[j..j + |t|][..|a| - j];
  }

  lemma TagShapes()
    ensures TagShape(CLOSE_TAG) && TagShape(OPEN_TAG)
  {
  }

  lemma TagInBuffer(a: string, w: string, inThink: bool, j: int)
    requires TagAt(a + w, inThink, j) && j < |a|
    ensures TagAt(a, inThink, j) || (PartialTag(a[j..], inThink) && LastBracket(a) == j)
    ensures forall cut | j < cut < |a| && a[cut] == '<' :: TagAt(a, inThink, j)
  {
    TagShapes();
    if OccursAt(a + w, CLOSE_TAG, j) {
      OccursInBuffer(a, w, CLOSE_TAG, j);
    } else {
      OccursInBuffer(a, w, OPEN_TAG, j);
    }
  }

  /** The text before a bracket in the buffer is plain when the buffer has no tag before it. */
  lemma PlainBefore(a: string, w: string, inThink: bool, cut: nat)
    requires cut < |a| && a[cut] == '<'
    requires forall j | 0 <= j < cut :: !TagAt(a, inThink, j)
    ensures Scan(a + w, inThink) == TypedText(KindIn(inThink), a[..cut]) + Scan(a[cut..] + w, inThink)
    ensures ScanMode(a + w, inThink) == ScanMode(a[cut..] + w, inThink)
  {
    assert a[..cut] + (a[cut..] + w) == a + w;
    assert forall j | 0 <= j < cut :: TagAt(a + w, inThink, j) ==> TagAt(a, inThink, j) by {
      forall j | 0 <= j < cut && TagAt(a + w, inThink, j) ensures TagAt(a, inThink, j) {
        TagInBuffer(a, w, inThink, j);
      }
    }
    ScanPlain(a[..cut], a[cut..] + w, inThink);
  }

  /** The whole buffer is plain when it has no tag and does not end in a part of one. */
  lemma PlainAll(a: string, w: string, inThink: bool)
    requires forall j | 0 <= j < |a| :: !TagAt(a, inThink, j)
    requires LastBracket(a) == -1 || !PartialTag(a[LastBracket(a)..], inThink)
    ensures Scan(a + w, inThink) == TypedText(KindIn(inThink), a) + Scan(w, inThink)
    ensures ScanMode(a + w, inThink) == ScanMode(w, inThink)
  {
    assert forall j | 0 <= j < |a| :: !TagAt(a + w, inThink, j) by {
      forall j | 0 <= j < |a| && TagAt(a + w, inThink, j) ensures TagAt(a, inThink, j) {
        TagInBuffer(a, w, inThink, j);
      }
    }
    ScanPlain(a, w, inThink);
  }

  lemma ChunkIsTyped(kind: ContentType, content: string)
    ensures TypedChunk(Chunk(kind, content)) == TypedText(kind, content)
  {
    assert content == "" ==> TypedText(kind, content) == [];
  }

  /** Scanning s emits the given characters and goes on as scanning s1. */
  ghost predicate SameScan(s: string, inThink: bool, emitted: seq<Typed>, s1: string, inThink1: bool) {
    && Scan(s, inThink) == emitted + Scan(s1, inThink1)
    && ScanMode(s, inThink) == ScanMode(s1, inThink1)
  }

  lemma SameScanRefl(s: string, inThink: bool)
    ensures SameScan(s, inThink, [], s, inThink)
  {
    assert [] + Scan(s, inThink) == Scan(s, inThink);
  }

  lemma SameScanThen(s: string, m: bool, first: seq<Typed>, s1: string, m1: bool, second: seq<Typed>, s2: string, m2: bool)
    requires SameScan(s, m, first, s1, m1) && SameScan(s1, m1, second, s2, m2)
    ensures SameScan(s, m, first + second, s2, m2)
  {
    assert first + second + Scan(s2, m2) == first + (second + Scan(s2, m2));
  }

  lemma ScanTag(s: string, m: bool, tag: string, m1: bool)
    requires (tag == CLOSE_TAG && !m1) || (tag == OPEN_TAG && !m && m1)
    requires tag <= s
    ensures SameScan(s, m, [], s[|tag|..], m1)
  {
    if tag == OPEN_TAG {
      assert s[1] == OPEN_TAG[1];
      assert !(CLOSE_TAG <= s);
    }
    assert [] + Scan(s[|tag|..], m1) == Scan(s[|tag|..], m1);
  }

  lemma TagAhead(s: string, tag: string, at: int, w: string)
    requires OccursAt(s, tag, at)
    ensures tag <= s[at..] + w && (s[at..] + w)[|tag|..] == s[at + |tag|..] + w
  {
    assert (s[at..] + w)[..|tag|] == s[at..at + |tag|];
  }

  /** Consuming a tag found at the first possible place is what the scanner does. */
  lemma ConsumeIsScan(p: Parser, at: int, tag: string, inThink: bool, w: string)
    requires (tag == CLOSE_TAG && !inThink) || (tag == OPEN_TAG && !p.inThink && inThink)
    requires OccursAt(p.buffer, tag, at)
    requires forall j | 0 <= j < at :: !TagAt(p.buffer, p.inThink, j)
    ensures var (p1, chunk) := Consume(p, at, tag, inThink);
            SameScan(p.buffer + w, p.inThink, TypedChunk(chunk), p1.buffer + w, p1.inThink)
  {
    TagShapes();
    OccursShape(p.buffer, tag, at);
    var pre, rest := p.buffer[..at], p.buffer[at..] + w;
    PlainBefore(p.buffer, w, p.inThink, at);
    ChunkIsTyped(KindIn(p.inThink), pre);
    TagAhead(p.buffer, tag, at, w);
    ScanTag(rest, p.inThink, tag, inThink);
    var typed := TypedText(KindIn(p.inThink), pre);
    SameScanThen(p.buffer + w, p.inThink, typed, rest, p.inThink, [], rest[|tag|..], inThink);
    assert typed + [] == typed;
  }

  lemma HoldBackIsScan(p: Parser, w: string)
    requires forall j | 0 <= j < |p.buffer| :: !TagAt(p.buffer, p.inThink, j)
    ensures var (p1, chunk) := HoldBack(p);
            SameScan(p.buffer + w, p.inThink, TypedChunk(chunk), p1.buffer + w, p1.inThink)
  {
    var last := LastBracket(p.buffer);
    if last != -1 && PartialTag(p.buffer[last..], p.inThink) {
      PlainBefore(p.buffer, w, p.inThink, last);
      ChunkIsTyped(KindIn(p.inThink), p.buffer[..last]);
    } else {
      PlainAll(p.buffer, w, p.inThink);
      ChunkIsTyped(KindIn(p.inThink), p.buffer);
      assert p.buffer[..|p.buffer|] == p.buffer && p.buffer[|p.buffer|..] + w == w;
    }
  }

  /** One turn of the parser's loop emits what the scanner emits, whatever text comes later. */
  lemma ParseStepIsScan(p: Parser, w: string)
    ensures var (p1, chunk) := ParseStep(p);
            SameScan(p.buffer + w, p.inThink, TypedChunk(chunk), p1.buffer + w, p1.inThink)
  {
    var close, open := Find(p.buffer, CLOSE_TAG), Find(p.buffer, OPEN_TAG);
    FindFirst(p.buffer, CLOSE_TAG);
    FindFirst(p.buffer, OPEN_TAG);
    if close != -1 && (p.inThink || open == -1 || close < open) {
      ConsumeIsScan(p, close, CLOSE_TAG, false, w);
    } else if !p.inThink && open != -1 {
      ConsumeIsScan(p, open, OPEN_TAG, true, w);
    } else {
      HoldBackIsScan(p, w);
    }
  }

  lemma TypedChunksHead(chunk: Option<ContentChunk>, chunks: seq<ContentChunk>)
    ensures TypedChunks((if chunk.Some? then [chunk.value] else []) + chunks) == TypedChunk(chunk) + TypedChunks(chunks)
  {
    if chunk.Some? {
      assert ([chunk.value] + chunks)[1..] == chunks;
    } else {
      assert [] + chunks == chunks;
    }
  }

  lemma {:induction false} DrainIsScan(p: Parser, w: string)
    ensures var (p1, chunks) := Drain(p);
            SameScan(p.buffer + w, p.inThink, TypedChunks(chunks), p1.buffer + w, p1.inThink)
    decreases |p.buffer|
  {
    if p.buffer == "" || |ParseStep(p).0.buffer| == |p.buffer| {
      if p.buffer != "" {
        NothingEmitted(p);
      }
      assert Drain(p) == (p, []);
      SameScanRefl(p.buffer + w, p.inThink);
    } else {
      ParseStepIsScan(p, w);
      var (p1, chunk) := ParseStep(p);
      DrainIsScan(p1, w);
      var (p2, chunks) := Drain(p1);
      SameScanThen(p.buffer + w, p.inThink, TypedChunk(chunk), p1.buffer + w, p1.inThink,
                   TypedChunks(chunks), p2.buffer + w, p2.inThink);
      TypedChunksHead(chunk, chunks);
    }
  }

  lemma NothingEmitted(p: Parser)
    requires |ParseStep(p).0.buffer| == |p.buffer|
    ensures ParseStep(p) == (p, None)
  {
  }

  // ---------------------------------------------------------------------------------------------
  // The theorems
  // ---------------------------------------------------------------------------------------------

  function FeedAll(p: Parser, pieces: seq<string>): (Parser, seq<ContentChunk>)
    decreases pieces
  {
    if pieces == [] then (p, [])
    else
      var (p1, chunks1) := Feed(p, pieces[0]);
      var (p2, chunks2) := FeedAll(p1, pieces[1..]);
      (p2, chunks1 + chunks2)
  }

  /** What a feed may leave in the buffer: a proper prefix of a tag that the mode recognises. */
  predicate Settled(p: Parser) {
    |p.buffer| <= 7 && PartialTag(p.buffer, p.inThink)
  }

  lemma StuckIsSettled(p: Parser)
    requires p.buffer != "" && |ParseStep(p).0.buffer| == |p.buffer|
    ensures ParseStep(p).0 == p && Settled(p)
  {
    StuckIsHeld(p);
    HeldIsPartial(p);
  }

  lemma StuckIsHeld(p: Parser)
    requires p.buffer != "" && |ParseStep(p).0.buffer| == |p.buffer|
    ensures ParseStep(p) == HoldBack(p)
  {
    assert |OPEN_TAG| == 7 && |CLOSE_TAG| == 8;
  }

  lemma HeldIsPartial(p: Parser)
    requires p.buffer != "" && |HoldBack(p).0.buffer| == |p.buffer|
    ensures HoldBack(p).0 == p && Settled(p)
  {
    var last := LastBracket(p.buffer);
    assert last == 0 && PartialTag(p.buffer[last..], p.inThink);
    assert p.buffer[0..] == p.buffer;
    assert |OPEN_TAG| == 7 && |CLOSE_TAG| == 8;
  }

  lemma {:induction false} DrainSettles(p: Parser)
    ensures Settled(Drain(p).0)
    decreases |p.buffer|
  {
    if p.buffer != "" {
      var (p1, chunk) := ParseStep(p);
      if |p1.buffer| == |p.buffer| {
        StuckIsSettled(p);
      } else {
        DrainSettles(p1);
      }
    }
  }

  lemma FeedSettled(p: Parser, content: string)
    ensures Settled(Feed(p, content).0)
  {
    DrainSettles(p.(buffer := p.buffer + content));
  }

  /** After every feed the parser holds back a proper prefix of the close tag or, outside of thinking, of the
      open tag: at most 7 characters. */
  lemma FeedSettles(p: Parser, content: string)
    ensures var q := Feed(p, content).0;
            |q.buffer| <= 7 && (q.buffer < "</think>" || (!q.inThink && q.buffer < "<think>"))
  {
    FeedSettled(p, content);
  }

  lemma GlueScans(s: string, s': string, m: bool, chunks1: seq<ContentChunk>, s1: string, s1': string, m1: bool,
                  chunks2: seq<ContentChunk>, s2: string, m2: bool)
    requires s == s' && s1 == s1'
    requires SameScan(s, m, TypedChunks(chunks1), s1, m1)
    requires SameScan(s1', m1, TypedChunks(chunks2), s2, m2)
    ensures SameScan(s', m, TypedChunks(chunks1 + chunks2), s2, m2)
  {
    TypedChunksAppend(chunks1, chunks2);
    SameScanThen(s, m, TypedChunks(chunks1), s1, m1, TypedChunks(chunks2), s2, m2);
  }

  lemma Reassociate(held: string, piece: string, rest: string, w: string)
    ensures held + piece + (rest + w) == held + (piece + rest) + w
    ensures held + (rest + w) == held + rest + w
  {
  }

  lemma {:induction false} FeedAllIsScan(p: Parser, pieces: seq<string>, w: string)
    ensures var (p1, chunks) := FeedAll(p, pieces);
            SameScan(p.buffer + Concat(pieces) + w, p.inThink, TypedChunks(chunks), p1.buffer + w, p1.inThink)
    decreases pieces
  {
    if pieces == [] {
      assert p.buffer + Concat(pieces) == p.buffer;
      SameScanRefl(p.buffer + w, p.inThink);
    } else {
      var rest := Concat(pieces[1..]);
      var (p1, chunks1) := Feed(p, pieces[0]);
      var (p2, chunks2) := FeedAll(p1, pieces[1..]);
      DrainIsScan(p.(buffer := p.buffer + pieces[0]), rest + w);
      FeedAllIsScan(p1, pieces[1..], w);
      Reassociate(p.buffer, pieces[0], rest, w);
      Reassociate(p1.buffer, pieces[0], rest, w);
      GlueScans(p.buffer + pieces[0] + (rest + w), p.buffer + (pieces[0] + rest) + w, p.inThink, chunks1,
                p1.buffer + (rest + w), p1.buffer + rest + w, p1.inThink, chunks2, p2.buffer + w, p2.inThink);
    }
  }

  lemma {:induction false} FeedAllSettles(p: Parser, pieces: seq<string>)
    requires Settled(p)
    ensures Settled(FeedAll(p, pieces).0)
    decreases pieces
  {
    if pieces != [] {
      FeedSettled(p, pieces[0]);
      FeedAllSettles(Feed(p, pieces[0]).0, pieces[1..]);
    }
  }

  /** What a settled parser flushes is plain text to the scanner. */
  lemma FlushIsScan(p: Parser)
    requires Settled(p)
    ensures TypedChunk(Flush(p).1) == Scan(p.buffer, p.inThink) && ScanMode(p.buffer, p.inThink) == p.inThink
  {
    ChunkIsTyped(KindIn(p.inThink), p.buffer);
    assert p.buffer + "" == p.buffer;
    forall j | 0 <= j < |p.buffer| ensures !TagAt(p.buffer, p.inThink, j) {
      assert OccursAt(p.buffer, OPEN_TAG, j) ==> |p.buffer| >= 7 && p.buffer[j + 1] == p.buffer[j..j + 7][1];
    }
    ScanPlain(p.buffer, "", p.inThink);
  }

  /** However the text is cut, the typed characters of all feeds and the final flush are those of
      the one-pass scanner on the whole text, and the parser ends in the scanner's mode. */
  lemma CutsDoNotMatter(pieces: seq<string>)
    ensures var (p, chunks) := FeedAll(Parser("", false), pieces);
            && TypedChunks(chunks) + TypedChunk(Flush(p).1) == Scan(Concat(pieces), false)
            && p.inThink == ScanMode(Concat(pieces), false)
  {
    var p := FeedAll(Parser("", false), pieces).0;
    FeedAllIsScan(Parser("", false), pieces, "");
    FeedAllSettles(Parser("", false), pieces);
    FlushIsScan(p);
    assert "" + Concat(pieces) == Concat(pieces) && Concat(pieces) + "" == Concat(pieces);
    assert p.buffer + "" == p.buffer;
  }

  // ---------------------------------------------------------------------------------------------
  // Replayed reasoning
  // ---------------------------------------------------------------------------------------------

  /** The form in which the history converter replays reasoning. */
  function ThinkTagContent(reasoning: string): string {
    OPEN_TAG + "\n" + reasoning + "\n" + CLOSE_TAG
  }

  /** A close tag cannot begin or end in the newlines around the reasoning. */
  lemma WrappedIsPlain(r: string, j: int)
    requires 0 <= j < |r| + 2
    ensures OccursAt("\n" + r + "\n" + CLOSE_TAG, CLOSE_TAG, j) <==> 1 <= j && OccursAt(r, CLOSE_TAG, j - 1)
  {
    var inner := "\n" + r + "\n";
    var all := inner + CLOSE_TAG;
    TagShapes();
    if OccursAt(all, CLOSE_TAG, j) {
      OccursShape(all, CLOSE_TAG, j);
      var piece := all[j..j + 8];
      assert all[|r| + 1] == '\n' && all[|r| + 2] == '<';
      assert forall i | j <= i < j + 8 :: all[i] == piece[i - j] && all[i] != '\n';
      assert j + 8 <= |r| + 1;
    }
    if 1 <= j && j + 8 <= |r| + 1 {
      assert all[j..j + 8] == r[j - 1..j - 1 + 8];
    }
  }

  lemma ScanOfWrapped(r: string)
    requires !Contains(r, CLOSE_TAG)
    ensures Scan(ThinkTagContent(r), false) == TypedText(THINKING, "\n" + r + "\n")
    ensures !ScanMode(ThinkTagContent(r), false)
  {
    var inner := "\n" + r + "\n";
    var text := ThinkTagContent(r);
    assert text == OPEN_TAG + (inner + CLOSE_TAG);
    assert text[..7] == OPEN_TAG && text[7..] == inner + CLOSE_TAG;
    ScanTag(text, false, OPEN_TAG, true);
    forall j | 0 <= j < |inner| ensures !TagAt(inner + CLOSE_TAG, true, j) {
      WrappedIsPlain(r, j);
    }
    ScanPlain(inner, CLOSE_TAG, true);
    ScanTag(CLOSE_TAG, true, CLOSE_TAG, false);
    assert CLOSE_TAG[8..] == "";
    assert Scan(CLOSE_TAG, true) == [];
  }

  /** A close tag at the very end is always read as a tag, so its characters are never emitted. */
  lemma {:induction false} ClosedScanBound(x: string, inThink: bool)
    ensures |Scan(x + CLOSE_TAG, inThink)| <= |x|
    decreases |x|
  {
    var w := x + CLOSE_TAG;
    if x == "" {
      assert w == CLOSE_TAG;
      ScanTag(w, inThink, CLOSE_TAG, false);
      assert w[8..] == "";
    } else {
      assert w[|x|] == '<';
      if CLOSE_TAG <= w {
        TagFits(w, CLOSE_TAG, |x|);
        assert w[8..] == x[8..] + CLOSE_TAG;
        ClosedScanBound(x[8..], false);
      } else if !inThink && OPEN_TAG <= w {
        TagFits(w, OPEN_TAG, |x|);
        assert w[7..] == x[7..] + CLOSE_TAG;
        ClosedScanBound(x[7..], true);
      } else {
        assert w[1..] == x[1..] + CLOSE_TAG;
        ClosedScanBound(x[1..], inThink);
      }
    }
  }

  lemma TagFits(w: string, tag: string, k: int)
    requires tag <= w && (tag == CLOSE_TAG || tag == OPEN_TAG) && 0 < k < |w| && w[k] == '<'
    ensures |tag| <= k
  {
    TagShapes();
    assert OccursAt(w, tag, 0);
    OccursShape(w, tag, 0);
  }

  /** When the reasoning contains a close tag, thinking ends there and characters are lost. */
  lemma ScanOfBroken(r: string)
    requires Contains(r, CLOSE_TAG)
    ensures |Scan(ThinkTagContent(r), false)| < |r| + 2
  {
    var k := Find(r, CLOSE_TAG);
    FindFirst(r, CLOSE_TAG);
    var inner := "\n" + r + "\n";
    var text := ThinkTagContent(r);
    assert text == OPEN_TAG + (inner + CLOSE_TAG);
    assert text[..7] == OPEN_TAG && text[7..] == inner + CLOSE_TAG;
    ScanTag(text, false, OPEN_TAG, true);
    BrokenInner(r, inner, k);
  }

  lemma BrokenInner(r: string, inner: string, k: int)
    requires OccursAt(r, CLOSE_TAG, k) && inner == "\n" + r + "\n"
    requires forall j | 0 <= j < k :: !OccursAt(r, CLOSE_TAG, j)
    ensures |Scan(inner + CLOSE_TAG, true)| < |r| + 2
  {
    var pre, rest, after := inner[..k + 1], inner[k + 1..] + CLOSE_TAG, inner[k + 9..];
    assert pre + rest == inner + CLOSE_TAG;
    forall j | 0 <= j < |pre| ensures !TagAt(pre + rest, true, j) {
      WrappedIsPlain(r, j);
    }
    ScanPlain(pre, rest, true);
    SplitAtTag(r, inner, k);
    ScanTag(rest, true, CLOSE_TAG, false);
    ClosedScanBound(after, false);
  }

  lemma SplitAtTag(r: string, inner: string, k: int)
    requires OccursAt(r, CLOSE_TAG, k) && inner == "\n" + r + "\n"
    ensures k + 9 <= |inner|
    ensures var rest := inner[k + 1..] + CLOSE_TAG; rest[..8] == CLOSE_TAG && rest[8..] == inner[k + 9..] + CLOSE_TAG
  {
    var rest := inner[k + 1..] + CLOSE_TAG;
    assert rest[..8] == r[k..k + 8];
  }

  /** Feeding replayed reasoning in any pieces gives back exactly that reasoning with its two
      newlines, all of it as thinking, if and only if the reasoning contains no close tag. */
  lemma ReplayRoundTrip(r: string, pieces: seq<string>)
    requires Concat(pieces) == ThinkTagContent(r)
    ensures var (p, chunks) := FeedAll(Parser("", false), pieces);
            && (TypedChunks(chunks) + TypedChunk(Flush(p).1) == TypedText(THINKING, "\n" + r + "\n")
                <==> !Contains(r, CLOSE_TAG))
            && (!Contains(r, CLOSE_TAG) ==> !p.inThink)
  {
    CutsDoNotMatter(pieces);
    if Contains(r, CLOSE_TAG) {
      ScanOfBroken(r);
    } else {
      ScanOfWrapped(r);
    }
  }
}
