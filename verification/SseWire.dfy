/** The text form of server-sent events: the WHATWG event stream format (HTML Living Standard,
    sections 9.2.5 and 9.2.6) in the simplified form the repository reads and writes. */
module SseWire {
  import opened Prelude

  /** An event as text: its name and its data, with the JSON not yet decoded. */
  datatype RawEvent = RawEvent(name: string, data: string)

  /** The characters at which Python's str.splitlines() breaks. */
  predicate IsLineBreak(c: char) {
    '\U{A}' <= c <= '\U{D}' || '\U{1C}' <= c <= '\U{1E}' || c in {'\U{85}', '\U{2028}', '\U{2029}'}
  }

  function LineLength(s: string): (k: nat)
    ensures k <= |s|
    ensures forall j | 0 <= j < k :: !IsLineBreak(s[j])
    ensures k < |s| ==> IsLineBreak(s[k])
  {
    if s == "" || IsLineBreak(s[0]) then 0 else 1 + LineLength(s[1..])
  }

  function SplitLines(s: string): seq<string>
    decreases |s|
  {
    if s == "" then []
    else
      var k := LineLength(s);
      if k == |s| then [s]
      else
        var next := if s[k] == '\r' && k + 1 < |s| && s[k + 1] == '\n' then k + 2 else k + 1;
        [s[..k]] + SplitLines(s[next..])
  }

  function RStripBreaks(s: string): string {
    if s != "" && s[|s| - 1] in {'\r', '\n'} then RStripBreaks(s[..|s| - 1]) else s
  }

  /** The fields gathered for the event that is being read. */
  datatype Fields = Fields(name: string, data: seq<string>)

  const NO_FIELDS: Fields := Fields("", [])

  function Dispatch(f: Fields): seq<RawEvent> {
    if f.name == "" && f.data == [] then [] else [RawEvent(f.name, Join(f.data, "\n"))]
  }

  function ReadLine(f: Fields, line: string): (Fields, seq<RawEvent>) {
    var stripped := RStripBreaks(line);
    if stripped == "" then (NO_FIELDS, Dispatch(f))
    else if "event:" <= stripped then (f.(name := Strip(stripped[6..])), [])
    else if "data:" <= stripped then (f.(data := f.data + [Strip(stripped[5..])]), [])
    else (f, [])
  }

  function ReadLines(f: Fields, lines: seq<string>): seq<RawEvent>
    decreases lines
  {
    if lines == [] then Dispatch(f)
    else
      var (f1, out) := ReadLine(f, lines[0]);
      out + ReadLines(f1, lines[1..])
  }

  lemma ReadUnfolds(f: Fields, lines: seq<string>, sofar: seq<RawEvent>)
    requires lines != []
    ensures var (f1, out) := ReadLine(f, lines[0]);
            sofar + ReadLines(f, lines) == sofar + out + ReadLines(f1, lines[1..])
  {
    var (f1, out) := ReadLine(f, lines[0]);
    Associate(sofar, out, ReadLines(f1, lines[1..]));
  }

  lemma Associate(a: seq<RawEvent>, b: seq<RawEvent>, c: seq<RawEvent>)
    ensures a + (b + c) == a + b + c
  {
  }

  /** One line of the loop: what is gathered after it, and the event it completes. */
  method TakeLine(current: string, dataParts: seq<string>, line: string)
    returns (name: string, parts: seq<string>, out: seq<RawEvent>)
    ensures (Fields(name, parts), out) == ReadLine(Fields(current, dataParts), line)
  {
    name, parts, out := current, dataParts, [];
    var stripped := RStripBreaks(line);
    if stripped == "" {
      if current != "" || dataParts != [] {
        out := [RawEvent(current, Join(dataParts, "\n"))];
      }
      name, parts := "", [];
    } else if "event:" <= stripped {
      name := Strip(stripped[6..]);
    } else if "data:" <= stripped {
      parts := dataParts + [Strip(stripped[5..])];
    }
  }

  method ParseSseLines(lines: seq<string>) returns (events: seq<RawEvent>)
    ensures events == ReadLines(NO_FIELDS, lines)
  {
    events := [];
    var current := "";
    var dataParts: seq<string> := [];
    ghost var whole := ReadLines(NO_FIELDS, lines);
    assert lines[0..] == lines && [] + whole == whole;
    for k := 0 to |lines|
      invariant whole == events + ReadLines(Fields(current, dataParts), lines[k..])
    {
      ReadUnfolds(Fields(current, dataParts), lines[k..], events);
      assert lines[k..][0] == lines[k] && lines[k..][1..] == lines[k + 1..];
      var out;
      current, dataParts, out := TakeLine(current, dataParts, lines[k]);
      events := events + out;
    }
    assert lines[|lines|..] == [];
    if current != "" || dataParts != [] {
      events := events + [RawEvent(current, Join(dataParts, "\n"))];
    } else {
      assert events + [] == events;
    }
  }

  // ---------------------------------------------------------------------------------------------
  // What reading lines means
  // ---------------------------------------------------------------------------------------------

  /** The characters at which Python's str.splitlines() splits. */
  predicate BreakChar(c: char) {
    c in {'\U{A}', '\U{B}', '\U{C}', '\U{D}', '\U{1C}', '\U{1D}', '\U{1E}', '\U{85}', '\U{2028}', '\U{2029}'}
  }

  predicate HasNoBreak(line: string) {
    forall k | 0 <= k < |line| :: !BreakChar(line[k])
  }

  /** The text is the lines with a break after each, perhaps but the last; a carriage return and a line feed are
      one break. */
  predicate SplitsInto(s: string, lines: seq<string>)
    decreases |s|
  {
    if s == "" then lines == []
    else
      && lines != [] && lines[0] <= s && HasNoBreak(lines[0])
      && var rest := s[|lines[0]|..];
         if rest == "" then |lines| == 1
         else if "\r\n" <= rest then SplitsInto(rest[2..], lines[1..])
         else BreakChar(rest[0]) && SplitsInto(rest[1..], lines[1..])
  }

  lemma BreakChars(c: char)
    ensures IsLineBreak(c) <==> BreakChar(c)
  {
  }

  lemma LineHasNoBreak(s: string)
    ensures HasNoBreak(s[..LineLength(s)])
  {
    forall k | 0 <= k < LineLength(s)
      ensures !BreakChar(s[..LineLength(s)][k]) {
      BreakChars(s[k]);
    }
  }

  lemma {:induction false} SplitLinesMeaning(s: string)
    ensures SplitsInto(s, SplitLines(s))
    decreases |s|
  {
    if s != "" {
      var k := LineLength(s);
      LineHasNoBreak(s);
      if k == |s| {
        assert s[..k] == s;
      } else {
        BreakChars(s[k]);
        var rest := s[k..];
        var next := if s[k] == '\r' && k + 1 < |s| && s[k + 1] == '\n' then k + 2 else k + 1;
        SplitLinesMeaning(s[next..]);
        SplitTail(s, k);
        assert ([s[..k]] + SplitLines(s[next..]))[1..] == SplitLines(s[next..]);
      }
    }
  }

  lemma SplitTail(s: string, k: nat)
    requires k < |s|
    ensures var rest := s[k..];
            && rest != "" && rest[0] == s[k] && s[k + 1..] == rest[1..]
            && ("\r\n" <= rest <==> s[k] == '\r' && k + 1 < |s| && s[k + 1] == '\n')
            && (k + 1 < |s| ==> s[k + 2..] == rest[2..])
  {
    var rest := s[k..];
    if k + 1 < |s| {
      assert rest[1] == s[k + 1];
      assert rest[..2] == [s[k], s[k + 1]];
    }
  }

  /** The line without the line breaks at its end. */
  lemma {:induction false} BareMeaning(line: string)
    ensures var r := RStripBreaks(line);
            && r <= line && (forall k | |r| <= k < |line| :: line[k] in {'\r', '\n'})
            && (r != "" ==> r[|r| - 1] !in {'\r', '\n'})
  {
    if line != "" && line[|line| - 1] in {'\r', '\n'} {
      BareMeaning(line[..|line| - 1]);
    }
  }

  predicate NamesEvent(line: string) {
    "event:" <= RStripBreaks(line)
  }

  predicate HoldsData(line: string) {
    "data:" <= RStripBreaks(line)
  }

  /** What follows the last event: of the lines. */
  function NameIn(lines: seq<string>): string {
    if lines == [] then ""
    else
      var last := lines[|lines| - 1];
      if NamesEvent(last) then Strip(RStripBreaks(last)[6..]) else NameIn(lines[..|lines| - 1])
  }

  /** What follows each data: of the lines. */
  function DataIn(lines: seq<string>): seq<string> {
    if lines == [] then []
    else
      var last := lines[|lines| - 1];
      DataIn(lines[..|lines| - 1]) + if HoldsData(last) then [Strip(RStripBreaks(last)[5..])] else []
  }

  /** One event for the lines, its data joined line by line, unless they hold none. */
  function EventIn(lines: seq<string>): seq<RawEvent> {
    if NameIn(lines) == "" && DataIn(lines) == [] then [] else [RawEvent(NameIn(lines), Join(DataIn(lines), "\n"))]
  }

  function FirstBlank(lines: seq<string>): (k: nat)
    ensures k <= |lines|
  {
    if lines == [] || RStripBreaks(lines[0]) == "" then 0 else FirstBlank(lines[1..]) + 1
  }

  /** The lines in groups between blank lines, each group an event. */
  function EventsIn(lines: seq<string>): seq<RawEvent>
    decreases |lines|
  {
    var k := FirstBlank(lines);
    EventIn(lines[..k]) + if k == |lines| then [] else EventsIn(lines[k + 1..])
  }

  lemma NotBoth(line: string)
    ensures !(NamesEvent(line) && HoldsData(line))
  {
    var r := RStripBreaks(line);
    if NamesEvent(line) {
      assert r[0] == 'e';
    }
    if HoldsData(line) {
      assert r[0] == 'd';
    }
  }

  lemma OneMoreIn(sofar: seq<string>, line: string)
    ensures NameIn(sofar + [line]) == if NamesEvent(line) then Strip(RStripBreaks(line)[6..]) else NameIn(sofar)
    ensures DataIn(sofar + [line]) == DataIn(sofar) + if HoldsData(line) then [Strip(RStripBreaks(line)[5..])] else []
  {
    assert (sofar + [line])[..|sofar|] == sofar;
  }

  lemma LineForm(f: Fields, line: string)
    requires RStripBreaks(line) != ""
    ensures ReadLine(f, line) ==
            (if NamesEvent(line) then f.(name := Strip(RStripBreaks(line)[6..]))
             else if HoldsData(line) then f.(data := f.data + [Strip(RStripBreaks(line)[5..])])
             else f, [])
  {
  }

  lemma OneMoreLine(sofar: seq<string>, line: string)
    requires RStripBreaks(line) != ""
    ensures ReadLine(Fields(NameIn(sofar), DataIn(sofar)), line) == (Fields(NameIn(sofar + [line]), DataIn(sofar + [line])), [])
  {
    OneMoreIn(sofar, line);
    LineGives(NameIn(sofar), DataIn(sofar), line, NameIn(sofar + [line]), DataIn(sofar + [line]));
  }

  lemma LineGives(name: string, data: seq<string>, line: string, name1: string, data1: seq<string>)
    requires RStripBreaks(line) != ""
    requires name1 == if NamesEvent(line) then Strip(RStripBreaks(line)[6..]) else name
    requires data1 == data + if HoldsData(line) then [Strip(RStripBreaks(line)[5..])] else []
    ensures ReadLine(Fields(name, data), line) == (Fields(name1, data1), [])
  {
    LineForm(Fields(name, data), line);
    NotBoth(line);
    assert data + [] == data;
  }

  /** What is read of the lines when some have been gathered already. */
  function EventsAfter(sofar: seq<string>, lines: seq<string>): seq<RawEvent> {
    var k := FirstBlank(lines);
    EventIn(sofar + lines[..k]) + if k == |lines| then [] else EventsIn(lines[k + 1..])
  }

  lemma AfterLine(sofar: seq<string>, lines: seq<string>)
    requires lines != [] && RStripBreaks(lines[0]) != ""
    ensures EventsAfter(sofar, lines) == EventsAfter(sofar + [lines[0]], lines[1..])
  {
    var k := FirstBlank(lines[1..]);
    assert sofar + lines[..k + 1] == sofar + [lines[0]] + lines[1..][..k];
    if k < |lines[1..]| {
      assert lines[k + 2..] == lines[1..][k + 1..];
    }
  }

  lemma AfterBlank(sofar: seq<string>, lines: seq<string>)
    requires lines != [] && RStripBreaks(lines[0]) == ""
    ensures EventsAfter(sofar, lines) == EventIn(sofar) + EventsIn(lines[1..])
  {
    assert sofar + lines[..0] == sofar;
  }

  lemma AfterNothing(lines: seq<string>)
    ensures EventsAfter([], lines) == EventsIn(lines)
  {
    var k := FirstBlank(lines);
    assert [] + lines[..k] == lines[..k];
  }

  lemma {:induction false} GroupFrom(sofar: seq<string>, lines: seq<string>)
    ensures ReadLines(Fields(NameIn(sofar), DataIn(sofar)), lines) == EventsAfter(sofar, lines)
    decreases |lines|
  {
    if lines == [] {
      assert sofar + [] == sofar && EventIn(sofar) + [] == EventIn(sofar);
    } else if RStripBreaks(lines[0]) == "" {
      GroupFrom([], lines[1..]);
      AfterNothing(lines[1..]);
      AfterBlank(sofar, lines);
    } else {
      OneMoreLine(sofar, lines[0]);
      GroupFrom(sofar + [lines[0]], lines[1..]);
      AfterLine(sofar, lines);
      assert [] + EventsAfter(sofar + [lines[0]], lines[1..]) == EventsAfter(sofar + [lines[0]], lines[1..]);
    }
  }

  /** Reading lines is reading them group by group: lines that are neither event: nor data: are ignored. */
  lemma ReadsByGroups(lines: seq<string>)
    ensures ReadLines(NO_FIELDS, lines) == EventsIn(lines)
  {
    GroupFrom([], lines);
    AfterNothing(lines);
  }

  // ---------------------------------------------------------------------------------------------
  // Writing and reading back
  // ---------------------------------------------------------------------------------------------

  function FieldLine(key: string, value: string): string {
    key + " " + value
  }

  /** The lines of an event, without the blank line that ends it. */
  function FrameText(e: RawEvent): string {
    FieldLine("event:", e.name) + "\n" + FieldLine("data:", e.data)
  }

  /** format_sse_event. */
  function Format(e: RawEvent): string {
    FrameText(e) + "\n\n"
  }

  /** A field that survives: one non-empty line without white space around it. Event names and
      json.dumps output are such fields. */
  predicate CleanField(s: string) {
    && s != ""
    && !IsSpace(s[0]) && !IsSpace(s[|s| - 1])
    && forall k | 0 <= k < |s| :: !IsLineBreak(s[k])
  }

  predicate Clean(e: RawEvent) {
    CleanField(e.name) && CleanField(e.data)
  }

  lemma StripClean(s: string)
    requires CleanField(s)
    ensures Strip(" " + s) == s
  {
    assert (" " + s)[1..] == s;
    assert StripLeft(" " + s) == StripLeft(s);
  }

  lemma SplitFirstLine(line: string, rest: string)
    requires forall k | 0 <= k < |line| :: !IsLineBreak(line[k])
    ensures SplitLines(line + "\n" + rest) == [line] + SplitLines(rest)
    ensures line != "" ==> SplitLines(line) == [line]
  {
    var s := line + "\n" + rest;
    assert s[|line|] == '\n';
    assert forall k | 0 <= k < |line| :: s[k] == line[k];
    assert LineLength(s) == |line|;
    assert s[..|line|] == line && s[|line| + 1..] == rest;
  }

  predicate OneLine(s: string) {
    forall k | 0 <= k < |s| :: !IsLineBreak(s[k])
  }

  lemma FieldLineShape(key: string, value: string)
    requires CleanField(value) && OneLine(key)
    ensures var line := FieldLine(key, value);
            && line != "" && OneLine(line)
            && RStripBreaks(line) == line
            && key <= line && Strip(line[|key|..]) == value
  {
    FieldLineParts(key, value);
    StripClean(value);
  }

  lemma FieldLineParts(key: string, value: string)
    requires OneLine(key) && OneLine(value) && value != ""
    ensures var line := FieldLine(key, value);
            line != "" && OneLine(line) && RStripBreaks(line) == line && key <= line && line[|key|..] == " " + value
  {
    var line := FieldLine(key, value);
    assert line[|line| - 1] == value[|value| - 1];
  }

  lemma ReadsName(f: Fields, line: string, value: string)
    requires line != "" && RStripBreaks(line) == line && "event:" <= line && Strip(line[6..]) == value
    ensures ReadLine(f, line) == (f.(name := value), [])
  {
  }

  lemma ReadsData(f: Fields, line: string, value: string)
    requires line != "" && RStripBreaks(line) == line && !("event:" <= line) && "data:" <= line && Strip(line[5..]) == value
    ensures ReadLine(f, line) == (f.(data := f.data + [value]), [])
  {
  }

  lemma NameLine(e: RawEvent, f: Fields)
    requires Clean(e)
    ensures ReadLine(f, FieldLine("event:", e.name)) == (f.(name := e.name), [])
    ensures FieldLine("event:", e.name) != "" && OneLine(FieldLine("event:", e.name))
  {
    var key := "event:";
    FieldLineShape(key, e.name);
    ReadsName(f, FieldLine(key, e.name), e.name);
  }

  lemma StartsWithData(line: string)
    requires "data:" <= line
    ensures !("event:" <= line)
  {
    assert line[0] == 'd';
  }

  lemma DataLine(e: RawEvent, f: Fields)
    requires Clean(e)
    ensures ReadLine(f, FieldLine("data:", e.data)) == (f.(data := f.data + [e.data]), [])
    ensures FieldLine("data:", e.data) != "" && OneLine(FieldLine("data:", e.data))
  {
    var key := "data:";
    FieldLineShape(key, e.data);
    StartsWithData(key + " " + e.data);
    ReadsData(f, FieldLine(key, e.data), e.data);
  }

  lemma BlankLine(e: RawEvent)
    requires Clean(e)
    ensures ReadLine(Fields(e.name, [e.data]), "") == (NO_FIELDS, [e])
    ensures Dispatch(Fields(e.name, [e.data])) == [e]
  {
  }

  lemma ReadCons(f: Fields, line: string, more: seq<string>, f1: Fields, out: seq<RawEvent>)
    requires ReadLine(f, line) == (f1, out)
    ensures ReadLines(f, [line] + more) == out + ReadLines(f1, more)
  {
    assert ([line] + more)[0] == line && ([line] + more)[1..] == more;
  }

  lemma ReadQuietly(f: Fields, line: string, more: seq<string>, f1: Fields)
    requires ReadLine(f, line) == (f1, [])
    ensures ReadLines(f, [line] + more) == ReadLines(f1, more)
  {
    ReadCons(f, line, more, f1, []);
    assert [] + ReadLines(f1, more) == ReadLines(f1, more);
  }

  /** The two lines of an event, and what follows them. */
  lemma ReadTwo(e: RawEvent, more: seq<string>)
    requires Clean(e)
    ensures ReadLines(NO_FIELDS, [FieldLine("event:", e.name)] + ([FieldLine("data:", e.data)] + more))
         == ReadLines(Fields(e.name, [e.data]), more)
  {
    var l1, l2 := FieldLine("event:", e.name), FieldLine("data:", e.data);
    NameLine(e, NO_FIELDS);
    DataLine(e, Fields(e.name, []));
    assert [] + [e.data] == [e.data];
    ReadQuietly(NO_FIELDS, l1, [l2] + more, Fields(e.name, []));
    ReadQuietly(Fields(e.name, []), l2, more, Fields(e.name, [e.data]));
  }

  /** The lines of an event are read as that event. */
  lemma FrameRoundTrip(e: RawEvent)
    requires Clean(e)
    ensures ReadLines(NO_FIELDS, SplitLines(FrameText(e))) == [e]
  {
    var l1, l2 := FieldLine("event:", e.name), FieldLine("data:", e.data);
    NameLine(e, NO_FIELDS);
    DataLine(e, NO_FIELDS);
    SplitFirstLine(l1, l2);
    SplitFirstLine(l2, "");
    assert [l2] + [] == [l2];
    ReadTwo(e, []);
    BlankLine(e);
  }

  function FormatAll(es: seq<RawEvent>): string {
    if es == [] then "" else Format(es[0]) + FormatAll(es[1..])
  }

  predicate AllClean(es: seq<RawEvent>) {
    forall k | 0 <= k < |es| :: Clean(es[k])
  }

  lemma ThreeLines(l1: string, l2: string, rest: string)
    ensures l1 + "\n" + l2 + "\n\n" + rest == l1 + "\n" + (l2 + "\n" + ("" + "\n" + rest))
  {
    assert "" + "\n" + rest == "\n" + rest;
    assert "\n\n" + rest == "\n" + ("\n" + rest);
    assert l1 + "\n" + l2 + "\n\n" + rest == l1 + "\n" + l2 + ("\n\n" + rest);
  }

  lemma SplitFrame(e: RawEvent, rest: string)
    requires Clean(e)
    ensures SplitLines(Format(e) + rest)
         == [FieldLine("event:", e.name)] + ([FieldLine("data:", e.data)] + ([""] + SplitLines(rest)))
  {
    var l1, l2 := FieldLine("event:", e.name), FieldLine("data:", e.data);
    NameLine(e, NO_FIELDS);
    DataLine(e, NO_FIELDS);
    var t2 := l2 + "\n" + ("" + "\n" + rest);
    ThreeLines(l1, l2, rest);
    SplitFirstLine(l1, t2);
    SplitFirstLine(l2, "" + "\n" + rest);
    SplitFirstLine("", rest);
  }

  lemma FirstFrameReads(e: RawEvent, rest: string)
    requires Clean(e)
    ensures ReadLines(NO_FIELDS, SplitLines(Format(e) + rest)) == [e] + ReadLines(NO_FIELDS, SplitLines(rest))
  {
    SplitFrame(e, rest);
    var more := SplitLines(rest);
    ReadTwo(e, [""] + more);
    BlankLine(e);
    ReadCons(Fields(e.name, [e.data]), "", more, NO_FIELDS, [e]);
  }

  /** Everything written is read back, event by event. */
  lemma {:induction false} StreamRoundTrip(es: seq<RawEvent>)
    requires AllClean(es)
    ensures ReadLines(NO_FIELDS, SplitLines(FormatAll(es))) == es
  {
    if es != [] {
      CleanRest(es);
      StreamRoundTrip(es[1..]);
      FirstFrameReads(es[0], FormatAll(es[1..]));
      assert [es[0]] + es[1..] == es;
    }
  }

  lemma CleanRest(es: seq<RawEvent>)
    requires es != [] && AllClean(es)
    ensures Clean(es[0]) && AllClean(es[1..])
  {
    assert forall k | 0 <= k < |es[1..]| :: es[1..][k] == es[k + 1];
  }

  /** Of two lines followed by a blank one, the blank one is the first. */
  lemma BlankAfterTwo(a: string, b: string, rest: string)
    requires OneLine(a) && OneLine(b) && b != ""
    ensures Find(a + "\n" + b + "\n\n" + rest, "\n\n") == |a| + 1 + |b|
  {
    var all := a + "\n" + b + "\n\n" + rest;
    var n := |a| + 1 + |b|;
    FindFirst(all, "\n\n");
    assert OccursAt(all, "\n\n", n);
    assert forall j | 0 <= j < |a| :: all[j] == a[j];
    assert all[|a| + 1] == b[0];
    forall j | |a| < j < n ensures all[j] != '\n' {
      assert all[j] == b[j - |a| - 1];
    }
    forall j | 0 <= j < n ensures !OccursAt(all, "\n\n", j) {
      assert all[j..j + 2][0] == all[j] && all[j..j + 2][1] == all[j + 1];
    }
  }

  /** The blank line that ends an event is the first one in its text. */
  lemma FirstBlankLine(e: RawEvent, rest: string)
    requires Clean(e)
    ensures Find(Format(e) + rest, "\n\n") == |FrameText(e)|
  {
    var l1, l2 := FieldLine("event:", e.name), FieldLine("data:", e.data);
    NameLine(e, NO_FIELDS);
    DataLine(e, NO_FIELDS);
    BlankAfterTwo(l1, l2, rest);
    assert Format(e) + rest == l1 + "\n" + l2 + "\n\n" + rest;
  }
}
