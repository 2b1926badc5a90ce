/** The native block remapper: renumbers upstream content blocks, closes overlapping ones and
    applies the thinking policy. The specification functions work on values; the class keeps the
    same tables in fields and updates them in place. */
module NativeRemapper {
  import opened Prelude
  import opened SseEvents

  /** One upstream block: its downstream index, whether it is open downstream, and the block it was
      last started with (the source's block_type field is written but never read). */
  datatype Segment = Segment(down: int, open: bool, lastStart: Block)

  /** order lists the keys of segs as first inserted, which is how the source's dict iterates. */
  datatype Policy = Policy(next: int, segs: map<int, Segment>, order: seq<int>, dropped: set<int>, pending: set<int>)

  const INITIAL: Policy := Policy(0, map[], [], {}, {})

  ghost predicate MentionsThinking(typeName: string) {
    Contains(typeName, "thinking")
  }

  predicate NameHasThinking(typeName: string)
    ensures NameHasThinking(typeName) <==> MentionsThinking(typeName)
  {
    FindFirst(typeName, "thinking");
    Find(typeName, "thinking") != -1
  }

  predicate DropsBlock(b: Block, thinking: bool) {
    && !thinking
    && match b
       case ThinkingBlock(_) => true
       case RedactedThinkingBlock(_) => true
       case UnlistedBlock(name) => NameHasThinking(name)
       case _ => false
  }

  /** The source tests the delta's type for the substring "thinking"; signature_delta has none. */
  predicate DropsDelta(d: Delta, thinking: bool) {
    && !thinking
    && match d
       case ThinkingDelta(_) => true
       case UnlistedDelta(name) => NameHasThinking(name)
       case _ => false
  }

  datatype Kind = TextKind | ThinkingKind | ToolKind

  function KindOf(d: Delta): Option<Kind> {
    match d
    case TextDelta(_) => Some(TextKind)
    case ThinkingDelta(_) => Some(ThinkingKind)
    case SignatureDelta(_) => Some(ThinkingKind)
    case InputJsonDelta(_) => Some(ToolKind)
    case UnlistedDelta(_) => None
    case UntypedDelta => None
  }

  function FallbackToolId(upstream: int): string {
    "toolu_or_" + Decimal(upstream)
  }

  function SyntheticBlock(kind: Kind, upstream: int, carry: Option<Block>): Block {
    match kind
    case ToolKind =>
      if carry.Some? && carry.value.ToolUseBlock? then
        var b := carry.value;
        ToolUseBlock(
          Some(if b.id.Some? && b.id.value != "" then b.id.value else FallbackToolId(upstream)),
          Some(if b.name.Some? then b.name.value else ""),
          Some(if b.input.Some? then b.input.value else "{}"))
      else ToolUseBlock(Some(FallbackToolId(upstream)), Some(""), Some("{}"))
    case ThinkingKind => ThinkingBlock("")
    case TextKind => TextBlock("")
  }

  /** The downstream stops for every open segment but one, in dict order. */
  function StopsOf(segs: map<int, Segment>, order: seq<int>, current: int): seq<Event> {
    if order == [] then []
    else
      var u := order[0];
      (if u in segs && u != current && segs[u].open then [BlockStop(segs[u].down)] else [])
      + StopsOf(segs, order[1..], current)
  }

  function CloseOthers(s: Policy, current: int): Policy {
    s.(segs := map u | u in s.segs :: if u == current then s.segs[u] else s.segs[u].(open := false),
       pending := s.pending + set u | u in s.segs && u != current && s.segs[u].open)
  }

  function Allocate(s: Policy, upstream: int, lastStart: Block): Policy {
    s.(next := s.next + 1,
       segs := s.segs[upstream := Segment(s.next, true, lastStart)],
       order := if upstream in s.segs then s.order else s.order + [upstream])
  }

  function OnStart(s: Policy, i: int, b: Block, thinking: bool): (Policy, seq<Event>) {
    if DropsBlock(b, thinking) then (s.(dropped := s.dropped + {i}), [])
    else
      var closed := CloseOthers(s, i);
      (Allocate(closed, i, b), StopsOf(s.segs, s.order, i) + [BlockStart(s.next, b)])
  }

  function OnDelta(s: Policy, i: int, d: Delta, thinking: bool): (Policy, seq<Event>) {
    if i in s.dropped || DropsDelta(d, thinking) then (s, [])
    else if KindOf(d) == None then (s, [BlockDelta(i, d)])
    else
      var kind := KindOf(d).value;
      if i in s.segs && s.segs[i].open then (s, [BlockDelta(s.segs[i].down, d)])
      else if i in s.segs then
        var carry := s.segs[i].lastStart;
        var resumed := s.(pending := s.pending - {i});
        (Allocate(resumed, i, carry),
         [BlockStart(s.next, SyntheticBlock(kind, i, Some(carry))), BlockDelta(s.next, d)])
      else if kind == ThinkingKind then (s, [BlockDelta(i, d)])
      else
        var block := SyntheticBlock(kind, i, None);
        (Allocate(s, i, block), [BlockStart(s.next, block), BlockDelta(s.next, d)])
  }

  function OnStop(s: Policy, i: int, thinking: bool): (Policy, seq<Event>) {
    if i in s.dropped then (s, [])
    else if i in s.pending then (s.(pending := s.pending - {i}), [])
    else if i in s.segs then
      if s.segs[i].open then
        (s.(segs := s.segs[i := s.segs[i].(open := false)]), [BlockStop(s.segs[i].down)])
      else (s, [])
    else if thinking then (s, [BlockStop(i)])
    else (s, [])
  }

  /** One upstream event: the new tables and what is sent downstream. */
  function Transform(s: Policy, e: Event, thinking: bool): (Policy, seq<Event>) {
    match e
    case BlockStart(i, b) => OnStart(s, i, b, thinking)
    case BlockDelta(i, d) => OnDelta(s, i, d, thinking)
    case BlockStop(i) => OnStop(s, i, thinking)
    case _ => (s, [e])
  }

  function Run(s: Policy, es: seq<Event>, thinking: bool): (Policy, seq<Event>)
    decreases es
  {
    if es == [] then (s, [])
    else
      var (s1, out1) := Transform(s, es[0], thinking);
      var (s2, out2) := Run(s1, es[1..], thinking);
      (s2, out1 + out2)
  }

  lemma {:induction false} RunAppend(s: Policy, a: seq<Event>, b: seq<Event>, thinking: bool)
    ensures Run(s, a + b, thinking)
         == var (s1, out1) := Run(s, a, thinking);
            var (s2, out2) := Run(s1, b, thinking);
            (s2, out1 + out2)
    decreases a
  {
    if a == [] {
      assert a + b == b;
      assert [] + Run(s, b, thinking).1 == Run(s, b, thinking).1;
    } else {
      assert (a + b)[0] == a[0] && (a + b)[1..] == a[1..] + b;
      var (s1, out1) := Transform(s, a[0], thinking);
      RunAppend(s1, a[1..], b, thinking);
      var (s2, out2) := Run(s1, a[1..], thinking);
      var (s3, out3) := Run(s2, b, thinking);
      assert out1 + (out2 + out3) == (out1 + out2) + out3;
    }
  }

  lemma RunOne(s: Policy, e: Event, thinking: bool)
    ensures Run(s, [e], thinking) == Transform(s, e, thinking)
  {
    var out := Transform(s, e, thinking).1;
    assert [e][1..] == [] && out + [] == out;
  }

  lemma {:induction false} StopsOfAppend(segs: map<int, Segment>, a: seq<int>, b: seq<int>, current: int)
    ensures StopsOf(segs, a + b, current) == StopsOf(segs, a, current) + StopsOf(segs, b, current)
  {
    if a == [] {
      assert a + b == b;
    } else {
      assert (a + b)[0] == a[0] && (a + b)[1..] == a[1..] + b;
      StopsOfAppend(segs, a[1..], b, current);
    }
  }

  /** The tables after the segments in done, but for one, have been closed. */
  ghost predicate ClosedSome(segs0: map<int, Segment>, pending0: set<int>, done: seq<int>, current: int,
                             segs: map<int, Segment>, pending: set<int>) {
    && (forall u :: u in segs <==> u in segs0)
    && (forall u | u in segs0 :: segs[u] == (if u in done && u != current then segs0[u].(open := false) else segs0[u]))
    && (forall u :: u in pending <==> u in pending0 || (u in done && u in segs0 && u != current && segs0[u].open))
  }

  lemma ClosedOneMore(segs0: map<int, Segment>, pending0: set<int>, done: seq<int>, u: int, current: int,
                      segs: map<int, Segment>, pending: set<int>)
    requires ClosedSome(segs0, pending0, done, current, segs, pending) && u in segs0 && u !in done
    ensures segs[u] == segs0[u]
    ensures if u != current && segs[u].open
            then ClosedSome(segs0, pending0, done + [u], current, segs[u := segs[u].(open := false)], pending + {u})
            else ClosedSome(segs0, pending0, done + [u], current, segs, pending)
  {
  }

  lemma StopsOfNext(segs: map<int, Segment>, order: seq<int>, k: nat, current: int)
    requires k < |order| && Distinct(order)
    ensures order[..k + 1] == order[..k] + [order[k]] && order[k] !in order[..k]
    ensures order[k] in segs ==>
              StopsOf(segs, order[..k + 1], current) == StopsOf(segs, order[..k], current)
              + (if order[k] != current && segs[order[k]].open then [BlockStop(segs[order[k]].down)] else [])
  {
    var u := order[k];
    StopsOfAppend(segs, order[..k], [u], current);
    assert StopsOf(segs, [u][1..], current) == [];
  }

  lemma AllClosed(s: Policy, order: seq<int>, current: int, after: Policy)
    requires (forall u | u in s.segs :: u in order) && after == s.(segs := after.segs, pending := after.pending)
    requires ClosedSome(s.segs, s.pending, order[..|order|], current, after.segs, after.pending)
    ensures after == CloseOthers(s, current)
    ensures order[..|order|] == order
  {
    assert order[..|order|] == order;
    var target := CloseOthers(s, current);
    SameMap(after.segs, target.segs);
    SameSet(after.pending, target.pending);
  }

  /** The mutable state object the source threads through a stream. */
  class BlockPolicy {
    var nextIndex: int
    var byUpstream: map<int, Segment>
    var order: seq<int>
    var droppedIndexes: set<int>
    var pendingSuppressedStops: set<int>

    function View(): Policy
      reads this
    {
      Policy(nextIndex, byUpstream, order, droppedIndexes, pendingSuppressedStops)
    }

    /** The dict's key order really lists its keys, once each. */
    ghost predicate Valid()
      reads this
    {
      && Distinct(order)
      && forall u :: u in byUpstream <==> u in order
    }

    constructor ()
      ensures Valid() && View() == INITIAL
    {
      nextIndex, byUpstream, order := 0, map[], [];
      droppedIndexes, pendingSuppressedStops := {}, {};
    }

    /** One turn of the loop over the other segments. */
    method CloseOne(u: int, current: int, ghost segs0: map<int, Segment>, ghost pending0: set<int>, ghost done: seq<int>)
      returns (out: seq<Event>)
      requires ClosedSome(segs0, pending0, done, current, byUpstream, pendingSuppressedStops) && u in segs0 && u !in done
      modifies this`byUpstream, this`pendingSuppressedStops
      ensures ClosedSome(segs0, pending0, done + [u], current, byUpstream, pendingSuppressedStops)
      ensures out == if u != current && segs0[u].open then [BlockStop(segs0[u].down)] else []
    {
      ClosedOneMore(segs0, pending0, done, u, current, byUpstream, pendingSuppressedStops);
      out := [];
      if u != current && byUpstream[u].open {
        out := [BlockStop(byUpstream[u].down)];
        byUpstream := byUpstream[u := byUpstream[u].(open := false)];
        pendingSuppressedStops := pendingSuppressedStops + {u};
      }
    }

    method CloseOtherOpenBlocks(current: int) returns (out: seq<Event>)
      requires Valid()
      modifies this`byUpstream, this`pendingSuppressedStops
      ensures Valid() && View() == CloseOthers(old(View()), current)
      ensures out == StopsOf(old(byUpstream), order, current)
    {
      out := [];
      ghost var segs0, pending0 := byUpstream, pendingSuppressedStops;
      for k := 0 to |order|
        modifies this`byUpstream, this`pendingSuppressedStops
        invariant out == StopsOf(segs0, order[..k], current)
        invariant ClosedSome(segs0, pending0, order[..k], current, byUpstream, pendingSuppressedStops)
      {
        StopsOfNext(segs0, order, k, current);
        assert order[k] in order;
        var more := CloseOne(order[k], current, segs0, pending0, order[..k]);
        out := out + more;
      }
      AllClosed(old(View()), order, current, View());
    }

    method AllocateNewSegment(upstream: int, lastStart: Block) returns (index: int)
      requires Valid()
      modifies this`nextIndex, this`byUpstream, this`order
      ensures Valid() && View() == Allocate(old(View()), upstream, lastStart)
      ensures index == old(nextIndex)
    {
      index := nextIndex;
      nextIndex := nextIndex + 1;
      if upstream !in byUpstream {
        order := order + [upstream];
      }
      byUpstream := byUpstream[upstream := Segment(index, true, lastStart)];
    }

    method TransformEvent(e: Event, thinking: bool) returns (out: seq<Event>)
      requires Valid()
      modifies this
      ensures Valid()
      ensures (View(), out) == Transform(old(View()), e, thinking)
    {
      match e {
        case BlockStart(i, b) =>
          if DropsBlock(b, thinking) {
            droppedIndexes := droppedIndexes + {i};
            return [];
          }
          var prefix := CloseOtherOpenBlocks(i);
          var index := AllocateNewSegment(i, b);
          return prefix + [BlockStart(index, b)];
        case BlockDelta(i, d) =>
          out := TransformDelta(i, d, thinking);
        case BlockStop(i) =>
          if i in droppedIndexes {
            return [];
          }
          if i in pendingSuppressedStops {
            pendingSuppressedStops := pendingSuppressedStops - {i};
            return [];
          }
          if i in byUpstream && byUpstream[i].open {
            out := [BlockStop(byUpstream[i].down)];
            byUpstream := byUpstream[i := byUpstream[i].(open := false)];
            return;
          }
          if i in byUpstream || !thinking {
            return [];
          }
          return [e];
        case _ =>
          return [e];
      }
    }

    method TransformDelta(i: int, d: Delta, thinking: bool) returns (out: seq<Event>)
      requires Valid()
      modifies this
      ensures Valid()
      ensures (View(), out) == OnDelta(old(View()), i, d, thinking)
    {
      if i in droppedIndexes || DropsDelta(d, thinking) {
        return [];
      }
      var kind := KindOf(d);
      if kind == None {
        return [BlockDelta(i, d)];
      }
      if i in byUpstream && byUpstream[i].open {
        return [BlockDelta(byUpstream[i].down, d)];
      }
      if i in byUpstream {
        pendingSuppressedStops := pendingSuppressedStops - {i};
        var carry := byUpstream[i].lastStart;
        var index := AllocateNewSegment(i, carry);
        return [BlockStart(index, SyntheticBlock(kind.value, i, Some(carry))), BlockDelta(index, d)];
      }
      if kind.value == TextKind || kind.value == ToolKind {
        var block := SyntheticBlock(kind.value, i, None);
        var index := AllocateNewSegment(i, block);
        return [BlockStart(index, block), BlockDelta(index, d)];
      }
      return [BlockDelta(i, d)];
    }
  }
}
