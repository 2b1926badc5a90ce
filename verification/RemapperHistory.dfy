/** The remapper without its tables: what it sends for an upstream event, said in terms of the events
    before it. The tables are a fast form of that. */
module RemapperHistory {
  import opened Prelude
  import opened SseEvents
  import opened StreamContract
  import opened NativeRemapper
  import opened RemapperContract

  // ---------------------------------------------------------------------------------------------
  // What the events before position k say
  // ---------------------------------------------------------------------------------------------

  ghost predicate Shows(b: Block, thinking: bool) {
    thinking || !IsThinkingBlock(b)
  }

  ghost predicate Hides(e: Event, i: int, thinking: bool) {
    e.BlockStart? && e.index == i && !Shows(e.block, thinking)
  }

  /** Index i was started with a block of thinking before, although thinking is disabled. */
  ghost predicate Muted(es: seq<Event>, k: int, i: int, thinking: bool)
    requires 0 <= k <= |es|
  {
    exists j | 0 <= j < k :: Hides(es[j], i, thinking)
  }

  /** The event needs an open block of index i: it starts one, or is a delta that is shown. */
  ghost predicate Uses(es: seq<Event>, k: int, i: int, thinking: bool)
    requires 0 <= k < |es|
  {
    match es[k]
    case BlockStart(j, b) => j == i && Shows(b, thinking)
    case BlockDelta(j, d) => j == i && !Muted(es, k, i, thinking) && (thinking || !IsThinkingText(d))
    case _ => false
  }

  /** The event ends the block of index i: its own stop, or another block that is shown. */
  ghost predicate Cuts(e: Event, i: int, thinking: bool) {
    e == BlockStop(i) || (e.BlockStart? && e.index != i && Shows(e.block, thinking))
  }

  ghost function LastUse(es: seq<Event>, k: int, i: int, thinking: bool): int
    requires 0 <= k <= |es|
  {
    if k == 0 then -1 else if Uses(es, k - 1, i, thinking) then k - 1 else LastUse(es, k - 1, i, thinking)
  }

  ghost predicate IsCut(es: seq<Event>, p: int, k: int, i: int, thinking: bool)
    requires 0 <= k <= |es|
  {
    exists q | p < q < k :: 0 <= q && Cuts(es[q], i, thinking)
  }

  ghost predicate HasOpen(es: seq<Event>, k: int, i: int, thinking: bool)
    requires 0 <= k <= |es|
  {
    LastUse(es, k, i, thinking) >= 0 && !IsCut(es, LastUse(es, k, i, thinking), k, i, thinking)
  }

  /** The event opens a block for index i: it starts one, or finds none open. */
  ghost predicate Opens(es: seq<Event>, k: int, i: int, thinking: bool)
    requires 0 <= k < |es|
  {
    Uses(es, k, i, thinking) && (es[k].BlockStart? || !HasOpen(es, k, i, thinking))
  }

  function IndexOf(e: Event): int {
    if e.BlockStart? || e.BlockDelta? || e.BlockStop? then e.index else 0
  }

  /** How many blocks were opened before. */
  ghost function Opened(es: seq<Event>, k: int, thinking: bool): nat
    requires 0 <= k <= |es|
  {
    if k == 0 then 0 else Opened(es, k - 1, thinking) + if Opens(es, k - 1, IndexOf(es[k - 1]), thinking) then 1 else 0
  }

  /** The number of the block last opened for index i. */
  ghost function NumberOf(es: seq<Event>, k: int, i: int, thinking: bool): int
    requires 0 <= k <= |es|
  {
    if k == 0 then -1
    else if Opens(es, k - 1, i, thinking) then Opened(es, k - 1, thinking)
    else NumberOf(es, k - 1, i, thinking)
  }

  /** The block that index i was last started with, if it was. */
  ghost function StartOf(es: seq<Event>, k: int, i: int, thinking: bool): Option<Block>
    requires 0 <= k <= |es|
  {
    if k == 0 then None
    else if es[k - 1].BlockStart? && Uses(es, k - 1, i, thinking) then Some(es[k - 1].block)
    else StartOf(es, k - 1, i, thinking)
  }

  /** The indexes in the order of their first use. */
  ghost function Used(es: seq<Event>, k: int, thinking: bool): seq<int>
    requires 0 <= k <= |es|
  {
    if k == 0 then []
    else
      var used, i := Used(es, k - 1, thinking), IndexOf(es[k - 1]);
      if Uses(es, k - 1, i, thinking) && i !in used then used + [i] else used
  }

  // ---------------------------------------------------------------------------------------------
  // What is sent
  // ---------------------------------------------------------------------------------------------

  function OrElse(s: Option<string>, other: string): string {
    if s.Some? then s.value else other
  }

  /** The block that is started for a delta that finds none open: of its kind and empty, except that a
      tool keeps its id, its name and its input, or gets an id of its own. */
  function BlockFor(d: Delta, i: int, start: Option<Block>): Block {
    if d.TextDelta? then TextBlock("")
    else if d.ThinkingDelta? || d.SignatureDelta? then ThinkingBlock("")
    else if start.Some? && start.value.ToolUseBlock? then
      var tool := start.value;
      ToolUseBlock(if tool.id == None || tool.id == Some("") then Some("toolu_or_" + Decimal(i)) else tool.id,
                   Some(OrElse(tool.name, "")), Some(OrElse(tool.input, "{}")))
    else ToolUseBlock(Some("toolu_or_" + Decimal(i)), Some(""), Some("{}"))
  }

  /** The stops of all open blocks but that of index i, in the order of their first use. */
  ghost function OthersStopped(es: seq<Event>, k: int, i: int, used: seq<int>, thinking: bool): seq<Event>
    requires 0 <= k <= |es|
    decreases used
  {
    if used == [] then []
    else
      (if used[0] != i && HasOpen(es, k, used[0], thinking) then [BlockStop(NumberOf(es, k, used[0], thinking))] else [])
      + OthersStopped(es, k, i, used[1..], thinking)
  }

  ghost function Sent(es: seq<Event>, k: int, thinking: bool): seq<Event>
    requires 0 <= k < |es|
  {
    var number := Opened(es, k, thinking);
    match es[k]
    case BlockStart(i, b) =>
      if Shows(b, thinking) then OthersStopped(es, k, i, Used(es, k, thinking), thinking) + [BlockStart(number, b)] else []
    case BlockDelta(i, d) =>
      if !Uses(es, k, i, thinking) then []
      else if HasOpen(es, k, i, thinking) then [BlockDelta(NumberOf(es, k, i, thinking), d)]
      else [BlockStart(number, BlockFor(d, i, StartOf(es, k, i, thinking))), BlockDelta(number, d)]
    case BlockStop(i) =>
      if HasOpen(es, k, i, thinking) then [BlockStop(NumberOf(es, k, i, thinking))] else []
    case _ => [es[k]]
  }

  ghost function SentBefore(es: seq<Event>, n: int, thinking: bool): seq<Event>
    requires 0 <= n <= |es|
  {
    if n == 0 then [] else SentBefore(es, n - 1, thinking) + Sent(es, n - 1, thinking)
  }

  // ---------------------------------------------------------------------------------------------
  // The tables agree with the history
  // ---------------------------------------------------------------------------------------------

  lemma OpenNext(es: seq<Event>, n: int, i: int, thinking: bool)
    requires 0 <= n < |es|
    ensures HasOpen(es, n + 1, i, thinking) <==>
              Uses(es, n, i, thinking) || (HasOpen(es, n, i, thinking) && !Cuts(es[n], i, thinking))
  {
    var p := LastUse(es, n, i, thinking);
    if !Uses(es, n, i, thinking) && p >= 0 {
      LastUseIsBefore(es, n, i, thinking);
      assert IsCut(es, p, n + 1, i, thinking) <==> IsCut(es, p, n, i, thinking) || Cuts(es[n], i, thinking);
    }
  }

  lemma {:induction false} LastUseIsBefore(es: seq<Event>, k: int, i: int, thinking: bool)
    requires 0 <= k <= |es|
    ensures LastUse(es, k, i, thinking) < k
  {
    if k > 0 {
      LastUseIsBefore(es, k - 1, i, thinking);
    }
  }

  lemma MutedNext(es: seq<Event>, n: int, i: int, thinking: bool)
    requires 0 <= n < |es|
    ensures Muted(es, n + 1, i, thinking) <==> Muted(es, n, i, thinking) || Hides(es[n], i, thinking)
  {
  }

  /** The block kept for a later resumption. */
  ghost predicate Carries(lastStart: Block, start: Option<Block>, i: int) {
    if start.Some? then lastStart == start.value
    else lastStart == TextBlock("") || lastStart == ToolUseBlock(Some("toolu_or_" + Decimal(i)), Some(""), Some("{}"))
  }

  ghost predicate SegmentAgrees(s: Policy, es: seq<Event>, n: int, i: int, thinking: bool)
    requires 0 <= n <= |es|
  {
    && (i in s.segs <==> LastUse(es, n, i, thinking) >= 0)
    && (i in s.segs ==>
          && (s.segs[i].open <==> HasOpen(es, n, i, thinking))
          && s.segs[i].down == NumberOf(es, n, i, thinking)
          && Carries(s.segs[i].lastStart, StartOf(es, n, i, thinking), i))
  }

  ghost predicate Agrees(s: Policy, es: seq<Event>, n: int, thinking: bool)
    requires 0 <= n <= |es|
  {
    && (forall i :: i in s.dropped <==> Muted(es, n, i, thinking))
    && (forall i :: SegmentAgrees(s, es, n, i, thinking))
    && s.next == Opened(es, n, thinking)
    && s.order == Used(es, n, thinking)
  }

  lemma {:induction false} StopsAgree(s: Policy, es: seq<Event>, n: int, i: int, used: seq<int>, thinking: bool)
    requires 0 <= n <= |es| && forall u :: SegmentAgrees(s, es, n, u, thinking)
    ensures StopsOf(s.segs, used, i) == OthersStopped(es, n, i, used, thinking)
    decreases used
  {
    if used != [] {
      assert SegmentAgrees(s, es, n, used[0], thinking);
      StopsAgree(s, es, n, i, used[1..], thinking);
    }
  }

  /** An event that is no use of index i leaves its block open or cuts it. */
  lemma UntouchedAgrees(s: Policy, s1: Policy, es: seq<Event>, n: int, i: int, thinking: bool)
    requires 0 <= n < |es| && SegmentAgrees(s, es, n, i, thinking) && !Uses(es, n, i, thinking)
    requires i in s1.segs <==> i in s.segs
    requires i in s.segs ==> s1.segs[i] == s.segs[i].(open := s.segs[i].open && !Cuts(es[n], i, thinking))
    ensures SegmentAgrees(s1, es, n + 1, i, thinking)
  {
    OpenNext(es, n, i, thinking);
  }

  lemma NoUse(es: seq<Event>, n: int, thinking: bool)
    requires 0 <= n < |es| && !Uses(es, n, IndexOf(es[n]), thinking)
    ensures Opened(es, n + 1, thinking) == Opened(es, n, thinking) && Used(es, n + 1, thinking) == Used(es, n, thinking)
    ensures forall i :: !Uses(es, n, i, thinking)
  {
  }

  lemma DroppedAgrees(s: Policy, s1: Policy, es: seq<Event>, n: int, thinking: bool)
    requires 0 <= n < |es| && forall i :: i in s.dropped <==> Muted(es, n, i, thinking)
    requires forall i :: i in s1.dropped <==> i in s.dropped || Hides(es[n], i, thinking)
    ensures forall i :: i in s1.dropped <==> Muted(es, n + 1, i, thinking)
  {
    forall i
      ensures i in s1.dropped <==> Muted(es, n + 1, i, thinking) {
      MutedNext(es, n, i, thinking);
    }
  }

  /** A fresh block for index i. */
  lemma FreshAgrees(s: Policy, s1: Policy, es: seq<Event>, n: int, i: int, lastStart: Block, thinking: bool)
    requires 0 <= n < |es| && Agrees(s, es, n, thinking) && Opens(es, n, i, thinking)
    requires s1.next == s.next + 1 && i in s1.segs && s1.segs[i] == Segment(s.next, true, lastStart)
    requires s1.order == if i in s.segs then s.order else s.order + [i]
    requires i in s.order <==> i in s.segs
    requires Carries(lastStart, StartOf(es, n + 1, i, thinking), i)
    ensures SegmentAgrees(s1, es, n + 1, i, thinking)
    ensures s1.next == Opened(es, n + 1, thinking) && s1.order == Used(es, n + 1, thinking)
  {
    OpenNext(es, n, i, thinking);
    assert IndexOf(es[n]) == i;
  }

  lemma StartPassesBy(s: Policy, s1: Policy, es: seq<Event>, n: int, thinking: bool)
    requires 0 <= n < |es| && Agrees(s, es, n, thinking) && es[n].BlockStart? && !Shows(es[n].block, thinking)
    requires s1 == s.(dropped := s.dropped + {es[n].index})
    ensures Agrees(s1, es, n + 1, thinking)
  {
    DroppedAgrees(s, s1, es, n, thinking);
    NoUse(es, n, thinking);
    var m := n + 1;
    forall j
      ensures SegmentAgrees(s1, es, m, j, thinking) {
      UntouchedAgrees(s, s1, es, n, j, thinking);
    }
  }

  lemma StartShows(s: Policy, s1: Policy, es: seq<Event>, n: int, thinking: bool)
    requires 0 <= n < |es| && Agrees(s, es, n, thinking) && es[n].BlockStart? && Shows(es[n].block, thinking)
    requires forall i :: i in s.order <==> i in s.segs
    requires s1 == Allocate(CloseOthers(s, es[n].index), es[n].index, es[n].block)
    ensures Agrees(s1, es, n + 1, thinking)
  {
    var BlockStart(i, b) := es[n];
    DroppedAgrees(s, s1, es, n, thinking);
    FreshAgrees(s, s1, es, n, i, b, thinking);
    var m := n + 1;
    forall j | j != i
      ensures SegmentAgrees(s1, es, m, j, thinking) {
      UntouchedAgrees(s, s1, es, n, j, thinking);
    }
  }

  lemma StartAgrees(s: Policy, u: Upstream, es: seq<Event>, n: int, thinking: bool)
    requires 0 <= n < |es| && Agrees(s, es, n, thinking) && Alive(s, u) && es[n].BlockStart?
    requires forall i :: i in s.order <==> i in s.segs
    ensures var (s1, out) := Transform(s, es[n], thinking); Agrees(s1, es, n + 1, thinking) && out == Sent(es, n, thinking)
  {
    var BlockStart(i, b) := es[n];
    var s1 := OnStart(s, i, b, thinking).0;
    if Shows(b, thinking) {
      StopsAgree(s, es, n, i, s.order, thinking);
      StartShows(s, s1, es, n, thinking);
    } else {
      StartPassesBy(s, s1, es, n, thinking);
    }
  }

  lemma DeltaPassesBy(s: Policy, es: seq<Event>, n: int, thinking: bool)
    requires 0 <= n < |es| && Agrees(s, es, n, thinking) && es[n].BlockDelta? && !Uses(es, n, es[n].index, thinking)
    requires !Hides(es[n], es[n].index, thinking)
    ensures Agrees(s, es, n + 1, thinking) && Sent(es, n, thinking) == []
  {
    DroppedAgrees(s, s, es, n, thinking);
    NoUse(es, n, thinking);
    var m := n + 1;
    forall j
      ensures SegmentAgrees(s, es, m, j, thinking) {
      UntouchedAgrees(s, s, es, n, j, thinking);
    }
  }

  /** A delta of index i touches no other index. */
  lemma OthersAgree(s: Policy, s1: Policy, es: seq<Event>, n: int, m: int, thinking: bool)
    requires 0 <= n < |es| && m == n + 1 && Agrees(s, es, n, thinking) && es[n].BlockDelta?
    requires forall j | j != es[n].index :: (j in s1.segs <==> j in s.segs) && (j in s.segs ==> s1.segs[j] == s.segs[j])
    ensures forall j | j != es[n].index :: SegmentAgrees(s1, es, m, j, thinking)
  {
    forall j | j != es[n].index
      ensures SegmentAgrees(s1, es, m, j, thinking) {
      UntouchedAgrees(s, s1, es, n, j, thinking);
    }
  }

  lemma DeltaContinues(s: Policy, es: seq<Event>, n: int, thinking: bool)
    requires 0 <= n < |es| && Agrees(s, es, n, thinking) && es[n].BlockDelta?
    requires Uses(es, n, es[n].index, thinking) && HasOpen(es, n, es[n].index, thinking)
    requires forall i :: i in s.order <==> i in s.segs
    ensures Agrees(s, es, n + 1, thinking)
    ensures es[n].index in s.segs && s.segs[es[n].index].open
    ensures Sent(es, n, thinking) == [BlockDelta(s.segs[es[n].index].down, es[n].delta)]
  {
    var i := es[n].index;
    assert SegmentAgrees(s, es, n, i, thinking);
    DroppedAgrees(s, s, es, n, thinking);
    OthersAgree(s, s, es, n, n + 1, thinking);
    OpenNext(es, n, i, thinking);
    UsedHas(es, n, i, thinking);
  }

  lemma DeltaOpens(s: Policy, s1: Policy, es: seq<Event>, n: int, lastStart: Block, thinking: bool)
    requires 0 <= n < |es| && Agrees(s, es, n, thinking) && es[n].BlockDelta?
    requires Uses(es, n, es[n].index, thinking) && !HasOpen(es, n, es[n].index, thinking)
    requires forall i :: i in s.order <==> i in s.segs
    requires var i := es[n].index;
             && s1.next == s.next + 1 && s1.segs == s.segs[i := Segment(s.next, true, lastStart)] && s1.dropped == s.dropped
             && s1.order == if i in s.segs then s.order else s.order + [i]
    requires Carries(lastStart, StartOf(es, n + 1, es[n].index, thinking), es[n].index)
    ensures Agrees(s1, es, n + 1, thinking)
  {
    var i := es[n].index;
    DroppedAgrees(s, s1, es, n, thinking);
    OthersAgree(s, s1, es, n, n + 1, thinking);
    StartsAreUses(es, n, i, thinking);
    FreshAgrees(s, s1, es, n, i, lastStart, thinking);
  }

  lemma DeltaAgrees(s: Policy, u: Upstream, es: seq<Event>, n: int, thinking: bool)
    requires 0 <= n < |es| && Agrees(s, es, n, thinking) && Alive(s, u) && es[n].BlockDelta?
    requires Obey(u, es[n], thinking).Some? && forall i :: i in s.order <==> i in s.segs
    ensures var (s1, out) := Transform(s, es[n], thinking); Agrees(s1, es, n + 1, thinking) && out == Sent(es, n, thinking)
  {
    var BlockDelta(i, d) := es[n];
    assert i in s.dropped <==> Muted(es, n, i, thinking);
    assert SegmentAgrees(s, es, n, i, thinking);
    if !Uses(es, n, i, thinking) {
      DeltaPassesBy(s, es, n, thinking);
    } else if HasOpen(es, n, i, thinking) {
      DeltaContinues(s, es, n, thinking);
    } else {
      StartsAreUses(es, n, i, thinking);
      var s1 := OnDelta(s, i, d, thinking).0;
      DeltaOpens(s, s1, es, n, s1.segs[i].lastStart, thinking);
    }
  }

  lemma {:induction false} UsedHas(es: seq<Event>, n: int, i: int, thinking: bool)
    requires 0 <= n <= |es|
    ensures i in Used(es, n, thinking) <==> LastUse(es, n, i, thinking) >= 0
  {
    if n > 0 {
      UsedHas(es, n - 1, i, thinking);
    }
  }

  lemma {:induction false} StartsAreUses(es: seq<Event>, n: int, i: int, thinking: bool)
    requires 0 <= n <= |es|
    ensures StartOf(es, n, i, thinking).Some? ==> LastUse(es, n, i, thinking) >= 0
  {
    if n > 0 {
      StartsAreUses(es, n - 1, i, thinking);
    }
  }

  lemma StopAgrees(s: Policy, u: Upstream, es: seq<Event>, n: int, thinking: bool)
    requires 0 <= n < |es| && Agrees(s, es, n, thinking) && Alive(s, u) && es[n].BlockStop?
    requires Obey(u, es[n], thinking).Some?
    ensures var (s1, out) := Transform(s, es[n], thinking); Agrees(s1, es, n + 1, thinking) && out == Sent(es, n, thinking)
  {
    var i := es[n].index;
    var s1 := OnStop(s, i, thinking).0;
    DroppedAgrees(s, s1, es, n, thinking);
    NoUse(es, n, thinking);
    assert SegmentAgrees(s, es, n, i, thinking);
    var m := n + 1;
    forall j
      ensures SegmentAgrees(s1, es, m, j, thinking) {
      UntouchedAgrees(s, s1, es, n, j, thinking);
    }
  }

  lemma OtherAgrees(s: Policy, es: seq<Event>, n: int, thinking: bool)
    requires 0 <= n < |es| && Agrees(s, es, n, thinking)
    requires !es[n].BlockStart? && !es[n].BlockDelta? && !es[n].BlockStop?
    ensures var (s1, out) := Transform(s, es[n], thinking); Agrees(s1, es, n + 1, thinking) && out == Sent(es, n, thinking)
  {
    DroppedAgrees(s, s, es, n, thinking);
    NoUse(es, n, thinking);
    var m := n + 1;
    forall j
      ensures SegmentAgrees(s, es, m, j, thinking) {
      UntouchedAgrees(s, s, es, n, j, thinking);
    }
  }

  lemma EventAgrees(s: Policy, u: Upstream, c: Check, owners: seq<int>, es: seq<Event>, n: int, thinking: bool)
    requires 0 <= n < |es| && Agrees(s, es, n, thinking) && Sim(s, u, c, owners) && Obey(u, es[n], thinking).Some?
    ensures var (s1, out) := Transform(s, es[n], thinking); Agrees(s1, es, n + 1, thinking) && out == Sent(es, n, thinking)
  {
    if es[n].BlockStart? {
      StartAgrees(s, u, es, n, thinking);
    } else if es[n].BlockDelta? {
      DeltaAgrees(s, u, es, n, thinking);
    } else if es[n].BlockStop? {
      StopAgrees(s, u, es, n, thinking);
    } else {
      OtherAgrees(s, es, n, thinking);
    }
  }

  lemma InitiallyAgrees(es: seq<Event>, thinking: bool)
    ensures Agrees(INITIAL, es, 0, thinking)
  {
  }

  lemma {:induction false} RunAgrees(es: seq<Event>, n: int, thinking: bool)
    requires 0 <= n <= |es| && ObeyAll(QUIET, es, thinking).Some?
    ensures var (s, out) := Run(INITIAL, es[..n], thinking);
            Agrees(s, es, n, thinking) && out == SentBefore(es, n, thinking)
  {
    if n == 0 {
      InitiallyAgrees(es, thinking);
    } else {
      var front, e := es[..n - 1], es[n - 1];
      assert es[..n] == front + [e];
      RunAgrees(es, n - 1, thinking);
      ObeyPrefix(QUIET, es, n - 1, thinking);
      ObeyPrefix(QUIET, es, n, thinking);
      ObeyNext(QUIET, front, e, thinking);
      InitialSim();
      RunKeeps(INITIAL, QUIET, EMPTY, [], front, thinking);
      var (s, out) := Run(INITIAL, front, thinking);
      EventAgrees(s, ObeyAll(QUIET, front, thinking).value, Fold(EMPTY, out).value, SegmentMap([], INITIAL, front, thinking), es, n - 1, thinking);
      RunAppend(INITIAL, front, [e], thinking);
      RunOne(s, e, thinking);
    }
  }

  lemma {:induction false} ObeyNext(u: Upstream, es: seq<Event>, e: Event, thinking: bool)
    requires ObeyAll(u, es + [e], thinking).Some? && ObeyAll(u, es, thinking).Some?
    ensures Obey(ObeyAll(u, es, thinking).value, e, thinking).Some?
    decreases es
  {
    if es == [] {
      assert [] + [e] == [e];
    } else {
      assert (es + [e])[0] == es[0] && (es + [e])[1..] == es[1..] + [e];
      ObeyNext(Obey(u, es[0], thinking).value, es[1..], e, thinking);
    }
  }

  /** For every upstream that obeys the protocol, what the remapper sends is what its history asks for. */
  lemma RunIsHistory(es: seq<Event>, thinking: bool)
    requires ObeyAll(QUIET, es, thinking).Some?
    ensures Run(INITIAL, es, thinking).1 == SentBefore(es, |es|, thinking)
  {
    RunAgrees(es, |es|, thinking);
    assert es[..|es|] == es;
  }
}
