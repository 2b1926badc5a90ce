/** What each ban of the upstream protocol is for: where the remapper's output goes wrong when an
    upstream ignores it, and where it does not. */
module RemapperBans {
  import opened Prelude
  import opened SseEvents
  import opened StreamContract
  import opened NativeRemapper
  import opened RemapperContract

  // ---------------------------------------------------------------------------------------------
  // What a banned event does at once
  // ---------------------------------------------------------------------------------------------

  /** A banned start is taken unless its type is unlisted. A banned delta is taken when its block is
      live but closed downstream, where it reopens it under its own kind; a raw one when a block that
      fits happens to be open under the very number, and so is a raw stop. */
  predicate TakenAnyway(s: Policy, c: Check, e: Event, thinking: bool) {
    match e
    case BlockStart(_, b) => DropsBlock(b, thinking) || StorageOf(b).Some?
    case BlockDelta(i, d) =>
      KindOf(d).Some? && if i in s.segs then !s.segs[i].open else i in c.open && Fits(c.open[i], d)
    case BlockStop(i) => i in c.open
    case _ => false
  }

  lemma BannedStart(s: Policy, u: Upstream, c: Check, owners: seq<int>, i: int, b: Block, thinking: bool)
    requires Sim(s, u, c, owners)
    ensures Fold(c, OnStart(s, i, b, thinking).1).Some? <==> DropsBlock(b, thinking) || StorageOf(b).Some?
  {
    if !DropsBlock(b, thinking) {
      StopsAreLegal(s.segs, s.order, i, c);
      var stops := StopsOf(s.segs, s.order, i);
      FoldAppend(c, stops, [BlockStart(s.next, b)]);
      FoldOne(Fold(c, stops).value, BlockStart(s.next, b));
    }
  }

  lemma BannedDelta(s: Policy, u: Upstream, c: Check, owners: seq<int>, i: int, d: Delta, thinking: bool)
    requires Sim(s, u, c, owners) && Obey(u, BlockDelta(i, d), thinking).None?
    ensures Fold(c, OnDelta(s, i, d, thinking).1).Some? <==> TakenAnyway(s, c, BlockDelta(i, d), thinking)
  {
    if KindOf(d).None? || i !in s.segs {
      FoldOne(c, BlockDelta(i, d));
    } else if s.segs[i].open {
      FoldOne(c, BlockDelta(s.segs[i].down, d));
    } else {
      var kind, carry := KindOf(d).value, Some(s.segs[i].lastStart);
      SyntheticFits(kind, i, carry, d);
      FoldStartDelta(c, s.next, SyntheticBlock(kind, i, carry), d);
    }
  }

  /** After any obedient run, a banned event makes the output illegal at once, exactly if it is not
      taken anyway. */
  lemma BannedEvent(s: Policy, u: Upstream, c: Check, owners: seq<int>, e: Event, thinking: bool)
    requires Sim(s, u, c, owners) && Obey(u, e, thinking).None?
    ensures Fold(c, Transform(s, e, thinking).1).Some? <==> TakenAnyway(s, c, e, thinking)
  {
    match e
    case BlockStart(i, b) => BannedStart(s, u, c, owners, i, b, thinking);
    case BlockDelta(i, d) => BannedDelta(s, u, c, owners, i, d, thinking);
    case BlockStop(i) => FoldOne(c, e);
    case _ => FoldOne(c, e);
  }

  // ---------------------------------------------------------------------------------------------
  // Which events stop an open block later
  // ---------------------------------------------------------------------------------------------

  /** A stop for an index nobody started, which passes through raw, here with number d. */
  predicate RawStop(s: Policy, e: Event, d: int, thinking: bool) {
    e == BlockStop(d) && thinking && d !in s.dropped && d !in s.pending && d !in s.segs
  }

  predicate RawStops(s: Policy, es: seq<Event>, d: int, thinking: bool)
    decreases es
  {
    es != [] && (RawStop(s, es[0], d, thinking) || RawStops(Transform(s, es[0], thinking).0, es[1..], d, thinking))
  }

  /** What ends the open block of upstream index i: the shown start of another index, or a stop of i
      that is neither dropped nor awaited. A second start of i takes the segment away instead. */
  predicate Ends(es: seq<Event>, i: int, muted: bool, awaited: bool, thinking: bool)
    decreases es
  {
    es != [] &&
    match es[0]
    case BlockStart(j, b) =>
      if DropsBlock(b, thinking) then Ends(es[1..], i, muted || j == i, awaited, thinking) else j != i
    case BlockStop(j) =>
      if j != i || muted then Ends(es[1..], i, muted, awaited, thinking)
      else !awaited || Ends(es[1..], i, muted, false, thinking)
    case _ => Ends(es[1..], i, muted, awaited, thinking)
  }

  /** Only the two tables matter for which segment has which number. */
  lemma NumberedStays(s: Policy, owners: seq<int>, e: Event, thinking: bool)
    requires Numbered(s, owners)
    ensures Numbered(Transform(s, e, thinking).0, Extend(owners, s, e, thinking))
  {
    match e
    case BlockStart(i, b) =>
      if !DropsBlock(b, thinking) {
        assert Numbered(CloseOthers(s, i), owners);
        AllocateNumbers(CloseOthers(s, i), owners, i, b);
      }
    case BlockDelta(i, d) =>
      var (s', out) := OnDelta(s, i, d, thinking);
      if s'.next != s.next {
        var p := s.(pending := s.pending - {i});
        AllocateNumbers(s, owners, i, s'.segs[i].lastStart);
        AllocateNumbers(p, owners, i, s'.segs[i].lastStart);
      }
    case _ =>
  }

  predicate HasStop(out: seq<Event>, d: int) {
    BlockStop(d) in out
  }

  lemma HasStopInTwo(a: seq<Event>, b: seq<Event>, d: int)
    ensures HasStop(a + b, d) <==> HasStop(a, d) || HasStop(b, d)
  {
  }

  lemma {:induction false} StopsOfHas(segs: map<int, Segment>, order: seq<int>, current: int, d: int)
    ensures HasStop(StopsOf(segs, order, current), d) <==> Closes(segs, order, current, d)
  {
    if order != [] {
      var u := order[0];
      StopsOfHas(segs, order[1..], current, d);
      HasStopInTwo(if u in segs && u != current && segs[u].open then [BlockStop(segs[u].down)] else [],
                   StopsOf(segs, order[1..], current), d);
      assert order == [u] + order[1..];
    }
  }

  /** No segment has number d, and no later one will. */
  predicate Lost(s: Policy, d: int) {
    d < s.next && forall i | i in s.segs :: s.segs[i].down != d
  }

  lemma LostStep(s: Policy, d: int, e: Event, thinking: bool)
    requires Lost(s, d)
    ensures Lost(Transform(s, e, thinking).0, d)
    ensures HasStop(Transform(s, e, thinking).1, d) <==> RawStop(s, e, d, thinking)
  {
    if e.BlockStart? {
      StopsOfHas(s.segs, s.order, e.index, d);
      if !DropsBlock(e.block, thinking) {
        HasStopInTwo(StopsOf(s.segs, s.order, e.index), [BlockStart(s.next, e.block)], d);
      }
    }
  }

  /** A block that lost its segment is stopped only by a raw stop. */
  lemma {:induction false} LostIsNeverStopped(s: Policy, d: int, es: seq<Event>, thinking: bool)
    requires Lost(s, d)
    ensures HasStop(Run(s, es, thinking).1, d) <==> RawStops(s, es, d, thinking)
    decreases es
  {
    if es != [] {
      var (s1, out1) := Transform(s, es[0], thinking);
      LostStep(s, d, es[0], thinking);
      LostIsNeverStopped(s1, d, es[1..], thinking);
      HasStopInTwo(out1, Run(s1, es[1..], thinking).1, d);
    }
  }

  predicate OpenAt(s: Policy, i: int, d: int) {
    i in s.segs && s.segs[i].open && s.segs[i].down == d
  }

  predicate EndsNow(s: Policy, e: Event, i: int, thinking: bool) {
    match e
    case BlockStart(j, b) => !DropsBlock(b, thinking) && j != i
    case BlockStop(j) => j == i && i !in s.dropped && i !in s.pending
    case _ => false
  }

  /** One event: the open block of i is stopped, loses its segment, or stays. */
  lemma OpenStep(s: Policy, owners: seq<int>, i: int, d: int, e: Event, thinking: bool)
    requires Numbered(s, owners) && OpenAt(s, i, d)
    ensures HasStop(Transform(s, e, thinking).1, d) <==> EndsNow(s, e, i, thinking) || RawStop(s, e, d, thinking)
  {
    if e.BlockStart? && !DropsBlock(e.block, thinking) {
      StopsOfHas(s.segs, s.order, e.index, d);
      HasStopInTwo(StopsOf(s.segs, s.order, e.index), [BlockStart(s.next, e.block)], d);
      assert owners[d] == i && i in s.order;
    }
  }

  lemma StaysOpen(s: Policy, owners: seq<int>, i: int, d: int, es: seq<Event>, thinking: bool)
    requires Numbered(s, owners) && OpenAt(s, i, d) && es != [] && !EndsNow(s, es[0], i, thinking)
    ensures var s1 := Transform(s, es[0], thinking).0;
            if es[0].BlockStart? && es[0].index == i && !DropsBlock(es[0].block, thinking)
            then Lost(s1, d) && !Ends(es, i, i in s.dropped, i in s.pending, thinking)
            else OpenAt(s1, i, d) &&
                 (Ends(es, i, i in s.dropped, i in s.pending, thinking)
                  <==> Ends(es[1..], i, i in s1.dropped, i in s1.pending, thinking))
  {
    if es[0].BlockStart? && es[0].index == i && !DropsBlock(es[0].block, thinking) {
      RestartLoses(s, owners, i, d, es[0].block, thinking);
    } else {
      OthersKeepOpen(s, i, d, es[0], thinking);
      EndsLater(s, i, es, thinking);
    }
  }

  lemma RestartLoses(s: Policy, owners: seq<int>, i: int, d: int, b: Block, thinking: bool)
    requires Numbered(s, owners) && OpenAt(s, i, d) && !DropsBlock(b, thinking)
    ensures Lost(OnStart(s, i, b, thinking).0, d)
  {
    forall j | j in OnStart(s, i, b, thinking).0.segs
      ensures OnStart(s, i, b, thinking).0.segs[j].down != d {
      assert owners[d] == i;
    }
  }

  lemma OthersKeepOpen(s: Policy, i: int, d: int, e: Event, thinking: bool)
    requires OpenAt(s, i, d) && !EndsNow(s, e, i, thinking)
    requires e.BlockStart? && e.index == i ==> DropsBlock(e.block, thinking)
    ensures OpenAt(Transform(s, e, thinking).0, i, d)
  {
  }

  lemma EndsLater(s: Policy, i: int, es: seq<Event>, thinking: bool)
    requires i in s.segs && s.segs[i].open && es != [] && !EndsNow(s, es[0], i, thinking)
    requires es[0].BlockStart? && es[0].index == i ==> DropsBlock(es[0].block, thinking)
    ensures var s1 := Transform(s, es[0], thinking).0;
            Ends(es, i, i in s.dropped, i in s.pending, thinking) <==> Ends(es[1..], i, i in s1.dropped, i in s1.pending, thinking)
  {
  }

  /** For every continuation at all, an open block is stopped if and only if one of these events comes. */
  lemma {:induction false} OpenIsStoppedIff(s: Policy, owners: seq<int>, i: int, d: int, es: seq<Event>, thinking: bool)
    requires Numbered(s, owners) && OpenAt(s, i, d)
    ensures HasStop(Run(s, es, thinking).1, d) <==>
              Ends(es, i, i in s.dropped, i in s.pending, thinking) || RawStops(s, es, d, thinking)
    decreases es
  {
    if es != [] {
      var (s1, out1) := Transform(s, es[0], thinking);
      var rest := es[1..];
      OpenStep(s, owners, i, d, es[0], thinking);
      HasStopInTwo(out1, Run(s1, rest, thinking).1, d);
      if EndsNow(s, es[0], i, thinking) {
        assert Ends(es, i, i in s.dropped, i in s.pending, thinking);
      } else {
        StaysOpen(s, owners, i, d, es, thinking);
        if es[0].BlockStart? && es[0].index == i && !DropsBlock(es[0].block, thinking) {
          LostIsNeverStopped(s1, d, rest, thinking);
        } else {
          NumberedStays(s, owners, es[0], thinking);
          OpenIsStoppedIff(s1, Extend(owners, s, es[0], thinking), i, d, rest, thinking);
        }
      }
    }
  }

  // ---------------------------------------------------------------------------------------------
  // Starting an index again
  // ---------------------------------------------------------------------------------------------

  lemma {:induction false} StoppedOrOpen(c: Check, out: seq<Event>, d: int)
    requires d in c.open && Fold(c, out).Some? && !HasStop(out, d)
    ensures d in Fold(c, out).value.open
    decreases out
  {
    if out != [] {
      assert out[0] in out;
      assert forall e | e in out[1..] :: e in out;
      StoppedOrOpen(Step(c, out[0]).value, out[1..], d);
    }
  }

  /** A block that is open at some moment must be stopped later, or the contract is not met. */
  lemma OpenMustStop(before: seq<Event>, after: seq<Event>, d: int, allowError: bool)
    requires Fold(EMPTY, before).Some? && d in Fold(EMPTY, before).value.open
    requires Contract(before + after, allowError)
    ensures HasStop(after, d)
  {
    FoldAppend(EMPTY, before, after);
    if !HasStop(after, d) {
      StoppedOrOpen(Fold(EMPTY, before).value, after, d);
    }
  }

  lemma RunThrough(before: seq<Event>, e: Event, after: seq<Event>, thinking: bool)
    ensures var (s, out) := Run(INITIAL, before, thinking);
            var (s1, out1) := Transform(s, e, thinking);
            && Run(INITIAL, before + [e], thinking) == (s1, out + out1)
            && Run(INITIAL, before + [e] + after, thinking).1 == out + out1 + Run(s1, after, thinking).1
  {
    RunAppend(INITIAL, before, [e], thinking);
    RunOne(Run(INITIAL, before, thinking).0, e, thinking);
    RunAppend(INITIAL, before + [e], after, thinking);
  }

  /** Where an obedient run has brought the remapper, the protocol and the checker. */
  lemma ObedientRun(before: seq<Event>, thinking: bool)
    requires ObeyAll(QUIET, before, thinking).Some?
    ensures var (s, out) := Run(INITIAL, before, thinking);
            && Fold(EMPTY, out).Some?
            && Sim(s, ObeyAll(QUIET, before, thinking).value, Fold(EMPTY, out).value, SegmentMap([], INITIAL, before, thinking))
  {
    InitialSim();
    RunKeeps(INITIAL, QUIET, EMPTY, [], before, thinking);
  }

  lemma OpenIsSeen(s: Policy, u: Upstream, c: Check, owners: seq<int>, i: int)
    requires Sim(s, u, c, owners) && i in s.segs && s.segs[i].open
    ensures s.segs[i].down in c.open && i in u.live
  {
  }

  lemma StoppedInTwo(before: seq<Event>, out1: seq<Event>, out2: seq<Event>, d: int, allowError: bool)
    requires Fold(EMPTY, before).Some? && d in Fold(EMPTY, before).value.open
    requires Contract(before + out1 + out2, allowError)
    ensures HasStop(out1, d) || HasStop(out2, d)
  {
    assert before + out1 + out2 == before + (out1 + out2);
    OpenMustStop(before, out1 + out2, d, allowError);
    HasStopInTwo(out1, out2, d);
  }

  /** A segment that is open before e has its block stopped by what e or the rest puts out. */
  lemma OpenThrough(before: seq<Event>, e: Event, after: seq<Event>, i: int, thinking: bool, allowError: bool)
    requires ObeyAll(QUIET, before, thinking).Some?
    requires i in Run(INITIAL, before, thinking).0.segs && Run(INITIAL, before, thinking).0.segs[i].open
    requires Contract(Run(INITIAL, before + [e] + after, thinking).1, allowError)
    ensures var s := Run(INITIAL, before, thinking).0;
            var (s1, out1) := Transform(s, e, thinking);
            HasStop(out1, s.segs[i].down) || HasStop(Run(s1, after, thinking).1, s.segs[i].down)
  {
    var (s, out) := Run(INITIAL, before, thinking);
    var (s1, out1) := Transform(s, e, thinking);
    ObedientRun(before, thinking);
    OpenIsSeen(s, ObeyAll(QUIET, before, thinking).value, Fold(EMPTY, out).value, SegmentMap([], INITIAL, before, thinking), i);
    RunThrough(before, e, after, thinking);
    StoppedInTwo(out, out1, Run(s1, after, thinking).1, s.segs[i].down, allowError);
  }

  /** Restarting an index whose block is open downstream: whatever comes before and after, that block
      can only be closed by a raw stop that happens to bear its number, so without one the contract is
      never met. */
  lemma RestartBreaksContract(before: seq<Event>, i: int, b: Block, after: seq<Event>, thinking: bool, allowError: bool)
    requires ObeyAll(QUIET, before, thinking).Some? && !DropsBlock(b, thinking)
    requires i in Run(INITIAL, before, thinking).0.segs && Run(INITIAL, before, thinking).0.segs[i].open
    requires Contract(Run(INITIAL, before + [BlockStart(i, b)] + after, thinking).1, allowError)
    ensures var s := Run(INITIAL, before, thinking).0;
            RawStops(Transform(s, BlockStart(i, b), thinking).0, after, s.segs[i].down, thinking)
  {
    var (s, out) := Run(INITIAL, before, thinking);
    var d, e := s.segs[i].down, BlockStart(i, b);
    var owners := SegmentMap([], INITIAL, before, thinking);
    ObedientRun(before, thinking);
    OpenThrough(before, e, after, i, thinking, allowError);
    OpenStep(s, owners, i, d, e, thinking);
    StaysOpen(s, owners, i, d, [e], thinking);
    LostIsNeverStopped(Transform(s, e, thinking).0, d, after, thinking);
  }

  /** Any other banned start leaves a block behind that is closed only by the events of Ends: the new
      one, at an index whose stop is still awaited or whose events are dropped, or the old one, when
      the new block is dropped with all that follows at its index. */
  lemma BannedStartMustEnd(before: seq<Event>, i: int, b: Block, after: seq<Event>, thinking: bool, allowError: bool)
    requires ObeyAll(QUIET, before, thinking).Some?
    requires Obey(ObeyAll(QUIET, before, thinking).value, BlockStart(i, b), thinking).None?
    requires Contract(Run(INITIAL, before + [BlockStart(i, b)] + after, thinking).1, allowError)
    ensures var s1 := Run(INITIAL, before + [BlockStart(i, b)], thinking).0;
            i in s1.segs && s1.segs[i].open ==>
              Ends(after, i, i in s1.dropped, i in s1.pending, thinking) || RawStops(s1, after, s1.segs[i].down, thinking)
  {
    var (s, out) := Run(INITIAL, before, thinking);
    var e := BlockStart(i, b);
    var owners := SegmentMap([], INITIAL, before, thinking);
    var (s1, out1) := Transform(s, e, thinking);
    ObedientRun(before, thinking);
    RunThrough(before, e, after, thinking);
    NumberedStays(s, owners, e, thinking);
    if i in s1.segs && s1.segs[i].open {
      var d := s1.segs[i].down;
      OpenIsStoppedIff(s1, Extend(owners, s, e, thinking), i, d, after, thinking);
      if DropsBlock(b, thinking) {
        OpenThrough(before, e, after, i, thinking, allowError);
      } else {
        FreshMustStop(out, out1, Run(s1, after, thinking).1, d, b, allowError);
      }
    }
  }

  lemma FreshMustStop(out: seq<Event>, out1: seq<Event>, out2: seq<Event>, d: int, b: Block, allowError: bool)
    requires Contract(out + out1 + out2, allowError)
    requires out1 != [] && out1[|out1| - 1] == BlockStart(d, b)
    ensures HasStop(out2, d)
  {
    FoldAppend(EMPTY, out + out1, out2);
    FoldSnoc(EMPTY, out + out1);
    assert (out + out1)[|out + out1| - 1] == BlockStart(d, b);
    OpenMustStop(out + out1, out2, d, allowError);
  }

  /** So the stop that an upstream would normally send next does not complete the message, unless the
      banned start was dropped while its index was closed downstream. */
  lemma BannedStartIsFelt(before: seq<Event>, i: int, b: Block, thinking: bool, allowError: bool)
    requires ObeyAll(QUIET, before, thinking).Some?
    requires Obey(ObeyAll(QUIET, before, thinking).value, BlockStart(i, b), thinking).None?
    requires Contract(Run(INITIAL, before + [BlockStart(i, b)] + [BlockStop(i), MessageStop], thinking).1, allowError)
    ensures var s := Run(INITIAL, before, thinking).0;
            DropsBlock(b, thinking) && i in s.segs && !s.segs[i].open
  {
    var (s, out) := Run(INITIAL, before, thinking);
    var e, after := BlockStart(i, b), [BlockStop(i), MessageStop];
    var s1 := Transform(s, e, thinking).0;
    ObedientRun(before, thinking);
    RunThrough(before, e, after, thinking);
    BannedStartMustEnd(before, i, b, after, thinking, allowError);
    OrdinaryEnd(s1, i, if i in s1.segs then s1.segs[i].down else 0, thinking);
    if !DropsBlock(b, thinking) {
      if i in s.segs && s.segs[i].open {
        RestartBreaksContract(before, i, b, after, thinking, allowError);
        OrdinaryEnd(s1, i, s.segs[i].down, thinking);
      }
      var rest := Run(s1, after, thinking).1;
      FoldAppend(EMPTY, out + Transform(s, e, thinking).1, rest);
      FoldAppend(EMPTY, out, Transform(s, e, thinking).1);
      BannedEvent(s, ObeyAll(QUIET, before, thinking).value, Fold(EMPTY, out).value,
                  SegmentMap([], INITIAL, before, thinking), e, thinking);
    }
  }

  lemma OrdinaryEnd(s: Policy, i: int, d: int, thinking: bool)
    requires i in s.segs
    ensures !RawStops(s, [BlockStop(i), MessageStop], d, thinking)
    ensures Ends([BlockStop(i), MessageStop], i, i in s.dropped, i in s.pending, thinking)
        <==> i !in s.dropped && i !in s.pending
  {
    var after := [BlockStop(i), MessageStop];
    assert after[1..] == [MessageStop] && [MessageStop][1..] == [];
  }
}
