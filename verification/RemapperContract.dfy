/** What the remapper guarantees over every run: the downstream stream keeps the contract, its
    blocks are numbered 0, 1, 2, ..., and the upstream payloads are conserved. */
module RemapperContract {
  import opened Prelude
  import opened SseEvents
  import opened StreamContract
  import opened NativeRemapper

  // ---------------------------------------------------------------------------------------------
  // The upstream protocol
  // ---------------------------------------------------------------------------------------------

  /** Upstream blocks as the model provider sees them. live: started and not stopped, with the kind
      of deltas they take; stopped: stopped at least once; dropped: suppressed by the policy. */
  datatype Upstream = Upstream(live: map<int, Storage>, stopped: set<int>, dropped: set<int>)

  const QUIET: Upstream := Upstream(map[], {}, {})

  function StorageOfKind(kind: Kind): Storage {
    match kind
    case TextKind => TextOpen
    case ThinkingKind => ThinkingOpen
    case ToolKind => ToolOpen
  }

  /** What an upstream may send. Blocks may overlap, an index may be reused after its stop, stops
      may be repeated, a stopped block may resume, and text and tool deltas may come unannounced;
      an index must not be restarted while live or dropped, a live block takes deltas of its own
      kind only, and with thinking enabled an index nobody started must not be stopped. */
  function Obey(u: Upstream, e: Event, thinking: bool): Option<Upstream> {
    match e
    case BlockStart(i, b) =>
      if i in u.live then None
      else if DropsBlock(b, thinking) then Some(u.(dropped := u.dropped + {i}))
      else if i in u.dropped || StorageOf(b).None? then None
      else Some(u.(live := u.live[i := StorageOf(b).value], stopped := u.stopped - {i}))
    case BlockDelta(i, d) =>
      if i in u.dropped || DropsDelta(d, thinking) then Some(u)
      else if KindOf(d).None? then None
      else if i in u.live then (if Fits(u.live[i], d) then Some(u) else None)
      else if i !in u.stopped && KindOf(d).value == ThinkingKind then None
      else Some(u.(live := u.live[i := StorageOfKind(KindOf(d).value)], stopped := u.stopped - {i}))
    case BlockStop(i) =>
      if i in u.dropped then Some(u)
      else if i in u.live then Some(u.(live := u.live - {i}, stopped := u.stopped + {i}))
      else if i in u.stopped || !thinking then Some(u)
      else None
    case Malformed(_, _) => None
    case _ => Some(u)
  }

  function ObeyAll(u: Upstream, es: seq<Event>, thinking: bool): Option<Upstream>
    decreases es
  {
    if es == [] then Some(u)
    else
      match Obey(u, es[0], thinking)
      case None => None
      case Some(u') => ObeyAll(u', es[1..], thinking)
  }

  lemma {:induction false} ObeyPrefix(u: Upstream, es: seq<Event>, k: nat, thinking: bool)
    requires k <= |es| && ObeyAll(u, es, thinking).Some?
    ensures ObeyAll(u, es[..k], thinking).Some?
    decreases k
  {
    if k > 0 {
      assert es[..k][0] == es[0] && es[..k][1..] == es[1..][..k - 1];
      ObeyPrefix(Obey(u, es[0], thinking).value, es[1..], k - 1, thinking);
    }
  }

  // ---------------------------------------------------------------------------------------------
  // The simulation
  // ---------------------------------------------------------------------------------------------

  /** owners[d] is the upstream index that downstream block d was allocated for: the segment map. */
  ghost predicate Numbered(s: Policy, owners: seq<int>) {
    && s.next == |owners|
    && (forall i | i in s.segs :: 0 <= s.segs[i].down < |owners| && owners[s.segs[i].down] == i)
    && (forall i :: i in s.order <==> i in s.segs)
    && Distinct(s.order)
  }

  /** Every live upstream block is open downstream or awaits a suppressed stop; no stopped one is. */
  ghost predicate Alive(s: Policy, u: Upstream) {
    && s.dropped == u.dropped
    && (forall i | i in u.live :: i in s.segs && i !in u.dropped && (s.segs[i].open <==> i !in s.pending))
    && (forall i | i in s.segs && i !in u.live :: !s.segs[i].open && i in u.stopped)
    && (forall i | i in u.stopped :: i in s.segs && i !in u.live)
    && (forall i | i in s.pending :: i in u.live)
  }

  /** The checker's open blocks are exactly the open segments, with the kinds upstream gave them. */
  ghost predicate Mirrors(s: Policy, u: Upstream, c: Check, owners: seq<int>)
    requires Numbered(s, owners) && Alive(s, u)
  {
    && (forall d :: d in c.seen <==> 0 <= d < |owners|)
    && (forall i | i in u.live && s.segs[i].open ::
          s.segs[i].down in c.open && c.open[s.segs[i].down] == u.live[i])
    && (forall d | d in c.open :: 0 <= d < |owners| && OpenSegment(s, owners[d], d))
  }

  predicate OpenSegment(s: Policy, i: int, d: int) {
    i in s.segs && s.segs[i].open && s.segs[i].down == d
  }

  ghost predicate Sim(s: Policy, u: Upstream, c: Check, owners: seq<int>) {
    Numbered(s, owners) && Alive(s, u) && Mirrors(s, u, c, owners)
  }

  ghost predicate Closes(segs: map<int, Segment>, order: seq<int>, current: int, d: int) {
    exists u :: u in order && u in segs && u != current && segs[u].open && segs[u].down == d
  }

  ghost predicate OpenSegmentsAgree(segs: map<int, Segment>, c: Check) {
    && (forall i | i in segs && segs[i].open :: segs[i].down in c.open)
    && (forall i, j | i in segs && j in segs && i != j && segs[i].open && segs[j].open ::
          segs[i].down != segs[j].down)
  }

  /** The synthetic stops are legal and close exactly the other open blocks. */
  lemma {:induction false} StopsAreLegal(segs: map<int, Segment>, order: seq<int>, current: int, c: Check)
    requires Distinct(order)
    requires OpenSegmentsAgree(segs, c)
    ensures Fold(c, StopsOf(segs, order, current)).Some?
    ensures var c' := Fold(c, StopsOf(segs, order, current)).value;
            && c'.seen == c.seen
            && (forall d :: d in c'.open <==> d in c.open && !Closes(segs, order, current, d))
            && (forall d | d in c'.open :: c'.open[d] == c.open[d])
  {
    if order != [] {
      var u, last := order[|order| - 1], order[..|order| - 1];
      assert order == last + [u];
      StopsOfAppend(segs, last, [u], current);
      StopsAreLegal(segs, last, current, c);
      var c1 := Fold(c, StopsOf(segs, last, current)).value;
      FoldAppend(c, StopsOf(segs, last, current), StopsOf(segs, [u], current));
      assert [u][1..] == [];
      assert forall d :: Closes(segs, order, current, d) <==>
        Closes(segs, last, current, d) || (u in segs && u != current && segs[u].open && segs[u].down == d);
      if u in segs && u != current && segs[u].open {
        FoldOne(c1, BlockStop(segs[u].down));
        assert StopsOf(segs, [u], current) == [BlockStop(segs[u].down)];
      }
    }
  }

  /** When the current block is not open, the synthetic stops close everything. */
  lemma StopsCloseAll(s: Policy, u: Upstream, c: Check, owners: seq<int>, i: int)
    requires Sim(s, u, c, owners) && i !in u.live
    ensures Fold(c, StopsOf(s.segs, s.order, i)) == Some(Check(map[], c.seen))
  {
    StopsAreLegal(s.segs, s.order, i, c);
    var c1 := Fold(c, StopsOf(s.segs, s.order, i)).value;
    forall d ensures d !in c1.open {
      if d in c.open {
        assert OpenSegment(s, owners[d], d) && owners[d] in s.order;
        assert Closes(s.segs, s.order, i, d);
      }
    }
    SameMap(c1.open, map[]);
  }

  lemma CloseOthersKeeps(s: Policy, u: Upstream, c: Check, owners: seq<int>, i: int)
    requires Sim(s, u, c, owners) && i !in u.live
    ensures Sim(CloseOthers(s, i), u, Check(map[], c.seen), owners)
  {
  }

  lemma AllocateNumbers(s: Policy, owners: seq<int>, i: int, lastStart: Block)
    requires Numbered(s, owners)
    ensures Numbered(Allocate(s, i, lastStart), owners + [i])
  {
    var s' := Allocate(s, i, lastStart);
    forall k | k in s'.segs
      ensures 0 <= s'.segs[k].down < |owners + [i]| && (owners + [i])[s'.segs[k].down] == k {
      if k != i {
        assert s'.segs[k] == s.segs[k];
      }
    }
  }

  lemma AllocateAlive(s: Policy, u: Upstream, i: int, lastStart: Block, storage: Storage)
    requires Alive(s, u) && i !in u.dropped
    ensures Alive(Allocate(s.(pending := s.pending - {i}), i, lastStart),
                  u.(live := u.live[i := storage], stopped := u.stopped - {i}))
  {
  }

  /** Allocating a fresh segment for a block that is not open downstream. */
  lemma AllocateKeeps(s: Policy, u: Upstream, c: Check, owners: seq<int>, i: int, lastStart: Block, storage: Storage)
    requires Sim(s, u, c, owners) && i !in u.dropped
    requires i in s.segs ==> !s.segs[i].open
    ensures s.next !in c.open
    ensures var s' := Allocate(s.(pending := s.pending - {i}), i, lastStart);
            var u' := u.(live := u.live[i := storage], stopped := u.stopped - {i});
            Sim(s', u', Check(c.open[s.next := storage], c.seen + {s.next}), owners + [i])
  {
    AllocateNumbers(s.(pending := s.pending - {i}), owners, i, lastStart);
    AllocateAlive(s, u, i, lastStart, storage);
    var s' := Allocate(s.(pending := s.pending - {i}), i, lastStart);
    var u' := u.(live := u.live[i := storage], stopped := u.stopped - {i});
    var c' := Check(c.open[s.next := storage], c.seen + {s.next});
    forall d | d in c'.open ensures 0 <= d < |owners + [i]| && OpenSegment(s', (owners + [i])[d], d) {
      if d != s.next {
        assert OpenSegment(s, owners[d], d);
      }
    }
    forall k | k in u'.live && s'.segs[k].open
      ensures s'.segs[k].down in c'.open && c'.open[s'.segs[k].down] == u'.live[k] {
      if k != i {
        assert s'.segs[k] == s.segs[k] && k in u.live;
      }
    }
  }

  lemma StartKeeps(s: Policy, u: Upstream, c: Check, owners: seq<int>, i: int, b: Block, thinking: bool)
    requires Sim(s, u, c, owners) && Obey(u, BlockStart(i, b), thinking).Some?
    ensures var (s', out) := OnStart(s, i, b, thinking);
            && Fold(c, out).Some?
            && Sim(s', Obey(u, BlockStart(i, b), thinking).value, Fold(c, out).value,
                   if s'.next == s.next then owners else owners + [i])
  {
    if !DropsBlock(b, thinking) {
      StopsCloseAll(s, u, c, owners, i);
      CloseOthersKeeps(s, u, c, owners, i);
      var closed, c1 := CloseOthers(s, i), Check(map[], c.seen);
      assert closed.pending - {i} == closed.pending;
      AllocateKeeps(closed, u, c1, owners, i, b, StorageOf(b).value);
      FoldAppend(c, StopsOf(s.segs, s.order, i), [BlockStart(s.next, b)]);
      FoldOne(c1, BlockStart(s.next, b));
    }
  }

  /** A start and one delta of its kind at a fresh index. */
  lemma FoldStartDelta(c: Check, d: int, block: Block, delta: Delta)
    requires d !in c.open && d !in c.seen
    requires StorageOf(block).Some? && Fits(StorageOf(block).value, delta)
    ensures Fold(c, [BlockStart(d, block), BlockDelta(d, delta)])
         == Some(Check(c.open[d := StorageOf(block).value], c.seen + {d}))
  {
    assert [BlockStart(d, block), BlockDelta(d, delta)] == [BlockStart(d, block)] + [BlockDelta(d, delta)];
    FoldAppend(c, [BlockStart(d, block)], [BlockDelta(d, delta)]);
    FoldOne(c, BlockStart(d, block));
    FoldOne(Step(c, BlockStart(d, block)).value, BlockDelta(d, delta));
  }

  lemma SyntheticFits(kind: Kind, i: int, carry: Option<Block>, d: Delta)
    requires KindOf(d) == Some(kind)
    ensures StorageOf(SyntheticBlock(kind, i, carry)) == Some(StorageOfKind(kind))
    ensures Fits(StorageOfKind(kind), d)
  {
  }

  lemma DeltaKeeps(s: Policy, u: Upstream, c: Check, owners: seq<int>, i: int, d: Delta, thinking: bool)
    requires Sim(s, u, c, owners) && Obey(u, BlockDelta(i, d), thinking).Some?
    ensures var (s', out) := OnDelta(s, i, d, thinking);
            && Fold(c, out).Some?
            && Sim(s', Obey(u, BlockDelta(i, d), thinking).value, Fold(c, out).value,
                   if s'.next == s.next then owners else owners + [i])
  {
    if !(i in s.dropped || DropsDelta(d, thinking)) {
      var kind := KindOf(d).value;
      var storage := StorageOfKind(kind);
      if i in s.segs && s.segs[i].open {
        FoldOne(c, BlockDelta(s.segs[i].down, d));
      } else {
        var carry := if i in s.segs then Some(s.segs[i].lastStart) else None;
        var block := SyntheticBlock(kind, i, carry);
        SyntheticFits(kind, i, carry, d);
        AllocateKeeps(s, u, c, owners, i, if i in s.segs then carry.value else block, storage);
        FoldStartDelta(c, s.next, block, d);
        if i in u.live {
          assert u.live[i := storage] == u.live;
          assert u.stopped - {i} == u.stopped;
        }
        if i !in s.segs {
          assert s.pending - {i} == s.pending;
        }
      }
    }
  }

  lemma StopKeeps(s: Policy, u: Upstream, c: Check, owners: seq<int>, i: int, thinking: bool)
    requires Sim(s, u, c, owners) && Obey(u, BlockStop(i), thinking).Some?
    ensures var (s', out) := OnStop(s, i, thinking);
            && Fold(c, out).Some?
            && Sim(s', Obey(u, BlockStop(i), thinking).value, Fold(c, out).value, owners)
  {
    if i in u.live && s.segs[i].open {
      FoldOne(c, BlockStop(s.segs[i].down));
    }
  }

  /** The segment map after one event: a new downstream block belongs to the event's index. */
  function Extend(owners: seq<int>, s: Policy, e: Event, thinking: bool): seq<int> {
    var s' := Transform(s, e, thinking).0;
    if s'.next == s.next then owners
    else
      match e
      case BlockStart(i, _) => owners + [i]
      case BlockDelta(i, _) => owners + [i]
      case _ => owners
  }

  function SegmentMap(owners: seq<int>, s: Policy, es: seq<Event>, thinking: bool): seq<int>
    decreases es
  {
    if es == [] then owners
    else SegmentMap(Extend(owners, s, es[0], thinking), Transform(s, es[0], thinking).0, es[1..], thinking)
  }

  lemma EventKeeps(s: Policy, u: Upstream, c: Check, owners: seq<int>, e: Event, thinking: bool)
    requires Sim(s, u, c, owners) && Obey(u, e, thinking).Some?
    ensures var (s', out) := Transform(s, e, thinking);
            && Fold(c, out).Some?
            && Sim(s', Obey(u, e, thinking).value, Fold(c, out).value, Extend(owners, s, e, thinking))
  {
    match e {
      case BlockStart(i, b) => StartKeeps(s, u, c, owners, i, b, thinking);
      case BlockDelta(i, d) => DeltaKeeps(s, u, c, owners, i, d, thinking);
      case BlockStop(i) => StopKeeps(s, u, c, owners, i, thinking);
      case _ => FoldOne(c, e);
    }
  }

  /** The invariant holds after every upstream event of every run that obeys the protocol. */
  lemma {:induction false} RunKeeps(s: Policy, u: Upstream, c: Check, owners: seq<int>, es: seq<Event>, thinking: bool)
    requires Sim(s, u, c, owners) && ObeyAll(u, es, thinking).Some?
    ensures var (s', out) := Run(s, es, thinking);
            && Fold(c, out).Some?
            && Sim(s', ObeyAll(u, es, thinking).value, Fold(c, out).value, SegmentMap(owners, s, es, thinking))
    decreases es
  {
    if es != [] {
      EventKeeps(s, u, c, owners, es[0], thinking);
      var (s1, out1) := Transform(s, es[0], thinking);
      var c1 := Fold(c, out1).value;
      RunKeeps(s1, Obey(u, es[0], thinking).value, c1, Extend(owners, s, es[0], thinking), es[1..], thinking);
      FoldAppend(c, out1, Run(s1, es[1..], thinking).1);
    }
  }

  lemma InitialSim()
    ensures Sim(INITIAL, QUIET, EMPTY, [])
  {
  }

  // ---------------------------------------------------------------------------------------------
  // Everything outside the blocks passes through, and blocks are numbered in order
  // ---------------------------------------------------------------------------------------------

  predicate IsOuter(e: Event) {
    !e.BlockStart? && !e.BlockDelta? && !e.BlockStop?
  }

  function Outer(es: seq<Event>): seq<Event> {
    if es == [] then [] else (if IsOuter(es[0]) then [es[0]] else []) + Outer(es[1..])
  }

  function StartIndexes(es: seq<Event>): seq<int> {
    if es == [] then [] else (if es[0].BlockStart? then [es[0].index] else []) + StartIndexes(es[1..])
  }

  lemma {:induction false} OuterAppend(a: seq<Event>, b: seq<Event>)
    ensures Outer(a + b) == Outer(a) + Outer(b)
    ensures StartIndexes(a + b) == StartIndexes(a) + StartIndexes(b)
  {
    if a == [] {
      assert a + b == b;
      assert [] + Outer(b) == Outer(b) && [] + StartIndexes(b) == StartIndexes(b);
    } else {
      assert (a + b)[0] == a[0] && (a + b)[1..] == a[1..] + b;
      OuterAppend(a[1..], b);
      Group(if IsOuter(a[0]) then [a[0]] else [], Outer(a[1..]), Outer(b));
      Group(if a[0].BlockStart? then [a[0].index] else [], StartIndexes(a[1..]), StartIndexes(b));
    }
  }

  lemma Group<T>(a: seq<T>, b: seq<T>, c: seq<T>)
    ensures a + (b + c) == a + b + c
  {
  }

  lemma {:induction false} OuterHas(es: seq<Event>)
    ensures HasMessageStart(Outer(es)) <==> HasMessageStart(es)
    ensures HasError(Outer(es)) <==> HasError(es)
    ensures HasBlockStart(es) <==> StartIndexes(es) != []
  {
    if es != [] {
      OuterHas(es[1..]);
      var outer := Outer(es);
      Has(es);
      if IsOuter(es[0]) {
        assert outer[0] == es[0] && outer[1..] == Outer(es[1..]);
        Has(outer);
      } else {
        assert outer == Outer(es[1..]);
      }
    }
  }

  lemma Has(es: seq<Event>)
    requires es != []
    ensures HasMessageStart(es) <==> es[0].MessageStart? || HasMessageStart(es[1..])
    ensures HasError(es) <==> es[0].ErrorEvent? || HasError(es[1..])
    ensures HasBlockStart(es) <==> es[0].BlockStart? || HasBlockStart(es[1..])
  {
    assert forall k | 1 <= k < |es| :: es[k] == es[1..][k - 1];
    assert forall k | 0 <= k < |es[1..]| :: es[1..][k] == es[k + 1];
  }

  lemma {:induction false} StopsHaveNoOuter(segs: map<int, Segment>, order: seq<int>, current: int)
    ensures Outer(StopsOf(segs, order, current)) == [] && StartIndexes(StopsOf(segs, order, current)) == []
  {
    if order != [] {
      StopsHaveNoOuter(segs, order[1..], current);
      var u := order[0];
      var head := if u in segs && u != current && segs[u].open then [BlockStop(segs[u].down)] else [];
      OuterAppend(head, StopsOf(segs, order[1..], current));
      assert Outer(head) == [] && StartIndexes(head) == [] by {
        if head != [] {
          assert head[1..] == [];
        }
      }
    }
  }

  function Range(lo: int, hi: int): seq<int>
    requires lo <= hi
    decreases hi - lo
  {
    if lo == hi then [] else [lo] + Range(lo + 1, hi)
  }

  lemma {:induction false} RangeJoin(a: int, b: int, c: int)
    requires a <= b <= c
    ensures Range(a, b) + Range(b, c) == Range(a, c)
    decreases b - a
  {
    if a < b {
      RangeJoin(a + 1, b, c);
      assert [a] + Range(a + 1, b) + Range(b, c) == [a] + (Range(a + 1, b) + Range(b, c));
    }
  }

  lemma OuterOne(e: Event)
    ensures Outer([e]) == (if IsOuter(e) then [e] else []) && StartIndexes([e]) == (if e.BlockStart? then [e.index] else [])
  {
    assert [e][1..] == [];
    assert Outer([]) == [] && StartIndexes([]) == [];
  }

  lemma RangeOne(n: int)
    ensures Range(n, n) == [] && Range(n, n + 1) == [n]
  {
  }

  lemma StartOutside(s: Policy, i: int, b: Block, thinking: bool)
    ensures var (s', out) := OnStart(s, i, b, thinking);
            s.next <= s'.next <= s.next + 1 && Outer(out) == [] && StartIndexes(out) == Range(s.next, s'.next)
  {
    RangeOne(s.next);
    if !DropsBlock(b, thinking) {
      var start := BlockStart(s.next, b);
      StopsHaveNoOuter(s.segs, s.order, i);
      OuterAppend(StopsOf(s.segs, s.order, i), [start]);
      OuterOne(start);
    }
  }

  lemma DeltaOutside(s: Policy, i: int, d: Delta, thinking: bool)
    ensures var (s', out) := OnDelta(s, i, d, thinking);
            s.next <= s'.next <= s.next + 1 && Outer(out) == [] && StartIndexes(out) == Range(s.next, s'.next)
  {
    var (s', out) := OnDelta(s, i, d, thinking);
    RangeOne(s.next);
    if |out| == 2 {
      OuterOne(out[0]);
      OuterOne(out[1]);
      OuterAppend([out[0]], [out[1]]);
    } else if |out| == 1 {
      OuterOne(out[0]);
    }
  }

  lemma OneEventOutside(s: Policy, e: Event, thinking: bool)
    ensures var (s', out) := Transform(s, e, thinking);
            && s.next <= s'.next <= s.next + 1
            && Outer(out) == Outer([e])
            && StartIndexes(out) == Range(s.next, s'.next)
  {
    OuterOne(e);
    RangeOne(s.next);
    match e {
      case BlockStart(i, b) => StartOutside(s, i, b, thinking);
      case BlockDelta(i, d) => DeltaOutside(s, i, d, thinking);
      case BlockStop(i) =>
        var out := OnStop(s, i, thinking).1;
        if |out| == 1 {
          OuterOne(out[0]);
        }
      case _ =>
    }
  }

  /** For every input at all: events outside the blocks come through unchanged and in order, and
      downstream blocks are started as 0, 1, 2, ..., once each. */
  lemma {:induction false} BlocksAreNumbered(s: Policy, es: seq<Event>, thinking: bool)
    ensures var (s', out) := Run(s, es, thinking);
            && s.next <= s'.next
            && Outer(out) == Outer(es)
            && StartIndexes(out) == Range(s.next, s'.next)
    decreases es
  {
    if es != [] {
      OneEventOutside(s, es[0], thinking);
      var (s1, out1) := Transform(s, es[0], thinking);
      BlocksAreNumbered(s1, es[1..], thinking);
      var (s2, out2) := Run(s1, es[1..], thinking);
      OuterAppend(out1, out2);
      assert es == [es[0]] + es[1..];
      OuterAppend([es[0]], es[1..]);
      RangeJoin(s.next, s1.next, s2.next);
    }
  }

  // ---------------------------------------------------------------------------------------------
  // Conservation of content
  // ---------------------------------------------------------------------------------------------

  /** The upstream deltas the policy keeps, with the upstream index each was sent for. */
  function Kept(es: seq<Event>, dropped: set<int>, thinking: bool): seq<(int, Delta)>
    decreases es
  {
    if es == [] then []
    else
      match es[0]
      case BlockStart(i, b) =>
        Kept(es[1..], if DropsBlock(b, thinking) then dropped + {i} else dropped, thinking)
      case BlockDelta(i, d) =>
        (if i in dropped || DropsDelta(d, thinking) then [] else [(i, d)]) + Kept(es[1..], dropped, thinking)
      case _ => Kept(es[1..], dropped, thinking)
  }

  /** The deltas of a downstream stream, each attributed to an upstream index by the segment map. */
  function Attributed(out: seq<Event>, owners: seq<int>): seq<(int, Delta)> {
    if out == [] then [] else OwnedDelta(out[0], owners) + Attributed(out[1..], owners)
  }

  function OwnedDelta(e: Event, owners: seq<int>): seq<(int, Delta)> {
    match e
    case BlockDelta(d, delta) => if 0 <= d < |owners| then [(owners[d], delta)] else [(-1 - |owners|, delta)]
    case _ => []
  }

  lemma {:induction false} AttributedAppend(a: seq<Event>, b: seq<Event>, owners: seq<int>)
    ensures Attributed(a + b, owners) == Attributed(a, owners) + Attributed(b, owners)
  {
    if a == [] {
      assert a + b == b;
    } else {
      assert (a + b)[0] == a[0] && (a + b)[1..] == a[1..] + b;
      AttributedAppend(a[1..], b, owners);
      var head := OwnedDelta(a[0], owners);
      assert head + (Attributed(a[1..], owners) + Attributed(b, owners)) == head + Attributed(a[1..], owners) + Attributed(b, owners);
    }
  }

  lemma {:induction false} StopsCarryNothing(segs: map<int, Segment>, order: seq<int>, current: int, owners: seq<int>)
    ensures Attributed(StopsOf(segs, order, current), owners) == []
  {
    if order != [] {
      StopsCarryNothing(segs, order[1..], current, owners);
      var u := order[0];
      var head := if u in segs && u != current && segs[u].open then [BlockStop(segs[u].down)] else [];
      AttributedAppend(head, StopsOf(segs, order[1..], current), owners);
      assert Attributed(head, owners) == [] by {
        if head != [] {
          assert head[1..] == [];
        }
      }
    }
  }

  lemma {:induction false} SegmentMapGrows(owners: seq<int>, s: Policy, es: seq<Event>, thinking: bool)
    ensures owners <= SegmentMap(owners, s, es, thinking)
    decreases es
  {
    if es != [] {
      SegmentMapGrows(Extend(owners, s, es[0], thinking), Transform(s, es[0], thinking).0, es[1..], thinking);
    }
  }

  lemma AttributedDelta(d: int, delta: Delta, owners: seq<int>)
    requires 0 <= d < |owners|
    ensures Attributed([BlockDelta(d, delta)], owners) == [(owners[d], delta)]
  {
    assert [BlockDelta(d, delta)][1..] == [] && Attributed([], owners) == [];
  }

  lemma AttributedOther(e: Event, owners: seq<int>)
    requires !e.BlockDelta?
    ensures Attributed([e], owners) == []
  {
    assert [e][1..] == [] && Attributed([], owners) == [];
  }

  lemma AttributedPair(e: Event, d: int, delta: Delta, owners: seq<int>)
    requires 0 <= d < |owners|
    ensures Attributed([BlockDelta(d, delta)], owners) == [(owners[d], delta)]
    ensures e.BlockStart? ==> Attributed([e, BlockDelta(d, delta)], owners) == [(owners[d], delta)]
  {
    AttributedDelta(d, delta, owners);
    if e.BlockStart? {
      AttributedOther(e, owners);
      AttributedAppend([e], [BlockDelta(d, delta)], owners);
      assert [e] + [BlockDelta(d, delta)] == [e, BlockDelta(d, delta)];
    }
  }

  lemma DeltaConserves(s: Policy, u: Upstream, c: Check, owners: seq<int>, i: int, d: Delta, thinking: bool, final: seq<int>)
    requires Sim(s, u, c, owners) && Obey(u, BlockDelta(i, d), thinking).Some?
    requires Extend(owners, s, BlockDelta(i, d), thinking) <= final
    ensures Attributed(OnDelta(s, i, d, thinking).1, final) == Kept([BlockDelta(i, d)], s.dropped, thinking)
  {
    assert [BlockDelta(i, d)][1..] == [];
    if !(i in s.dropped || DropsDelta(d, thinking)) {
      assert Kept([BlockDelta(i, d)], s.dropped, thinking) == [(i, d)];
      var out := OnDelta(s, i, d, thinking).1;
      var target := if i in s.segs && s.segs[i].open then s.segs[i].down else s.next;
      assert final[target] == i by {
        if target == s.next {
          assert final[s.next] == (owners + [i])[s.next];
        }
      }
      AttributedPair(out[0], target, d, final);
    }
  }

  lemma OneEventConserves(s: Policy, u: Upstream, c: Check, owners: seq<int>, e: Event, thinking: bool, final: seq<int>)
    requires Sim(s, u, c, owners) && Obey(u, e, thinking).Some?
    requires Extend(owners, s, e, thinking) <= final
    ensures Attributed(Transform(s, e, thinking).1, final) == Kept([e], s.dropped, thinking)
  {
    assert [e][1..] == [];
    match e {
      case BlockStart(i, b) =>
        if !DropsBlock(b, thinking) {
          StopsCarryNothing(s.segs, s.order, i, final);
          AttributedAppend(StopsOf(s.segs, s.order, i), [BlockStart(s.next, b)], final);
          assert [BlockStart(s.next, b)][1..] == [];
        }
      case BlockDelta(i, d) =>
        DeltaConserves(s, u, c, owners, i, d, thinking, final);
      case BlockStop(i) =>
        var out := OnStop(s, i, thinking).1;
        assert |out| == 1 ==> out[1..] == [];
      case _ =>
    }
  }

  lemma KeptHead(es: seq<Event>, dropped: set<int>, thinking: bool)
    requires es != []
    ensures Kept(es, dropped, thinking) == Kept([es[0]], dropped, thinking) + Kept(es[1..],
      if es[0].BlockStart? && DropsBlock(es[0].block, thinking) then dropped + {es[0].index} else dropped, thinking)
  {
    assert [es[0]][1..] == [];
  }

  lemma {:induction false} RunConserves(s: Policy, u: Upstream, c: Check, owners: seq<int>, es: seq<Event>, thinking: bool)
    requires Sim(s, u, c, owners) && ObeyAll(u, es, thinking).Some?
    ensures Attributed(Run(s, es, thinking).1, SegmentMap(owners, s, es, thinking)) == Kept(es, s.dropped, thinking)
    decreases es
  {
    if es != [] {
      var final := SegmentMap(owners, s, es, thinking);
      var (s1, out1) := Transform(s, es[0], thinking);
      var owners1 := Extend(owners, s, es[0], thinking);
      EventKeeps(s, u, c, owners, es[0], thinking);
      SegmentMapGrows(owners1, s1, es[1..], thinking);
      OneEventConserves(s, u, c, owners, es[0], thinking, final);
      RunConserves(s1, Obey(u, es[0], thinking).value, Fold(c, out1).value, owners1, es[1..], thinking);
      AttributedAppend(out1, Run(s1, es[1..], thinking).1, final);
      KeptHead(es, s.dropped, thinking);
      DroppedAfter(s, es[0], thinking);
    }
  }

  lemma DroppedAfter(s: Policy, e: Event, thinking: bool)
    ensures Transform(s, e, thinking).0.dropped
         == if e.BlockStart? && DropsBlock(e.block, thinking) then s.dropped + {e.index} else s.dropped
  {
  }

  /** Downstream deltas, in order, are exactly the undropped upstream ones, and the segment map
      gives back the upstream index of each. */
  lemma ContentIsConserved(es: seq<Event>, thinking: bool)
    requires ObeyAll(QUIET, es, thinking).Some?
    ensures Attributed(Run(INITIAL, es, thinking).1, SegmentMap([], INITIAL, es, thinking)) == Kept(es, {}, thinking)
  {
    InitialSim();
    RunConserves(INITIAL, QUIET, EMPTY, [], es, thinking);
  }

  // ---------------------------------------------------------------------------------------------
  // The contract
  // ---------------------------------------------------------------------------------------------

  /** Some upstream block is not suppressed by the thinking policy. */
  predicate ShowsSomething(es: seq<Event>, dropped: set<int>, thinking: bool)
    decreases es
  {
    es != [] &&
    match es[0]
    case BlockStart(i, b) =>
      !DropsBlock(b, thinking) || ShowsSomething(es[1..], dropped + {i}, thinking)
    case BlockDelta(i, d) =>
      (i !in dropped && !DropsDelta(d, thinking)) || ShowsSomething(es[1..], dropped, thinking)
    case _ => ShowsSomething(es[1..], dropped, thinking)
  }

  lemma OneShown(s: Policy, u: Upstream, c: Check, owners: seq<int>, e: Event, thinking: bool)
    requires Sim(s, u, c, owners) && Obey(u, e, thinking).Some?
    ensures Transform(s, e, thinking).0.next > 0 <==> s.next > 0 || ShowsSomething([e], s.dropped, thinking)
  {
    assert [e][1..] == [];
    OneEventOutside(s, e, thinking);
    if e.BlockDelta? && !(e.index in s.dropped || DropsDelta(e.delta, thinking)) && e.index in s.segs {
      assert 0 <= s.segs[e.index].down < s.next;
    }
  }

  lemma ShowsHead(es: seq<Event>, dropped: set<int>, thinking: bool)
    requires es != []
    ensures ShowsSomething(es, dropped, thinking) <==>
              || ShowsSomething([es[0]], dropped, thinking)
              || ShowsSomething(es[1..], if es[0].BlockStart? && DropsBlock(es[0].block, thinking) then dropped + {es[0].index} else dropped, thinking)
  {
    assert [es[0]][1..] == [];
  }

  lemma {:induction false} ShownIsAllocated(s: Policy, u: Upstream, c: Check, owners: seq<int>, es: seq<Event>, thinking: bool)
    requires Sim(s, u, c, owners) && ObeyAll(u, es, thinking).Some?
    ensures Run(s, es, thinking).0.next > 0 <==> s.next > 0 || ShowsSomething(es, s.dropped, thinking)
    decreases es
  {
    if es != [] {
      var (s1, out1) := Transform(s, es[0], thinking);
      OneShown(s, u, c, owners, es[0], thinking);
      ShowsHead(es, s.dropped, thinking);
      EventKeeps(s, u, c, owners, es[0], thinking);
      ShownIsAllocated(s1, Obey(u, es[0], thinking).value, Fold(c, out1).value,
                       Extend(owners, s, es[0], thinking), es[1..], thinking);
      BlocksAreNumbered(s1, es[1..], thinking);
    }
  }

  /** The last event of the stream is the last event sent downstream. */
  lemma LastPasses(s: Policy, es: seq<Event>, thinking: bool)
    requires es != [] && IsOuter(es[|es| - 1])
    ensures var out := Run(s, es, thinking).1; out != [] && out[|out| - 1] == es[|es| - 1]
  {
    var n := |es| - 1;
    assert es == es[..n] + [es[n]];
    RunAppend(s, es[..n], [es[n]], thinking);
    assert [es[n]][1..] == [];
  }

  lemma QuietMeansClosed(s: Policy, u: Upstream, c: Check, owners: seq<int>)
    requires Sim(s, u, c, owners) && u.live == map[]
    ensures c.open == map[]
  {
    assert forall d | d in c.open :: OpenSegment(s, owners[d], d);
    assert forall i | i in s.segs :: !s.segs[i].open;
    SameMap(c.open, map[]);
  }

  /** A complete upstream that obeys the protocol (message_start somewhere, message_stop last,
      every block stopped) is remapped to a stream meeting the whole contract exactly when the
      thinking policy leaves at least one block to show. */
  lemma RemapMeetsContract(es: seq<Event>, thinking: bool, allowError: bool)
    requires ObeyAll(QUIET, es, thinking).Some? && ObeyAll(QUIET, es, thinking).value.live == map[]
    requires HasMessageStart(es) && es[|es| - 1] == MessageStop && (allowError || !HasError(es))
    ensures Contract(Run(INITIAL, es, thinking).1, allowError) <==> ShowsSomething(es, {}, thinking)
  {
    var out := Run(INITIAL, es, thinking).1;
    RemapCloses(es, thinking);
    BlocksAreNumbered(INITIAL, es, thinking);
    OuterHas(es);
    OuterHas(out);
    LastPasses(INITIAL, es, thinking);
  }

  /** Downstream is legal and has nothing open, and has seen a block exactly when one was shown. */
  lemma RemapCloses(es: seq<Event>, thinking: bool)
    requires ObeyAll(QUIET, es, thinking).Some? && ObeyAll(QUIET, es, thinking).value.live == map[]
    ensures var c := Fold(EMPTY, Run(INITIAL, es, thinking).1);
            c.Some? && c.value.open == map[] && (c.value.seen != {} <==> ShowsSomething(es, {}, thinking))
  {
    var (s, out) := Run(INITIAL, es, thinking);
    InitialSim();
    RunKeeps(INITIAL, QUIET, EMPTY, [], es, thinking);
    ShownIsAllocated(INITIAL, QUIET, EMPTY, [], es, thinking);
    var c := Fold(EMPTY, out).value;
    QuietMeansClosed(s, ObeyAll(QUIET, es, thinking).value, c, SegmentMap([], INITIAL, es, thinking));
    SeenIsAllocated(s, c);
  }

  lemma SeenIsAllocated(s: Policy, c: Check)
    requires s.next >= 0 && forall d :: d in c.seen <==> 0 <= d < s.next
    ensures c.seen != {} <==> s.next > 0
  {
    if s.next > 0 {
      assert 0 in c.seen;
    } else {
      SameSet(c.seen, {});
    }
  }
}
