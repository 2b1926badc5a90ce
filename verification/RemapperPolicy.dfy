/** The remapper on upstreams that already meet the contract, its thinking policy, and inputs on
    which it does not help. */
module RemapperPolicy {
  import opened Prelude
  import opened SseEvents
  import opened StreamContract
  import opened NativeRemapper
  import opened RemapperContract

  // ---------------------------------------------------------------------------------------------
  // A stream that meets the contract obeys the upstream protocol
  // ---------------------------------------------------------------------------------------------

  /** The checker's view of the upstream itself, against the protocol state. */
  ghost predicate Tracks(u: Upstream, c: Check, thinking: bool) {
    && (forall i | i in u.live :: i in c.open && c.open[i] == u.live[i] && i !in u.dropped)
    && (forall i | i in c.open :: i in u.live || i in u.dropped)
    && (forall i | i in u.live || i in u.dropped || i in u.stopped :: i in c.seen)
    && (!thinking ==> forall i | i in u.live :: u.live[i] != ThinkingOpen)
  }

  lemma StepObeys(u: Upstream, c: Check, e: Event, thinking: bool)
    requires Tracks(u, c, thinking) && Step(c, e).Some? && c.open.Keys <= c.seen
    ensures Obey(u, e, thinking).Some? && Tracks(Obey(u, e, thinking).value, Step(c, e).value, thinking)
  {
  }

  lemma {:induction false} LegalStreamsObey(u: Upstream, c: Check, es: seq<Event>, thinking: bool)
    requires Tracks(u, c, thinking) && Fold(c, es).Some? && c.open.Keys <= c.seen
    ensures ObeyAll(u, es, thinking).Some?
    ensures Tracks(ObeyAll(u, es, thinking).value, Fold(c, es).value, thinking)
    decreases es
  {
    if es != [] {
      StepObeys(u, c, es[0], thinking);
      LegalStreamsObey(Obey(u, es[0], thinking).value, Step(c, es[0]).value, es[1..], thinking);
    }
  }

  ghost predicate ShowsStart(es: seq<Event>, thinking: bool) {
    exists p | 0 <= p < |es| :: es[p].BlockStart? && (thinking || !IsThinkingBlock(es[p].block))
  }

  /** Remapping a stream that meets the contract keeps it, unless thinking is disabled and every
      block is a thinking block. */
  lemma RemapOfContractStream(es: seq<Event>, thinking: bool, allowError: bool)
    requires Contract(es, allowError)
    ensures ObeyAll(QUIET, es, thinking).Some? && ObeyAll(QUIET, es, thinking).value.live == map[]
    ensures Contract(Run(INITIAL, es, thinking).1, allowError)
        <==> ShowsStart(es, thinking)
  {
    LegalStreamsObey(QUIET, EMPTY, es, thinking);
    SameMap(ObeyAll(QUIET, es, thinking).value.live, map[]);
    RemapMeetsContract(es, thinking, allowError);
    ShownIsAStart(QUIET, EMPTY, es, thinking);
  }

  lemma {:induction false} ShownIsAStart(u: Upstream, c: Check, es: seq<Event>, thinking: bool)
    requires Tracks(u, c, thinking) && Fold(c, es).Some? && c.open.Keys <= c.seen
    requires u.live == map[]
    ensures ShowsSomething(es, u.dropped, thinking) <==> ShowsStart(es, thinking)
    decreases es
  {
    if es != [] {
      assert forall k | 1 <= k < |es| :: es[k] == es[1..][k - 1];
      assert forall k | 0 <= k < |es[1..]| :: es[1..][k] == es[k + 1];
      StepObeys(u, c, es[0], thinking);
      var u' := Obey(u, es[0], thinking).value;
      if es[0].BlockStart? && !DropsBlock(es[0].block, thinking) {
        assert ShowsStart(es, thinking);
      } else {
        SameMap(u'.live, map[]);
        ShownIsAStart(u', Step(c, es[0]).value, es[1..], thinking);
      }
    }
  }

  // ---------------------------------------------------------------------------------------------
  // Thinking disabled
  // ---------------------------------------------------------------------------------------------

  ghost predicate CarriesThinking(e: Event) {
    match e
    case BlockStart(_, b) => IsThinkingBlock(b)
    case BlockDelta(_, d) => IsThinkingText(d) || d.SignatureDelta?
    case _ => false
  }

  ghost predicate NoThinking(es: seq<Event>) {
    forall k | 0 <= k < |es| :: !CarriesThinking(es[k])
  }

  lemma {:induction false} StopsAreClean(segs: map<int, Segment>, order: seq<int>, current: int)
    ensures NoThinking(StopsOf(segs, order, current))
  {
    if order != [] {
      StopsAreClean(segs, order[1..], current);
    }
  }

  lemma CleanStep(s: Policy, u: Upstream, c: Check, d: Check, owners: seq<int>, e: Event)
    requires Sim(s, u, d, owners) && Tracks(u, c, false) && Step(c, e).Some? && c.open.Keys <= c.seen
    ensures NoThinking(Transform(s, e, false).1)
  {
    StepObeys(u, c, e, false);
    if e.BlockStart? {
      StopsAreClean(s.segs, s.order, e.index);
    }
  }

  lemma CleanJoin(a: seq<Event>, b: seq<Event>)
    requires NoThinking(a) && NoThinking(b)
    ensures NoThinking(a + b)
  {
  }

  lemma {:induction false} CleanRun(s: Policy, u: Upstream, c: Check, d: Check, owners: seq<int>, es: seq<Event>)
    requires Sim(s, u, d, owners) && Tracks(u, c, false) && Fold(c, es).Some? && c.open.Keys <= c.seen
    ensures NoThinking(Run(s, es, false).1)
    decreases es
  {
    if es != [] {
      StepObeys(u, c, es[0], false);
      CleanStep(s, u, c, d, owners, es[0]);
      EventKeeps(s, u, d, owners, es[0], false);
      var (s1, out1) := Transform(s, es[0], false);
      CleanRun(s1, Obey(u, es[0], false).value, Step(c, es[0]).value, Fold(d, out1).value,
               Extend(owners, s, es[0], false), es[1..]);
      CleanJoin(out1, Run(s1, es[1..], false).1);
    }
  }

  /** With thinking disabled, no thinking block, redacted block, thinking text or signature of a
      legal upstream (complete or cut off) reaches the client. */
  lemma ThinkingIsRemoved(es: seq<Event>)
    requires Fold(EMPTY, es).Some?
    ensures NoThinking(Run(INITIAL, es, false).1)
  {
    InitialSim();
    CleanRun(INITIAL, QUIET, EMPTY, EMPTY, [], es);
  }

  // On arbitrary input the policy misses signatures.

  /** The signature at position k, if there is one, is for an index that was started with a block of thinking before. */
  ghost predicate SignatureWasDropped(es: seq<Event>, k: int)
    requires 0 <= k < |es|
  {
    es[k].BlockDelta? && es[k].delta.SignatureDelta? ==>
      exists j | 0 <= j < k :: es[j].BlockStart? && es[j].index == es[k].index && IsThinkingBlock(es[j].block)
  }

  /** The dropped indexes are those started with a block of thinking. */
  lemma {:induction false} DroppedWereStarted(es: seq<Event>, i: int)
    ensures i in Run(INITIAL, es, false).0.dropped <==>
              exists j | 0 <= j < |es| :: es[j].BlockStart? && es[j].index == i && IsThinkingBlock(es[j].block)
  {
    if es != [] {
      var n := |es| - 1;
      DroppedWereStarted(es[..n], i);
      assert es == es[..n] + [es[n]];
      RunAppend(INITIAL, es[..n], [es[n]], false);
      RunOne(Run(INITIAL, es[..n], false).0, es[n], false);
      assert forall j | 0 <= j < n :: es[..n][j] == es[j];
    }
  }

  lemma CleanExactly(s: Policy, e: Event)
    ensures NoThinking(Transform(s, e, false).1) <==>
              (e.BlockDelta? && e.delta.SignatureDelta? ==> e.index in s.dropped)
  {
    var out := Transform(s, e, false).1;
    if e.BlockStart? {
      StopsAreClean(s.segs, s.order, e.index);
    } else if e.BlockDelta? && e.delta.SignatureDelta? && e.index !in s.dropped {
      assert CarriesThinking(out[|out| - 1]);
    }
  }

  lemma CleanBoth(a: seq<Event>, b: seq<Event>)
    ensures NoThinking(a + b) <==> NoThinking(a) && NoThinking(b)
  {
    assert forall k | 0 <= k < |a| :: (a + b)[k] == a[k];
    assert forall k | 0 <= k < |b| :: (a + b)[|a| + k] == b[k];
  }

  lemma CleanSoFar(es: seq<Event>, n: nat)
    requires n <= |es|
    ensures (forall k | 0 <= k < n :: SignatureWasDropped(es[..n], k)) <==> (forall k | 0 <= k < n :: SignatureWasDropped(es, k))
  {
    forall k | 0 <= k < n
      ensures SignatureWasDropped(es[..n], k) <==> SignatureWasDropped(es, k) {
      assert forall j | 0 <= j <= k :: es[..n][j] == es[j];
    }
  }

  lemma LastSignature(es: seq<Event>)
    requires es != []
    ensures var n := |es| - 1;
            NoThinking(Transform(Run(INITIAL, es[..n], false).0, es[n], false).1) <==> SignatureWasDropped(es, n)
  {
    var n := |es| - 1;
    CleanExactly(Run(INITIAL, es[..n], false).0, es[n]);
    if es[n].BlockDelta? {
      DroppedWereStarted(es[..n], es[n].index);
      assert forall j | 0 <= j < n :: es[..n][j] == es[j];
    }
  }

  /** For every input at all: with thinking disabled the output is free of thinking if and only if
      every signature_delta is for an index that was started with a block of thinking before. */
  lemma {:induction false} CleanExactlyIfSignaturesDropped(es: seq<Event>)
    ensures NoThinking(Run(INITIAL, es, false).1) <==> forall k | 0 <= k < |es| :: SignatureWasDropped(es, k)
  {
    if es != [] {
      var n := |es| - 1;
      var front, last := es[..n], es[n];
      CleanExactlyIfSignaturesDropped(front);
      CleanSoFar(es, n);
      LastSignature(es);
      assert es == front + [last];
      RunAppend(INITIAL, front, [last], false);
      RunOne(Run(INITIAL, front, false).0, last, false);
      CleanBoth(Run(INITIAL, front, false).1, Transform(Run(INITIAL, front, false).0, last, false).1);
    }
  }

  /** Such a signature can even open a thinking block, here by resuming a stopped text block. */
  lemma SignatureReopensThinking()
    ensures var es := [BlockStart(0, TextBlock("")), BlockStop(0), BlockDelta(0, SignatureDelta("s"))];
            Run(INITIAL, es, false).1
            == [BlockStart(0, TextBlock("")), BlockStop(0), BlockStart(1, ThinkingBlock("")),
                BlockDelta(1, SignatureDelta("s"))]
  {
    var a, b, c := BlockStart(0, TextBlock("")), BlockStop(0), BlockDelta(0, SignatureDelta("s"));
    assert [a, b, c][1..] == [b, c] && [b, c][1..] == [c] && [c][1..] == [];
    var s1 := Transform(INITIAL, a, false).0;
    var s2 := Transform(s1, b, false).0;
    assert s2.segs[0] == Segment(0, false, TextBlock(""));
    assert Run(s2, [c], false).1 == [BlockStart(1, ThinkingBlock("")), BlockDelta(1, SignatureDelta("s"))];
  }
}
