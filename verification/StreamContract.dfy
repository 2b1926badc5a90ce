/** The repository's executable statement of a well-formed Anthropic stream. */
module StreamContract {
  import opened Prelude
  import opened SseEvents

  /** What the checker remembers about an open block. */
  datatype Storage = TextOpen | EagerTextOpen | ThinkingOpen | ToolOpen | StartStopOnly

  datatype Check = Check(open: map<int, Storage>, seen: set<int>)

  const EMPTY: Check := Check(map[], {})

  /** None when the block's type is not in the allowed set. */
  function StorageOf(b: Block): Option<Storage> {
    match b
    case TextBlock(text) => Some(if IsBlank(text) then TextOpen else EagerTextOpen)
    case ThinkingBlock(_) => Some(ThinkingOpen)
    case ToolUseBlock(_, _, _) => Some(ToolOpen)
    case RedactedThinkingBlock(_) => Some(StartStopOnly)
    case ServerToolBlock(_) => Some(StartStopOnly)
    case UnlistedBlock(_) => None
  }

  predicate Fits(s: Storage, d: Delta) {
    match s
    case TextOpen => d.TextDelta?
    case ThinkingOpen => d.ThinkingDelta? || d.SignatureDelta?
    case ToolOpen => d.InputJsonDelta?
    case EagerTextOpen => false
    case StartStopOnly => false
  }

  /** One iteration of the checker's loop; None is a failed assertion. */
  function Step(c: Check, e: Event): Option<Check> {
    match e
    case BlockStart(i, b) =>
      if StorageOf(b).None? || i in c.open || i in c.seen then None
      else Some(Check(c.open[i := StorageOf(b).value], c.seen + {i}))
    case BlockDelta(i, d) =>
      if i in c.open && Fits(c.open[i], d) then Some(c) else None
    case BlockStop(i) =>
      if i in c.open then Some(Check(c.open - {i}, c.seen)) else None
    case Malformed(_, _) => None
    case _ => Some(c)
  }

  function Fold(c: Check, es: seq<Event>): Option<Check>
    decreases es
  {
    if es == [] then Some(c)
    else
      match Step(c, es[0])
      case None => None
      case Some(c') => Fold(c', es[1..])
  }

  /** The whole contract in terms of the fold. */
  predicate Contract(es: seq<Event>, allowError: bool) {
    && HasMessageStart(es)
    && es[|es| - 1] == MessageStop
    && (allowError || !HasError(es))
    && Fold(EMPTY, es).Some?
    && Fold(EMPTY, es).value.open == map[]
    && Fold(EMPTY, es).value.seen != {}
  }

  /** The checker itself, loop for loop. */
  method AssertContract(es: seq<Event>, allowError: bool) returns (ok: bool)
    ensures ok <==> Contract(es, allowError)
  {
    if es == [] {
      return false;
    }
    var hasStart := false;
    for k := 0 to |es|
      invariant hasStart <==> HasMessageStart(es[..k])
    {
      assert forall i | 0 <= i < k :: es[..k + 1][i] == es[..k][i];
      if es[k].MessageStart? {
        assert es[..k + 1][k].MessageStart?;
        hasStart := true;
      }
    }
    assert es[..|es|] == es;
    if !hasStart || es[|es| - 1] != MessageStop {
      return false;
    }
    var open: map<int, Storage>, seen: set<int> := map[], {};
    for k := 0 to |es|
      invariant Fold(EMPTY, es) == Fold(Check(open, seen), es[k..])
      invariant allowError || forall j | 0 <= j < k :: !es[j].ErrorEvent?
    {
      assert es[k..][0] == es[k] && es[k..][1..] == es[k + 1..];
      var e := es[k];
      match e {
        case ErrorEvent(_) =>
          if !allowError {
            assert HasError(es);
            return false;
          }
        case BlockStart(i, b) =>
          var storage := StorageOf(b);
          if storage == None || i in open || i in seen {
            return false;
          }
          open := open[i := storage.value];
          seen := seen + {i};
        case BlockDelta(i, d) =>
          if i !in open || !Fits(open[i], d) {
            return false;
          }
        case BlockStop(i) =>
          if i !in open {
            return false;
          }
          open := open - {i};
        case Malformed(_, _) =>
          return false;
        case _ =>
      }
    }
    assert es[|es|..] == [];
    return open == map[] && seen != {};
  }

  lemma {:induction false} FoldAppend(c: Check, a: seq<Event>, b: seq<Event>)
    ensures Fold(c, a + b)
         == match Fold(c, a) { case None => None case Some(c') => Fold(c', b) }
    decreases a
  {
    if a == [] {
      assert a + b == b;
    } else {
      assert (a + b)[0] == a[0] && (a + b)[1..] == a[1..] + b;
      match Step(c, a[0]) {
        case None =>
        case Some(c') => FoldAppend(c', a[1..], b);
      }
    }
  }

  lemma FoldSnoc(c: Check, es: seq<Event>)
    requires es != []
    ensures Fold(c, es)
         == match Fold(c, es[..|es| - 1]) { case None => None case Some(c') => Step(c', es[|es| - 1]) }
  {
    FoldAppend(c, es[..|es| - 1], [es[|es| - 1]]);
    assert es[..|es| - 1] + [es[|es| - 1]] == es;
    match Fold(c, es[..|es| - 1]) {
      case None =>
      case Some(c') => FoldOne(c', es[|es| - 1]);
    }
  }

  lemma FoldOne(c: Check, e: Event)
    ensures Fold(c, [e]) == Step(c, e)
  {
    assert [e][0] == e && [e][1..] == [];
  }

  /** A stream that is legal so far has only legal prefixes. */
  lemma FoldPrefix(c: Check, es: seq<Event>, k: nat)
    requires k <= |es| && Fold(c, es).Some?
    ensures Fold(c, es[..k]).Some?
  {
    assert es[..k] + es[k..] == es;
    FoldAppend(c, es[..k], es[k..]);
  }

  /** Every open block has been started. */
  lemma {:induction false} OpenWasSeen(c: Check, es: seq<Event>)
    requires c.open.Keys <= c.seen && Fold(c, es).Some?
    ensures Fold(c, es).value.open.Keys <= Fold(c, es).value.seen
    decreases es
  {
    if es != [] {
      OpenWasSeen(Step(c, es[0]).value, es[1..]);
    }
  }

  // ---------------------------------------------------------------------------------------------
  // What the contract means, without the checker's tables
  // ---------------------------------------------------------------------------------------------

  /** The block started at position q is still open just before position p. */
  ghost predicate OpenFrom(es: seq<Event>, q: int, p: int) {
    && 0 <= q < p <= |es|
    && es[q].BlockStart?
    && forall r | q < r < p :: es[r] != BlockStop(es[q].index)
  }

  ghost predicate StartIsFresh(es: seq<Event>, p: int)
    requires 0 <= p < |es| && es[p].BlockStart?
  {
    && !es[p].block.UnlistedBlock?
    && forall q | 0 <= q < p && es[q].BlockStart? :: es[q].index != es[p].index
  }

  /** Text goes to text blocks that were started empty, thinking and signatures to thinking blocks, JSON to
      tool blocks, and nothing to any other block. */
  predicate Takes(b: Block, d: Delta) {
    || (b.TextBlock? && IsBlank(b.text) && d.TextDelta?)
    || (b.ThinkingBlock? && (d.ThinkingDelta? || d.SignatureDelta?))
    || (b.ToolUseBlock? && d.InputJsonDelta?)
  }

  ghost predicate DeltaIsHome(es: seq<Event>, p: int)
    requires 0 <= p < |es| && es[p].BlockDelta?
  {
    exists q :: OpenFrom(es, q, p) && es[q].index == es[p].index && Takes(es[q].block, es[p].delta)
  }

  ghost predicate StopHasStart(es: seq<Event>, p: int)
    requires 0 <= p < |es| && es[p].BlockStop?
  {
    exists q :: OpenFrom(es, q, p) && es[q].index == es[p].index
  }

  ghost predicate PositionOk(es: seq<Event>, p: int)
    requires 0 <= p < |es|
  {
    match es[p]
    case BlockStart(_, _) => StartIsFresh(es, p)
    case BlockDelta(_, _) => DeltaIsHome(es, p)
    case BlockStop(_) => StopHasStart(es, p)
    case Malformed(_, _) => false
    case _ => true
  }

  /** The checker's tables agree with the positions they summarise. */
  ghost predicate TablesAgree(c: Check, es: seq<Event>) {
    && (forall q | OpenFrom(es, q, |es|) ::
          es[q].index in c.open && StorageOf(es[q].block) == Some(c.open[es[q].index]))
    && (forall i | i in c.open :: exists q :: OpenFrom(es, q, |es|) && es[q].index == i)
    && (forall q | 0 <= q < |es| && es[q].BlockStart? :: es[q].index in c.seen)
    && (forall i | i in c.seen :: exists q | 0 <= q < |es| :: es[q].BlockStart? && es[q].index == i)
  }

  lemma OpenFromPrefix(es: seq<Event>, n: nat, q: int, p: int)
    requires p <= n <= |es|
    ensures OpenFrom(es[..n], q, p) <==> OpenFrom(es, q, p)
  {
    if 0 <= q < p {
      assert forall r | 0 <= r < p :: es[..n][r] == es[r];
    }
  }

  lemma PositionOkPrefix(es: seq<Event>, n: nat, p: int)
    requires 0 <= p < n <= |es|
    ensures PositionOk(es[..n], p) <==> PositionOk(es, p)
  {
    assert forall q | 0 <= q < n :: es[..n][q] == es[q];
    forall q ensures OpenFrom(es[..n], q, p) <==> OpenFrom(es, q, p) {
      OpenFromPrefix(es, n, q, p);
    }
  }

  /** The fold succeeds exactly when every position is right, and then its tables are exact. */
  lemma {:induction false} FoldMeaning(es: seq<Event>)
    ensures Fold(EMPTY, es).Some? <==> forall p | 0 <= p < |es| :: PositionOk(es, p)
    ensures Fold(EMPTY, es).Some? ==> TablesAgree(Fold(EMPTY, es).value, es)
  {
    if es != [] {
      var n := |es| - 1;
      FoldMeaning(es[..n]);
      FoldSnoc(EMPTY, es);
      forall p | 0 <= p < n ensures PositionOk(es[..n], p) <==> PositionOk(es, p) {
        PositionOkPrefix(es, n, p);
      }
      if Fold(EMPTY, es[..n]).Some? {
        LastPosition(es, Fold(EMPTY, es[..n]).value);
      }
    }
  }

  lemma LastPosition(es: seq<Event>, c: Check)
    requires es != [] && TablesAgree(c, es[..|es| - 1])
    ensures Step(c, es[|es| - 1]).Some? <==> PositionOk(es, |es| - 1)
    ensures Step(c, es[|es| - 1]).Some? ==> TablesAgree(Step(c, es[|es| - 1]).value, es)
  {
    var n := |es| - 1;
    assert forall q | 0 <= q < n :: es[..n][q] == es[q];
    forall q ensures OpenFrom(es[..n], q, n) <==> OpenFrom(es, q, n) {
      OpenFromPrefix(es, n, q, n);
    }
    if Step(c, es[n]).Some? {
      LastTables(es, c);
    }
  }

  lemma LastTables(es: seq<Event>, c: Check)
    requires es != [] && TablesAgree(c, es[..|es| - 1]) && Step(c, es[|es| - 1]).Some?
    ensures TablesAgree(Step(c, es[|es| - 1]).value, es)
  {
    var n := |es| - 1;
    var c' := Step(c, es[n]).value;
    assert forall q | 0 <= q < n :: es[..n][q] == es[q];
    forall q ensures OpenFrom(es[..n], q, n) <==> OpenFrom(es, q, n) {
      OpenFromPrefix(es, n, q, n);
    }
    forall q ensures OpenFrom(es, q, n + 1) <==>
        (q == n && es[n].BlockStart?) || (OpenFrom(es, q, n) && es[n] != BlockStop(es[q].index)) {
    }
    forall i | i in c'.open ensures exists q :: OpenFrom(es, q, n + 1) && es[q].index == i {
      if es[n].BlockStart? && es[n].index == i {
        assert OpenFrom(es, n, n + 1);
      } else {
        var q :| OpenFrom(es[..n], q, n) && es[..n][q].index == i;
        assert OpenFrom(es, q, n + 1);
      }
    }
    forall i | i in c'.seen ensures exists q | 0 <= q < |es| :: es[q].BlockStart? && es[q].index == i {
      if i in c.seen {
        var q :| 0 <= q < n && es[..n][q].BlockStart? && es[..n][q].index == i;
        assert es[q].BlockStart?;
      } else {
        assert es[n].BlockStart?;
      }
    }
  }

  /** The contract, position by position: every block is of an allowed kind and gets a fresh index,
      every delta belongs to a block of its kind that is open at that moment, every stop closes an
      open block, no block stays open, there is a block, and message_stop comes last. */
  lemma ContractMeaning(es: seq<Event>, allowError: bool)
    ensures Contract(es, allowError) <==>
      && HasMessageStart(es) && HasBlockStart(es)
      && es[|es| - 1] == MessageStop
      && (allowError || !HasError(es))
      && (forall p | 0 <= p < |es| :: PositionOk(es, p))
      && !exists q :: OpenFrom(es, q, |es|)
  {
    FoldMeaning(es);
    if Fold(EMPTY, es).Some? {
      var c := Fold(EMPTY, es).value;
      if !exists q :: OpenFrom(es, q, |es|) {
        SameMap(c.open, map[]);
      }
      if !HasBlockStart(es) {
        SameSet(c.seen, {});
      }
    }
  }
}
