/** The strict sliding-window limiter: a deque of recent grants stands for the whole history. */
module SlidingWindows {
  import opened Prelude

  datatype Limiter = Limiter(limit: nat, window: real, times: seq<real>)

  /** The deque without the leading entries at or before the cutoff. */
  function Expire(times: seq<real>, cutoff: real): seq<real> {
    if times != [] && times[0] <= cutoff then Expire(times[1..], cutoff) else times
  }

  /** One turn of acquire under the lock: granted, or the time to sleep before the next turn. */
  function Turn(l: Limiter, now: real): (Limiter, Option<real>)
    requires l.limit > 0
  {
    var times := Expire(l.times, now - l.window);
    if |times| < l.limit then (l.(times := times + [now]), None)
    else
      var wait := times[0] + l.window - now;
      (l.(times := times), Some(if wait < 0.0 then 0.0 else wait))
  }

  class StrictSlidingWindowLimiter {
    const limit: nat
    const window: real
    var times: seq<real>

    ghost function View(): Limiter
      reads this
    {
      Limiter(limit, window, times)
    }

    constructor (limit: nat, window: real)
      ensures View() == Limiter(limit, window, [])
    {
      this.limit, this.window := limit, window;
      times := [];
    }

    /** Returns null where the source raises ValueError. */
    static method Create(rateLimit: int, rateWindow: real) returns (limiter: StrictSlidingWindowLimiter?)
      ensures limiter == null <==> rateLimit <= 0 || rateWindow <= 0.0
      ensures limiter != null ==> fresh(limiter) && limiter.View() == Limiter(rateLimit, rateWindow, [])
    {
      if rateLimit <= 0 || rateWindow <= 0.0 {
        return null;
      }
      limiter := new StrictSlidingWindowLimiter(rateLimit, rateWindow);
    }

    method AcquireTurn(now: real) returns (sleep: Option<real>)
      requires limit > 0
      modifies this
      ensures (View(), sleep) == Turn(old(View()), now)
    {
      var cutoff := now - window;
      while times != [] && times[0] <= cutoff
        invariant Expire(times, cutoff) == Expire(old(times), cutoff)
        decreases |times|
      {
        times := times[1..];
      }
      if |times| < limit {
        times := times + [now];
        return None;
      }
      var wait := times[0] + window - now;
      return Some(if wait < 0.0 then 0.0 else wait);
    }
  }

  // ---------------------------------------------------------------------------------------------
  // Runs
  // ---------------------------------------------------------------------------------------------

  predicate Sorted(s: seq<real>) {
    forall i, j | 0 <= i < j < |s| :: s[i] <= s[j]
  }

  /** The grants of a run, by the limiter: the clock readings of all turns of all callers, in order. */
  function Grants(l: Limiter, nows: seq<real>): seq<real>
    requires l.limit > 0
    decreases nows
  {
    if nows == [] then []
    else
      var (next, sleep) := Turn(l, nows[0]);
      (if sleep.None? then [nows[0]] else []) + Grants(next, nows[1..])
  }

  /** How many of the grants lie after the cutoff. */
  function CountAfter(grants: seq<real>, cutoff: real): nat {
    if grants == [] then 0
    else CountAfter(grants[..|grants| - 1], cutoff) + if grants[|grants| - 1] > cutoff then 1 else 0
  }

  /** The same run with a limiter that forgets nothing and counts the grants of the last window. */
  function Reference(limit: nat, window: real, granted: seq<real>, nows: seq<real>): seq<real>
    decreases nows
  {
    if nows == [] then []
    else if CountAfter(granted, nows[0] - window) < limit then
      [nows[0]] + Reference(limit, window, granted + [nows[0]], nows[1..])
    else Reference(limit, window, granted, nows[1..])
  }

  predicate AllUpTo(s: seq<real>, t: real) {
    forall i | 0 <= i < |s| :: s[i] <= t
  }

  predicate AllFrom(s: seq<real>, t: real) {
    forall i | 0 <= i < |s| :: s[i] >= t
  }

  predicate AllAfter(s: seq<real>, t: real) {
    forall i | 0 <= i < |s| :: s[i] > t
  }

  /** The limiter can go on after a run up to now whose grants were expired + times. */
  predicate Remembers(l: Limiter, expired: seq<real>, now: real) {
    && l.limit > 0 && l.window > 0.0 && |l.times| <= l.limit
    && Sorted(l.times)
    && AllUpTo(l.times, now)
    && AllUpTo(expired, now - l.window)
  }

  lemma SortedTail(times: seq<real>)
    requires Sorted(times) && times != []
    ensures Sorted(times[1..]) && AllFrom(times, times[0])
  {
  }

  lemma {:induction false} ExpireSplits(times: seq<real>, cutoff: real) returns (dropped: seq<real>)
    requires Sorted(times)
    ensures times == dropped + Expire(times, cutoff)
    ensures AllUpTo(dropped, cutoff) && AllAfter(Expire(times, cutoff), cutoff) && Sorted(Expire(times, cutoff))
    decreases times
  {
    dropped := [];
    if times != [] {
      SortedTail(times);
      if times[0] <= cutoff {
        var more := ExpireSplits(times[1..], cutoff);
        dropped := [times[0]] + more;
        Prepend(times, more, Expire(times[1..], cutoff));
      }
    }
  }

  lemma Prepend(times: seq<real>, more: seq<real>, kept: seq<real>)
    requires times != [] && times[1..] == more + kept
    ensures times == [times[0]] + more + kept
  {
    assert times == [times[0]] + times[1..];
  }

  lemma {:induction false} CountAfterAppend(a: seq<real>, b: seq<real>, cutoff: real)
    ensures CountAfter(a + b, cutoff) == CountAfter(a, cutoff) + CountAfter(b, cutoff)
  {
    if b == [] {
      assert a + b == a;
    } else {
      assert (a + b)[..|a + b| - 1] == a + b[..|b| - 1];
      CountAfterAppend(a, b[..|b| - 1], cutoff);
    }
  }

  lemma {:induction false} CountAfterAll(s: seq<real>, cutoff: real)
    ensures AllUpTo(s, cutoff) ==> CountAfter(s, cutoff) == 0
    ensures AllAfter(s, cutoff) ==> CountAfter(s, cutoff) == |s|
  {
    if s != [] {
      CountAfterAll(s[..|s| - 1], cutoff);
    }
  }

  lemma AppendSorted(times: seq<real>, now: real)
    requires Sorted(times) && AllUpTo(times, now)
    ensures Sorted(times + [now]) && AllUpTo(times + [now], now)
  {
  }

  /** A turn decides as if nothing had been forgotten, and what it then remembers is enough again. */
  lemma TurnRemembers(l: Limiter, expired: seq<real>, before: real, now: real) returns (gone: seq<real>)
    requires Remembers(l, expired, before) && before <= now
    ensures var (next, sleep) := Turn(l, now);
            && (sleep.None? <==> CountAfter(expired + l.times, now - l.window) < l.limit)
            && Remembers(next, gone, now) && next == l.(times := next.times)
            && gone + next.times == if sleep.None? then expired + l.times + [now] else expired + l.times
  {
    var kept := Expire(l.times, now - l.window);
    var dropped := ExpireSplits(l.times, now - l.window);
    gone := expired + dropped;
    PartsRemember(l, expired, dropped, kept, now);
    TurnForm(l, now, kept);
  }

  lemma TurnForm(l: Limiter, now: real, kept: seq<real>)
    requires l.limit > 0 && kept == Expire(l.times, now - l.window)
    ensures var (next, sleep) := Turn(l, now);
            && (sleep.None? <==> |kept| < l.limit)
            && next == l.(times := if |kept| < l.limit then kept + [now] else kept)
  {
  }

  /** The deque in two parts, those that expire and those that are kept. */
  lemma PartsRemember(l: Limiter, expired: seq<real>, dropped: seq<real>, kept: seq<real>, now: real)
    requires l.limit > 0 && l.window > 0.0 && |l.times| <= l.limit && AllUpTo(l.times, now)
    requires l.times == dropped + kept && Sorted(kept) && AllAfter(kept, now - l.window)
    requires AllUpTo(expired, now - l.window) && AllUpTo(dropped, now - l.window)
    ensures CountAfter(expired + l.times, now - l.window) == |kept|
    ensures Remembers(l.(times := kept), expired + dropped, now)
    ensures |kept| < l.limit ==> Remembers(l.(times := kept + [now]), expired + dropped, now)
    ensures expired + dropped + kept == expired + l.times && expired + dropped + (kept + [now]) == expired + l.times + [now]
  {
    SplitCounts(expired, dropped, kept, now - l.window);
    KeptUpTo(l.times, dropped, kept, now);
    StillRemembers(l, expired + dropped, kept, now);
    Regroup(expired, dropped, kept, now);
  }

  lemma StillRemembers(l: Limiter, gone: seq<real>, kept: seq<real>, now: real)
    requires l.limit > 0 && l.window > 0.0 && |kept| <= l.limit && Sorted(kept) && AllUpTo(kept, now)
    requires AllUpTo(gone, now - l.window)
    ensures Remembers(l.(times := kept), gone, now)
    ensures |kept| < l.limit ==> Remembers(l.(times := kept + [now]), gone, now)
  {
    AppendSorted(kept, now);
  }

  lemma Regroup(a: seq<real>, b: seq<real>, c: seq<real>, t: real)
    ensures a + b + c == a + (b + c)
    ensures a + b + (c + [t]) == a + (b + c) + [t]
  {
  }

  lemma SplitCounts(expired: seq<real>, dropped: seq<real>, kept: seq<real>, cutoff: real)
    requires AllUpTo(expired, cutoff) && AllUpTo(dropped, cutoff) && AllAfter(kept, cutoff)
    ensures AllUpTo(expired + dropped, cutoff)
    ensures CountAfter(expired + (dropped + kept), cutoff) == |kept|
  {
    assert expired + dropped + kept == expired + (dropped + kept);
    CountAfterAppend(expired + dropped, kept, cutoff);
    CountAfterAll(expired + dropped, cutoff);
    CountAfterAll(kept, cutoff);
  }

  lemma KeptUpTo(times: seq<real>, dropped: seq<real>, kept: seq<real>, now: real)
    requires times == dropped + kept && AllUpTo(times, now)
    ensures AllUpTo(kept, now)
  {
    assert forall i | 0 <= i < |kept| :: kept[i] == times[|dropped| + i];
  }

  /** The clock never runs backwards. */
  predicate Monotone(before: real, nows: seq<real>)
    decreases nows
  {
    nows == [] || (before <= nows[0] && Monotone(nows[0], nows[1..]))
  }

  lemma {:induction false} SortedIsMonotone(before: real, nows: seq<real>)
    requires Sorted(nows) && (nows == [] || before <= nows[0])
    ensures Monotone(before, nows)
    decreases nows
  {
    if nows != [] {
      SortedIsMonotone(nows[0], nows[1..]);
    }
  }

  /** Although expired grants are discarded, a run grants exactly what a limiter with full memory would. */
  lemma {:induction false} ForgettingIsSafe(l: Limiter, expired: seq<real>, before: real, nows: seq<real>)
    requires Remembers(l, expired, before) && Monotone(before, nows)
    ensures Grants(l, nows) == Reference(l.limit, l.window, expired + l.times, nows)
    decreases nows
  {
    if nows != [] {
      var gone := TurnRemembers(l, expired, before, nows[0]);
      var next := Turn(l, nows[0]).0;
      ForgettingIsSafe(next, gone, nows[0], nows[1..]);
      ReferenceNext(l.limit, l.window, expired + l.times, nows, gone + next.times);
    }
  }

  lemma ReferenceNext(limit: nat, window: real, granted: seq<real>, nows: seq<real>, next: seq<real>)
    requires nows != []
    requires next == if CountAfter(granted, nows[0] - window) < limit then granted + [nows[0]] else granted
    ensures Reference(limit, window, granted, nows)
         == (if CountAfter(granted, nows[0] - window) < limit then [nows[0]] else []) + Reference(limit, window, next, nows[1..])
  {
  }

  /** Grant k + limit comes at least one window after grant k. */
  ghost predicate Spaced(grants: seq<real>, limit: nat, window: real) {
    forall i, j | 0 <= i && j == i + limit && j < |grants| :: grants[j] >= grants[i] + window
  }

  lemma OneMoreSpaced(granted: seq<real>, limit: nat, window: real, now: real)
    requires Sorted(granted) && Spaced(granted, limit, window) && limit > 0
    requires CountAfter(granted, now - window) < limit
    ensures Spaced(granted + [now], limit, window)
  {
    if |granted| >= limit {
      LastOfMany(granted, now - window, limit);
    }
  }

  lemma SortedWithout(a: seq<real>, x: real, b: seq<real>)
    requires Sorted(a + ([x] + b))
    ensures Sorted(a + [x] + b) && Sorted(a + b) && Sorted(a)
  {
    var all := a + ([x] + b);
    assert a + [x] + b == all;
    assert forall i | 0 <= i < |a + b| :: (a + b)[i] == all[if i < |a| then i else i + 1];
    assert forall i | 0 <= i < |a| :: a[i] == all[i];
  }

  lemma {:induction false} ReferenceIsSpaced(limit: nat, window: real, granted: seq<real>, nows: seq<real>)
    requires limit > 0 && window > 0.0 && Sorted(granted + nows) && Spaced(granted, limit, window)
    ensures var all := granted + Reference(limit, window, granted, nows); Spaced(all, limit, window) && Sorted(all)
    decreases nows
  {
    if nows == [] {
      assert granted + [] == granted;
    } else {
      var now, rest := nows[0], nows[1..];
      assert nows == [now] + rest;
      SortedWithout(granted, now, rest);
      if CountAfter(granted, now - window) < limit {
        OneMoreSpaced(granted, limit, window, now);
        ReferenceIsSpaced(limit, window, granted + [now], rest);
        var more := Reference(limit, window, granted + [now], rest);
        assert granted + [now] + more == granted + ([now] + more);
      } else {
        ReferenceIsSpaced(limit, window, granted, rest);
      }
    }
  }

  /** Fewer than limit grants after the cutoff: the limit-th last one is not after it. */
  lemma LastOfMany(granted: seq<real>, cutoff: real, limit: nat)
    requires Sorted(granted) && 0 < limit <= |granted| && CountAfter(granted, cutoff) < limit
    ensures granted[|granted| - limit] <= cutoff
  {
    if granted[|granted| - limit] > cutoff {
      var n := |granted| - limit;
      CountAtLeast(granted, cutoff, n);
    }
  }

  lemma {:induction false} CountAtLeast(granted: seq<real>, cutoff: real, n: nat)
    requires Sorted(granted) && n < |granted| && granted[n] > cutoff
    ensures CountAfter(granted, cutoff) >= |granted| - n
    decreases |granted|
  {
    if n < |granted| - 1 {
      CountAtLeast(granted[..|granted| - 1], cutoff, n);
    }
  }

  // ---------------------------------------------------------------------------------------------
  // Intervals
  // ---------------------------------------------------------------------------------------------

  predicate Within(x: real, a: real, b: real, closed: bool) {
    a <= x && (x < b || (closed && x == b))
  }

  /** The number of grants from a up to b, with or without b itself. */
  function CountIn(grants: seq<real>, a: real, b: real, closed: bool): nat {
    if grants == [] then 0
    else CountIn(grants[..|grants| - 1], a, b, closed) + if Within(grants[|grants| - 1], a, b, closed) then 1 else 0
  }

  /** With the last grant inside the interval, the counted ones are the last of all. */
  lemma {:induction false} CountedAreLast(grants: seq<real>, a: real, b: real, closed: bool)
    requires Sorted(grants) && grants != [] && Within(grants[|grants| - 1], a, b, closed)
    ensures 0 < CountIn(grants, a, b, closed) <= |grants|
    ensures forall i | 0 <= i < |grants| :: grants[i] >= a <==> i >= |grants| - CountIn(grants, a, b, closed)
    decreases |grants|
  {
    var front := grants[..|grants| - 1];
    if front != [] {
      if Within(front[|front| - 1], a, b, closed) {
        CountedAreLast(front, a, b, closed);
      } else {
        NoneIn(front, a, b, closed);
      }
    }
  }

  lemma {:induction false} NoneIn(grants: seq<real>, a: real, b: real, closed: bool)
    requires forall i | 0 <= i < |grants| :: grants[i] < a
    ensures CountIn(grants, a, b, closed) == 0
  {
    if grants != [] {
      NoneIn(grants[..|grants| - 1], a, b, closed);
    }
  }

  ghost predicate HitsBothEnds(grants: seq<real>, limit: nat, a: real, b: real) {
    exists i, j | 0 <= i && j == i + limit && j < |grants| :: grants[i] == a && grants[j] == b
  }

  /** An interval one window long holds at most limit spaced grants, unless it is closed and has grants
      at both its ends with limit - 1 grants between them. */
  lemma {:induction false} WindowHoldsLimit(grants: seq<real>, limit: nat, window: real, a: real, closed: bool)
    requires limit > 0 && window > 0.0 && Sorted(grants) && Spaced(grants, limit, window)
    ensures CountIn(grants, a, a + window, closed) > limit <==> closed && HitsBothEnds(grants, limit, a, a + window)
    decreases |grants|
  {
    var b := a + window;
    if grants != [] {
      var n, front := |grants| - 1, grants[..|grants| - 1];
      WindowHoldsLimit(front, limit, window, a, closed);
      assert forall i | 0 <= i < n :: front[i] == grants[i];
      assert HitsBothEnds(front, limit, a, b) ==> HitsBothEnds(grants, limit, a, b) by {
        if HitsBothEnds(front, limit, a, b) {
          var i, j :| 0 <= i && j == i + limit && j < |front| && front[i] == a && front[j] == b;
          assert grants[i] == a && grants[j] == b;
        }
      }
      if Within(grants[n], a, b, closed) {
        CountedAreLast(grants, a, b, closed);
        LastGrantHits(grants, limit, window, a, closed);
      } else if HitsBothEnds(grants, limit, a, b) {
        OtherGrantHits(grants, limit, a, b, closed);
      }
    }
  }

  lemma LastGrantHits(grants: seq<real>, limit: nat, window: real, a: real, closed: bool)
    requires limit > 0 && window > 0.0 && Sorted(grants) && Spaced(grants, limit, window) && grants != []
    requires Within(grants[|grants| - 1], a, a + window, closed)
    ensures CountIn(grants, a, a + window, closed) > limit <==> closed && HitsBothEnds(grants, limit, a, a + window)
  {
    var n, count := |grants| - 1, CountIn(grants, a, a + window, closed);
    CountedAreLast(grants, a, a + window, closed);
    if count > limit {
      assert grants[n - limit] >= a && grants[n] >= grants[n - limit] + window;
      assert grants[n - limit] == a && grants[n] == a + window;
    }
    if HitsBothEnds(grants, limit, a, a + window) {
      var i, j :| 0 <= i && j == i + limit && j < |grants| && grants[i] == a && grants[j] == a + window;
      assert grants[j] <= grants[n];
    }
  }

  lemma OtherGrantHits(grants: seq<real>, limit: nat, a: real, b: real, closed: bool)
    requires Sorted(grants) && grants != [] && !Within(grants[|grants| - 1], a, b, closed) && a < b
    requires HitsBothEnds(grants, limit, a, b)
    ensures closed ==> HitsBothEnds(grants[..|grants| - 1], limit, a, b)
  {
    var i, j :| 0 <= i && j == i + limit && j < |grants| && grants[i] == a && grants[j] == b;
    var front := grants[..|grants| - 1];
    if closed {
      assert j < |front|;
      assert front[i] == a && front[j] == b;
    }
  }

  /** Over the whole history of grants, whoever asks and whenever, with a clock that never runs back:
      every half-open window holds at most limit grants; a closed one holds more exactly when grants fall
      on both its ends with limit - 1 between them. */
  lemma AtMostLimitPerWindow(limit: nat, window: real, nows: seq<real>, a: real)
    requires limit > 0 && window > 0.0 && Sorted(nows)
    ensures var grants := Grants(Limiter(limit, window, []), nows);
            && grants == Reference(limit, window, [], nows)
            && Spaced(grants, limit, window)
            && CountIn(grants, a, a + window, false) <= limit
            && (CountIn(grants, a, a + window, true) > limit <==> HitsBothEnds(grants, limit, a, a + window))
  {
    var l := Limiter(limit, window, []);
    if nows != [] {
      SortedIsMonotone(nows[0], nows);
      ForgettingIsSafe(l, [], nows[0], nows);
    }
    assert [] + l.times == [];
    assert [] + nows == nows && [] + Reference(limit, window, [], nows) == Reference(limit, window, [], nows);
    ReferenceIsSpaced(limit, window, [], nows);
    WindowHoldsLimit(Grants(l, nows), limit, window, a, false);
    WindowHoldsLimit(Grants(l, nows), limit, window, a, true);
  }

  /** A refused caller is told exactly how long to sleep: if nobody else is granted meanwhile, every
      earlier turn is refused and the turn after the sleep is granted. */
  lemma SleepIsExact(l: Limiter, expired: seq<real>, before: real, now: real, later: real)
    requires Remembers(l, expired, before) && before <= now <= later
    requires Turn(l, now).1.Some?
    ensures var (next, sleep) := Turn(l, now);
            && sleep.value > 0.0
            && (Turn(next, later).1.None? <==> later >= now + sleep.value)
  {
    var kept := Expire(l.times, now - l.window);
    KeptIsFull(l, expired, before, now);
    WaitFor(kept, l.limit, l.window, later);
  }

  lemma KeptIsFull(l: Limiter, expired: seq<real>, before: real, now: real)
    requires Remembers(l, expired, before) && Turn(l, now).1.Some?
    ensures var kept := Expire(l.times, now - l.window); |kept| == l.limit && kept[0] > now - l.window
  {
    var _ := ExpireSplits(l.times, now - l.window);
  }

  lemma WaitFor(kept: seq<real>, limit: nat, window: real, later: real)
    requires 0 < limit == |kept|
    ensures |Expire(kept, later - window)| < limit <==> later >= kept[0] + window
  {
    if later < kept[0] + window {
      assert Expire(kept, later - window) == kept;
    } else {
      ExpireShrinks(kept[1..], later - window);
    }
  }

  lemma {:induction false} ExpireShrinks(times: seq<real>, cutoff: real)
    ensures |Expire(times, cutoff)| <= |times|
    decreases times
  {
    if times != [] && times[0] <= cutoff {
      ExpireShrinks(times[1..], cutoff);
    }
  }
}
