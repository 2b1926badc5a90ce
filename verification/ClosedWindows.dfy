/** The limiter's promise read for closed intervals: when a turn breaks it, and by how much. */
module ClosedWindows {
  import opened Prelude
  import opened SlidingWindows

  lemma {:induction false} CountInAppend(s: seq<real>, t: seq<real>, a: real, b: real, closed: bool)
    ensures CountIn(s + t, a, b, closed) == CountIn(s, a, b, closed) + CountIn(t, a, b, closed)
  {
    if t == [] {
      assert s + t == s;
    } else {
      assert (s + t)[..|s + t| - 1] == s + t[..|t| - 1];
      CountInAppend(s, t[..|t| - 1], a, b, closed);
    }
  }

  lemma {:induction false} CountsAll(s: seq<real>, a: real, b: real, closed: bool)
    ensures CountIn(s, a, b, closed) <= |s|
    ensures (forall i | 0 <= i < |s| :: Within(s[i], a, b, closed)) ==> CountIn(s, a, b, closed) == |s|
  {
    if s != [] {
      CountsAll(s[..|s| - 1], a, b, closed);
    }
  }

  lemma CountOne(x: real, a: real, b: real, closed: bool)
    ensures CountIn([x], a, b, closed) == if Within(x, a, b, closed) then 1 else 0
  {
    assert [x][..0] == [];
  }

  /** The deque against the closed window that ends now. */
  lemma DequeCount(times: seq<real>, a: real, now: real)
    requires Sorted(times) && AllUpTo(times, now) && times != []
    ensures times[0] >= a ==> CountIn(times, a, now, true) == |times|
    ensures times[0] < a ==> CountIn(times, a, now, true) < |times|
  {
    CountsAll(times, a, now, true);
    if times[0] < a {
      CountInAppend([times[0]], times[1..], a, now, true);
      CountOne(times[0], a, now, true);
      CountsAll(times[1..], a, now, true);
      assert times == [times[0]] + times[1..];
    }
  }

  lemma GrantedIff(l: Limiter, now: real)
    requires l.limit > 0 && |l.times| <= l.limit
    ensures Turn(l, now).1.None? <==> |l.times| < l.limit || l.times[0] <= now - l.window
  {
    if l.times != [] && l.times[0] <= now - l.window {
      ExpireShrinks(l.times[1..], now - l.window);
    }
    ExpireShrinks(l.times, now - l.window);
  }

  /** With the grants in order, the last n of them lie in the window that ends now if and only if the
      n-th last one does. */
  lemma {:induction false} CountsLast(granted: seq<real>, a: real, now: real, n: nat)
    requires Sorted(granted) && AllUpTo(granted, now) && 0 < n <= |granted|
    ensures CountIn(granted, a, now, true) >= n <==> granted[|granted| - n] >= a
    decreases |granted|
  {
    var front := granted[..|granted| - 1];
    if granted[|granted| - 1] < a {
      NoneIn(granted, a, now, true);
    } else if n > 1 {
      CountsLast(front, a, now, n - 1);
    }
  }

  lemma GrantCounts(granted: seq<real>, a: real, now: real, limit: nat)
    requires Sorted(granted) && AllUpTo(granted, now) && a <= now && 0 < limit
    ensures CountIn(granted + [now], a, now, true) > limit <==> |granted| >= limit && granted[|granted| - limit] >= a
  {
    CountInAppend(granted, [now], a, now, true);
    CountOne(now, a, now, true);
    CountsAll(granted, a, now, true);
    if |granted| >= limit {
      CountsLast(granted, a, now, limit);
    }
  }

  /** For every turn of a run: it leaves more than limit grants in the closed window that ends with it if
      and only if there were more already, or it is granted and the limit-th last grant before it is
      exactly one window old. */
  lemma TurnOverfillsIff(l: Limiter, expired: seq<real>, before: real, now: real)
    requires Remembers(l, expired, before) && Sorted(expired + l.times) && before <= now
    ensures var granted, taken, a := expired + l.times, Turn(l, now).1.None?, now - l.window;
            CountIn(granted + if taken then [now] else [], a, now, true) > l.limit <==>
              CountIn(granted, a, now, true) > l.limit
              || (taken && |granted| >= l.limit && granted[|granted| - l.limit] == a)
  {
    var granted, a := expired + l.times, now - l.window;
    var _ := TurnRemembers(l, expired, before, now);
    if Turn(l, now).1.None? {
      GrantCounts(granted, a, now, l.limit);
      if |granted| >= l.limit {
        LastOfMany(granted, a, l.limit);
      }
    } else {
      assert granted + [] == granted;
    }
  }

  /** At a new clock reading the deque shows it: it is full, and its oldest entry is exactly one window
      old. */
  lemma DequeShowsOverfilling(l: Limiter, expired: seq<real>, before: real, now: real)
    requires Remembers(l, expired, before) && before < now
    ensures var granted := expired + l.times + if Turn(l, now).1.None? then [now] else [];
            CountIn(granted, now - l.window, now, true) > l.limit <==> |l.times| == l.limit && l.times[0] == now - l.window
  {
    var a, more := now - l.window, if Turn(l, now).1.None? then [now] else [];
    GrantedIff(l, now);
    CountInAppend(expired + l.times, more, a, now, true);
    CountInAppend(expired, l.times, a, now, true);
    NoneIn(expired, a, now, true);
    CountsAll(more, a, now, true);
    CountsAll(l.times, a, now, true);
    if l.times != [] {
      DequeCount(l.times, a, now);
    }
  }

  lemma {:induction false} InTwoHalves(grants: seq<real>, a: real, b: real, c: real)
    requires a < b < c
    ensures CountIn(grants, a, b, true) <= CountIn(grants, a, b, false) + CountIn(grants, b, c, false)
  {
    if grants != [] {
      InTwoHalves(grants[..|grants| - 1], a, b, c);
    }
  }

  /** Over the whole history of grants, a closed window never holds more than twice the limit. */
  lemma ClosedWindowHoldsAtMostTwice(limit: nat, window: real, nows: seq<real>, a: real)
    requires limit > 0 && window > 0.0 && Sorted(nows)
    ensures CountIn(Grants(Limiter(limit, window, []), nows), a, a + window, true) <= 2 * limit
  {
    AtMostLimitPerWindow(limit, window, nows, a);
    AtMostLimitPerWindow(limit, window, nows, a + window);
    InTwoHalves(Grants(Limiter(limit, window, []), nows), a, a + window, a + window + window);
  }

  // ---------------------------------------------------------------------------------------------
  // It can hold that many
  // ---------------------------------------------------------------------------------------------

  function Same(now: real, n: nat): seq<real> {
    if n == 0 then [] else [now] + Same(now, n - 1)
  }

  lemma {:induction false} SameIs(now: real, n: nat)
    ensures |Same(now, n)| == n && forall i | 0 <= i < n :: Same(now, n)[i] == now
  {
    if n > 0 {
      SameIs(now, n - 1);
    }
  }

  lemma NothingExpires(times: seq<real>, cutoff: real)
    requires AllAfter(times, cutoff)
    ensures Expire(times, cutoff) == times
  {
  }

  /** Turns at one reading are granted while there is room. */
  lemma {:induction false} BurstIsGranted(l: Limiter, now: real, n: nat, rest: seq<real>)
    requires l.limit > 0 && l.window > 0.0 && |l.times| + n <= l.limit && AllAfter(l.times, now - l.window)
    ensures Grants(l, Same(now, n) + rest) == Same(now, n) + Grants(l.(times := l.times + Same(now, n)), rest)
    decreases n
  {
    if n == 0 {
      assert [] + rest == rest && l.times + [] == l.times;
      assert [] + Grants(l, rest) == Grants(l, rest);
    } else {
      var next := l.(times := l.times + [now]);
      var nows := Same(now, n) + rest;
      NothingExpires(l.times, now - l.window);
      assert Turn(l, now) == (next, None);
      assert nows[0] == now && nows[1..] == Same(now, n - 1) + rest;
      BurstIsGranted(next, now, n - 1, rest);
      Chain(l.times, now, Same(now, n - 1));
      Joined(now, Same(now, n - 1), Grants(l.(times := l.times + Same(now, n)), rest));
    }
  }

  lemma Chain(a: seq<real>, x: real, b: seq<real>)
    ensures a + [x] + b == a + ([x] + b)
  {
  }

  lemma Joined(x: real, a: seq<real>, b: seq<real>)
    ensures [x] + (a + b) == [x] + a + b
  {
  }

  lemma {:induction false} AllExpire(times: seq<real>, cutoff: real)
    requires AllUpTo(times, cutoff)
    ensures Expire(times, cutoff) == []
    decreases times
  {
    if times != [] {
      AllExpire(times[1..], cutoff);
    }
  }

  /** The second burst starts with an empty deque. */
  lemma SecondBurst(l: Limiter, now: real, n: nat)
    requires 0 < n <= l.limit && l.window > 0.0 && AllUpTo(l.times, now - l.window)
    ensures Grants(l, Same(now, n)) == Same(now, n)
  {
    var empty := l.(times := []);
    AllExpire(l.times, now - l.window);
    assert Turn(l, now) == Turn(empty, now);
    assert Grants(l, Same(now, n)) == Grants(empty, Same(now, n));
    BurstIsGranted(empty, now, n, []);
    assert Same(now, n) + [] == Same(now, n);
  }

  /** For every limit and window: two bursts of limit turns, one window apart, are all granted, and the
      closed window from the one to the other holds twice the limit. The documented promise about any
      interval of that length therefore holds for half-open ones only. */
  lemma ClosedWindowCanHoldTwice(limit: nat, window: real)
    requires limit > 0 && window > 0.0
    ensures var nows := Same(0.0, limit) + Same(window, limit);
            && Grants(Limiter(limit, window, []), nows) == nows
            && CountIn(nows, 0.0, window, true) == 2 * limit
  {
    var l := Limiter(limit, window, []);
    var full := Limiter(limit, window, Same(0.0, limit));
    var nows := Same(0.0, limit) + Same(window, limit);
    SameIs(0.0, limit);
    SameIs(window, limit);
    BurstIsGranted(l, 0.0, limit, Same(window, limit));
    assert [] + Same(0.0, limit) == Same(0.0, limit);
    SecondBurst(full, window, limit);
    BothBurstsCount(limit, window);
  }

  lemma BothBurstsCount(limit: nat, window: real)
    requires window > 0.0
    ensures CountIn(Same(0.0, limit) + Same(window, limit), 0.0, window, true) == 2 * limit
  {
    SameIs(0.0, limit);
    SameIs(window, limit);
    CountInAppend(Same(0.0, limit), Same(window, limit), 0.0, window, true);
    CountsAll(Same(0.0, limit), 0.0, window, true);
    CountsAll(Same(window, limit), 0.0, window, true);
  }
}
