/** The rotation loop that both transports run over a provider's key pool. The pool is shared: between
    any two steps of one request, others pick keys and report theirs. */
module KeyRotation {
  import opened Prelude
  import opened KeyPools

  /** What another request does to the pool. Transports report with the default cooldown. */
  datatype Use = Pick(at: real) | Report429(key: string, at: real)

  function UsedOnce(p: Pool, use: Use): (q: Pool)
    requires p.keys != []
    ensures q.keys == p.keys && q.defaultCooldown == p.defaultCooldown
  {
    match use
    case Pick(at) => Next(p, at).0
    case Report429(key, at) => Report(p, key, at, None)
  }

  function Used(p: Pool, uses: seq<Use>): (q: Pool)
    requires p.keys != []
    ensures q.keys == p.keys && q.defaultCooldown == p.defaultCooldown
    decreases uses
  {
    if uses == [] then p else Used(UsedOnce(p, uses[0]), uses[1..])
  }

  datatype Answer = Opened | TooManyRequests | Failed

  /** One turn of the loop: what others do before it, when a key is picked, what others do while the
      upstream answers, the answer, and when a 429 is reported. */
  datatype Attempt = Attempt(before: seq<Use>, pickAt: real, during: seq<Use>, answer: Answer, reportAt: real)

  /** The pick after the loop. */
  datatype Fallback = Fallback(before: seq<Use>, pickAt: real)

  /** The stream is open on a key, the attempt's error is raised, or the retrying path takes over. */
  datatype Verdict = OpenedOn(key: string) | RaisedOn(key: string) | RetriesOn(key: string)

  /** The pool and the key after a turn's pick, and the pool after its report. */
  function Picked(p: Pool, a: Attempt): (r: (Pool, string))
    requires p.keys != []
    ensures r.0.keys == p.keys && r.0.defaultCooldown == p.defaultCooldown
  {
    Next(Used(p, a.before), a.pickAt)
  }

  function Reported(p: Pool, a: Attempt): (r: Pool)
    requires p.keys != []
    ensures r.keys == p.keys && r.defaultCooldown == p.defaultCooldown
  {
    var (q, key) := Picked(p, a);
    Report(Used(q, a.during), key, a.reportAt, None)
  }

  /** The keys tried and the end of the loop. */
  function Rotate(p: Pool, attempts: seq<Attempt>, fallback: Fallback): (Pool, seq<string>, Verdict)
    requires p.keys != []
    decreases attempts
  {
    if attempts == [] then
      var (q, key) := Next(Used(p, fallback.before), fallback.pickAt);
      (q, [], RetriesOn(key))
    else
      var (q, key) := Picked(p, attempts[0]);
      match attempts[0].answer
      case Opened => (q, [key], OpenedOn(key))
      case Failed => (q, [key], RaisedOn(key))
      case TooManyRequests =>
        var (r, tried, verdict) := Rotate(Reported(p, attempts[0]), attempts[1..], fallback);
        (r, [key] + tried, verdict)
  }

  /** A single key has nothing to rotate to and goes to the retrying path at once. */
  function Open(p: Pool, attempts: seq<Attempt>, fallback: Fallback): (Pool, seq<string>, Verdict)
    requires p.keys != []
  {
    Rotate(p, if |p.keys| == 1 then [] else attempts, fallback)
  }

  /** Other requests get their turn on the same pool. */
  method OthersUse(pool: KeyPool, uses: seq<Use>)
    requires pool.keys != []
    modifies pool
    ensures pool.View() == Used(old(pool.View()), uses)
  {
    for k := 0 to |uses|
      invariant Used(pool.View(), uses[k..]) == Used(old(pool.View()), uses)
    {
      assert uses[k..][0] == uses[k] && uses[k..][1..] == uses[k + 1..];
      match uses[k] {
        case Pick(at) =>
          var _ := pool.NextLiveKey(at);
        case Report429(key, at) =>
          pool.ReportRateLimit(key, at, None);
      }
    }
    assert uses[|uses|..] == [];
  }

  /** One turn of the loop: a key is picked, and reported after a 429. */
  method TryKey(pool: KeyPool, attempt: Attempt) returns (key: string)
    requires pool.keys != []
    modifies pool
    ensures key == Picked(old(pool.View()), attempt).1
    ensures pool.View() == if attempt.answer == TooManyRequests then Reported(old(pool.View()), attempt) else Picked(old(pool.View()), attempt).0
  {
    OthersUse(pool, attempt.before);
    key := pool.NextLiveKey(attempt.pickAt);
    if attempt.answer == TooManyRequests {
      OthersUse(pool, attempt.during);
      pool.ReportRateLimit(key, attempt.reportAt, None);
    }
  }

  lemma RotateOn(p: Pool, attempts: seq<Attempt>, fallback: Fallback, tried: seq<string>)
    requires p.keys != [] && attempts != [] && attempts[0].answer == TooManyRequests
    ensures var (q, more, verdict) := Rotate(p, attempts, fallback);
            var (r, later, end) := Rotate(Reported(p, attempts[0]), attempts[1..], fallback);
            q == r && verdict == end && tried + more == tried + [Picked(p, attempts[0]).1] + later
  {
  }

  method OpenWithKeyRotation(pool: KeyPool, attempts: seq<Attempt>, fallback: Fallback)
    returns (tried: seq<string>, verdict: Verdict)
    requires pool.keys != [] && |attempts| == |pool.keys|
    modifies pool
    ensures (pool.View(), tried, verdict) == Open(old(pool.View()), attempts, fallback)
  {
    tried := [];
    if |pool.keys| == 1 {
      OthersUse(pool, fallback.before);
      var only := pool.NextLiveKey(fallback.pickAt);
      return [], RetriesOn(only);
    }
    var attemptsRemaining := |pool.keys|;
    ghost var (q, all, end) := Rotate(pool.View(), attempts, fallback);
    assert attempts[0..] == attempts && [] + all == all;
    while attemptsRemaining > 0
      invariant 0 <= attemptsRemaining <= |attempts|
      invariant var r := Rotate(pool.View(), attempts[|attempts| - attemptsRemaining..], fallback);
                r.0 == q && tried + r.1 == all && r.2 == end
    {
      ghost var p, rest := pool.View(), attempts[|attempts| - attemptsRemaining..];
      var attempt := attempts[|attempts| - attemptsRemaining];
      assert rest[0] == attempt && rest[1..] == attempts[|attempts| - attemptsRemaining + 1..];
      attemptsRemaining := attemptsRemaining - 1;
      var key := TryKey(pool, attempt);
      match attempt.answer {
        case Opened =>
          return tried + [key], OpenedOn(key);
        case Failed =>
          return tried + [key], RaisedOn(key);
        case TooManyRequests =>
          RotateOn(p, rest, fallback, tried);
          tried := tried + [key];
      }
    }
    assert attempts[|attempts|..] == [] && tried + [] == tried;
    OthersUse(pool, fallback.before);
    var fallbackKey := pool.NextLiveKey(fallback.pickAt);
    return tried, RetriesOn(fallbackKey);
  }

  /** The first answer that is not a 429. */
  function FirstAnswer(attempts: seq<Attempt>): (k: nat)
    ensures k <= |attempts|
  {
    if attempts == [] || attempts[0].answer != TooManyRequests then 0 else FirstAnswer(attempts[1..]) + 1
  }

  /** The loop goes on until there is an answer that is not a 429: the key that was tried with it has opened,
      or its error is raised. Without one it ends in the retrying path. */
  lemma {:induction false} RotationEnds(p: Pool, attempts: seq<Attempt>, fallback: Fallback)
    requires p.keys != []
    ensures var (q, tried, verdict) := Rotate(p, attempts, fallback);
            var k := FirstAnswer(attempts);
            if k < |attempts| then
              |tried| == k + 1 && verdict == if attempts[k].answer == Opened then OpenedOn(tried[k]) else RaisedOn(tried[k])
            else |tried| == |attempts| && verdict.RetriesOn?
    decreases attempts
  {
    if attempts != [] && attempts[0].answer == TooManyRequests {
      RotationEnds(Reported(p, attempts[0]), attempts[1..], fallback);
      assert FirstAnswer(attempts) == FirstAnswer(attempts[1..]) + 1;
    }
  }

  /** A pool with one key does not rotate. */
  lemma OneKeyRetries(p: Pool, attempts: seq<Attempt>, fallback: Fallback)
    requires |p.keys| == 1
    ensures Open(p, attempts, fallback).1 == [] && Open(p, attempts, fallback).2 == RetriesOn(p.keys[0])
  {
    PickMeaning(Used(p, fallback.before), fallback.pickAt);
  }

  // ---------------------------------------------------------------------------------------------
  // When a key is tried twice
  // ---------------------------------------------------------------------------------------------

  predicate Sooner(p: Pool, i: int, j: int)
    requires 0 <= i < |p.keys| && 0 <= j < |p.keys|
  {
    UntilOf(p, p.keys[i]) < UntilOf(p, p.keys[j]) || (UntilOf(p, p.keys[i]) == UntilOf(p, p.keys[j]) && i < j)
  }

  /** While every key cools, some tried key is free before all untried ones; otherwise the first live
      key from the cursor on is a tried one. */
  ghost predicate Repeats(p: Pool, tried: seq<string>, now: real)
    requires p.keys != []
  {
    if AllCool(p, now) then
      exists i | 0 <= i < |p.keys| ::
        p.keys[i] in tried && forall j | 0 <= j < |p.keys| && p.keys[j] !in tried :: Sooner(p, i, j)
    else
      exists c | p.cursor <= c ::
        p.keys[c % |p.keys|] in tried && FirstLive(p, c, now)
  }

  predicate FirstLive(p: Pool, c: int, now: real)
    requires p.keys != [] && p.cursor <= c
  {
    Live(p, p.keys[c % |p.keys|], now) && forall d | p.cursor <= d < c :: !Live(p, p.keys[d % |p.keys|], now)
  }

  lemma CoolRepeatsIff(p: Pool, tried: seq<string>, s: int, now: real)
    requires p.keys != [] && AllCool(p, now) && 0 <= s < |p.keys|
    requires forall j | 0 <= j < |p.keys| && j != s :: Sooner(p, s, j)
    ensures p.keys[s] in tried <==> Repeats(p, tried, now)
  {
    if p.keys[s] in tried {
      assert forall j | 0 <= j < |p.keys| && p.keys[j] !in tried :: Sooner(p, s, j);
    } else {
      forall i | 0 <= i < |p.keys| && p.keys[i] in tried
        ensures !Sooner(p, i, s) {
        assert Sooner(p, s, i);
      }
    }
  }

  lemma FirstLiveIsOne(p: Pool, c: int, d: int, now: real)
    requires p.keys != [] && p.cursor <= c && p.cursor <= d && FirstLive(p, c, now) && FirstLive(p, d, now)
    ensures c == d
  {
  }

  lemma LiveRepeatsIff(p: Pool, tried: seq<string>, c: int, now: real)
    requires p.keys != [] && !AllCool(p, now) && p.cursor <= c && FirstLive(p, c, now)
    ensures p.keys[c % |p.keys|] in tried <==> Repeats(p, tried, now)
  {
    if Repeats(p, tried, now) {
      var d :| p.cursor <= d && p.keys[d % |p.keys|] in tried && FirstLive(p, d, now);
      FirstLiveIsOne(p, c, d, now);
    }
  }

  lemma PickRepeatsIff(p: Pool, tried: seq<string>, now: real)
    requires p.keys != []
    ensures Next(p, now).1 in tried <==> Repeats(p, tried, now)
  {
    PickMeaning(p, now);
    if AllCool(p, now) {
      var s := Soonest(p, 0);
      ScanMeaning(p, now, |p.keys|);
      CoolRepeatsIff(p, tried, s, now);
    } else {
      LiveRepeatsIff(p, tried, Next(p, now).0.cursor - 1, now);
    }
  }

  /** No pick of the run repeats a key. */
  ghost predicate NeverRepeats(p: Pool, tried: seq<string>, attempts: seq<Attempt>)
    requires p.keys != []
    decreases attempts
  {
    attempts == [] ||
    (var a := attempts[0];
     && !Repeats(Used(p, a.before), tried, a.pickAt)
     && (a.answer == TooManyRequests ==> NeverRepeats(Reported(p, a), tried + [Picked(p, a).1], attempts[1..])))
  }

  lemma DistinctPrefix(a: seq<string>, b: seq<string>)
    requires Distinct(a + b)
    ensures Distinct(a)
  {
    assert forall i | 0 <= i < |a| :: (a + b)[i] == a[i];
  }

  lemma DistinctOneMore(tried: seq<string>, key: string)
    requires Distinct(tried)
    ensures Distinct(tried + [key]) <==> key !in tried
  {
    if key in tried {
      var i :| 0 <= i < |tried| && tried[i] == key;
      assert (tried + [key])[i] == (tried + [key])[|tried|];
    }
  }

  lemma OneBefore(tried: seq<string>, key: string, more: seq<string>)
    ensures tried + [key] + more == tried + ([key] + more)
  {
  }

  /** For every pool, every run and all that others do: no key is tried twice if and only if at no pick
      all keys cool with a tried one free soonest, or the first live key is a tried one. */
  lemma {:induction false} TriedOnceIff(p: Pool, tried: seq<string>, attempts: seq<Attempt>, fallback: Fallback)
    requires p.keys != [] && Distinct(tried)
    ensures Distinct(tried + Rotate(p, attempts, fallback).1) <==> NeverRepeats(p, tried, attempts)
    decreases attempts
  {
    if attempts == [] {
      assert tried + [] == tried;
    } else {
      var key := Picked(p, attempts[0]).1;
      PickRepeatsIff(Used(p, attempts[0].before), tried, attempts[0].pickAt);
      DistinctOneMore(tried, key);
      if attempts[0].answer == TooManyRequests {
        var more := Rotate(Reported(p, attempts[0]), attempts[1..], fallback).1;
        OneBefore(tried, key, more);
        if key in tried {
          if Distinct(tried + [key] + more) {
            DistinctPrefix(tried + [key], more);
          }
        } else {
          TriedOnceIff(Reported(p, attempts[0]), tried + [key], attempts[1..], fallback);
        }
      }
    }
  }

  // ---------------------------------------------------------------------------------------------
  // The same in terms of who reported which key, and in which order
  // ---------------------------------------------------------------------------------------------

  /** The keys reported, in order. */
  function Reports(uses: seq<Use>): seq<string> {
    if uses == [] then []
    else (if uses[0].Report429? then [uses[0].key] else []) + Reports(uses[1..])
  }

  /** The last position of key in the log, -1 if it was never reported. */
  function LastAt(log: seq<string>, key: string): (n: int)
    ensures -1 <= n < |log|
    ensures n >= 0 ==> log[n] == key
    ensures forall m | n < m < |log| :: log[m] != key
  {
    if log == [] then -1
    else if log[|log| - 1] == key then |log| - 1
    else LastAt(log[..|log| - 1], key)
  }

  /** Since the last report of some tried key, all keys not tried have been reported. */
  ghost predicate Overtaken(log: seq<string>, keys: seq<string>, tried: seq<string>) {
    exists k | k in tried :: forall u | u in keys && u !in tried :: LastAt(log, k) < LastAt(log, u)
  }

  function LogAtPick(log: seq<string>, a: Attempt): seq<string> {
    log + Reports(a.before)
  }

  function LogAfter(log: seq<string>, a: Attempt, key: string): seq<string> {
    LogAtPick(log, a) + Reports(a.during) + [key]
  }

  /** At no pick of the run were the tried keys overtaken. */
  ghost predicate NeverOvertaken(log: seq<string>, keys: seq<string>, tried: seq<string>, more: seq<string>, attempts: seq<Attempt>)
    decreases attempts
  {
    more == [] || attempts == [] ||
    (&& !Overtaken(LogAtPick(log, attempts[0]), keys, tried)
     && NeverOvertaken(LogAfter(log, attempts[0], more[0]), keys, tried + [more[0]], more[1..], attempts[1..]))
  }

  /** The log when the loop has given up. */
  function FinalLog(log: seq<string>, more: seq<string>, attempts: seq<Attempt>, fallback: Fallback): seq<string>
    decreases attempts
  {
    if more == [] || attempts == [] then log + Reports(fallback.before)
    else FinalLog(LogAfter(log, attempts[0], more[0]), more[1..], attempts[1..], fallback)
  }

  // The clock: reports come at different moments, one after the other.

  predicate UsesRise(since: real, uses: seq<Use>)
    decreases uses
  {
    uses == [] ||
    match uses[0]
    case Pick(_) => UsesRise(since, uses[1..])
    case Report429(_, at) => since < at && UsesRise(at, uses[1..])
  }

  function LastReport(since: real, uses: seq<Use>): real
    decreases uses
  {
    if uses == [] then since else LastReport(if uses[0].Report429? then uses[0].at else since, uses[1..])
  }

  function PickedBy(since: real, a: Attempt): real {
    LastReport(since, a.before)
  }

  predicate TurnRises(since: real, a: Attempt) {
    && UsesRise(since, a.before) && UsesRise(PickedBy(since, a), a.during)
    && LastReport(PickedBy(since, a), a.during) < a.reportAt
  }

  predicate Rises(since: real, attempts: seq<Attempt>, fallback: Fallback)
    decreases attempts
  {
    if attempts == [] then UsesRise(since, fallback.before)
    else TurnRises(since, attempts[0]) && Rises(attempts[0].reportAt, attempts[1..], fallback)
  }

  lemma {:induction false} UsesAreLater(since: real, uses: seq<Use>)
    requires UsesRise(since, uses)
    ensures since <= LastReport(since, uses)
    decreases uses
  {
    if uses != [] {
      UsesAreLater(if uses[0].Report429? then uses[0].at else since, uses[1..]);
    }
  }

  /** Keys come free in the order in which they were last reported. */
  ghost predicate InLogOrder(p: Pool, log: seq<string>, since: real) {
    && (forall a {:trigger UntilOf(p, a)} :: 0.0 <= UntilOf(p, a) <= since + p.defaultCooldown)
    && (forall a {:trigger LastAt(log, a)} :: LastAt(log, a) == -1 <==> UntilOf(p, a) == 0.0)
    && (forall a, b {:trigger LastAt(log, a), LastAt(log, b)} ::
          LastAt(log, a) < LastAt(log, b) <==> UntilOf(p, a) < UntilOf(p, b))
  }

  lemma LastAtAppend(log: seq<string>, key: string, a: string)
    ensures LastAt(log + [key], a) == if a == key then |log| else LastAt(log, a)
  {
    assert (log + [key])[..|log|] == log;
  }

  lemma ReportIsLogged(p: Pool, log: seq<string>, since: real, key: string, at: real)
    requires InLogOrder(p, log, since) && 0.0 <= since < at && p.defaultCooldown > 0.0
    ensures InLogOrder(Report(p, key, at, None), log + [key], at)
  {
    var r := Report(p, key, at, None);
    forall a
      ensures UntilOf(r, a) == if a == key then at + p.defaultCooldown else UntilOf(p, a)
      ensures LastAt(log + [key], a) == if a == key then |log| else LastAt(log, a) {
      LastAtAppend(log, key, a);
    }
  }

  lemma NextKeepsCooldowns(p: Pool, log: seq<string>, since: real, now: real)
    requires p.keys != [] && InLogOrder(p, log, since)
    ensures InLogOrder(Next(p, now).0, log, since)
  {
    assert forall a :: UntilOf(Next(p, now).0, a) == UntilOf(p, a);
  }

  lemma LogHead(log: seq<string>, uses: seq<Use>)
    requires uses != []
    ensures log + Reports(uses) == if uses[0].Report429? then log + [uses[0].key] + Reports(uses[1..]) else log + Reports(uses[1..])
  {
    var more := Reports(uses[1..]);
    if uses[0].Report429? {
      OneBefore(log, uses[0].key, more);
    } else {
      assert [] + more == more;
    }
  }

  lemma {:induction false} UsesAreLogged(p: Pool, log: seq<string>, since: real, uses: seq<Use>)
    requires p.keys != [] && p.defaultCooldown > 0.0 && InLogOrder(p, log, since) && 0.0 <= since && UsesRise(since, uses)
    ensures 0.0 <= LastReport(since, uses)
    ensures InLogOrder(Used(p, uses), log + Reports(uses), LastReport(since, uses))
    decreases uses
  {
    UsesAreLater(since, uses);
    if uses == [] {
      assert log + Reports(uses) == log;
    } else {
      var q, rest := UsedOnce(p, uses[0]), uses[1..];
      LogHead(log, uses);
      match uses[0]
      case Pick(at) =>
        NextKeepsCooldowns(p, log, since, at);
        UsesAreLogged(q, log, since, rest);
      case Report429(key, at) =>
        ReportIsLogged(p, log, since, key, at);
        UsesAreLogged(q, log + [key], at, rest);
    }
  }

  /** While all tried keys cool, a pick repeats one exactly if they were overtaken. */
  lemma PickOvertaken(p: Pool, log: seq<string>, since: real, tried: seq<string>, now: real)
    requires p.keys != [] && InLogOrder(p, log, since)
    requires forall k | k in tried :: k in p.keys && !Live(p, k, now) && LastAt(log, k) >= 0
    ensures Next(p, now).1 in tried <==> Overtaken(log, p.keys, tried)
  {
    var key := Next(p, now).1;
    PickMeaning(p, now);
    if key in tried {
      forall u | u in p.keys && u !in tried
        ensures LastAt(log, key) < LastAt(log, u) {
        assert UntilOf(p, key) <= UntilOf(p, u);
        assert log[LastAt(log, key)] == key;
      }
    } else {
      forall k | k in tried
        ensures LastAt(log, key) <= LastAt(log, k) {
        assert UntilOf(p, key) <= UntilOf(p, k);
      }
    }
  }

  /** The tried keys cool until the deadline at least, and have been reported. */
  ghost predicate Cooling(p: Pool, log: seq<string>, tried: seq<string>, deadline: real) {
    forall k | k in tried :: k in p.keys && UntilOf(p, k) >= deadline && LastAt(log, k) >= 0
  }

  /** Others can only make a key cool longer. */
  lemma {:induction false} UsesKeepCooling(p: Pool, log: seq<string>, since: real, uses: seq<Use>, k: string)
    requires p.keys != [] && p.defaultCooldown > 0.0 && InLogOrder(p, log, since) && 0.0 <= since && UsesRise(since, uses)
    ensures UntilOf(p, k) <= UntilOf(Used(p, uses), k)
    ensures LastAt(log, k) >= 0 ==> LastAt(log + Reports(uses), k) >= 0
    decreases uses
  {
    UsesAreLogged(p, log, since, uses);
    if uses != [] {
      var q, rest := UsedOnce(p, uses[0]), uses[1..];
      match uses[0]
      case Pick(at) =>
        NextKeepsCooldowns(p, log, since, at);
        UsesKeepCooling(q, log, since, rest, k);
      case Report429(key, at) =>
        ReportIsLogged(p, log, since, key, at);
        assert UntilOf(p, k) <= since + p.defaultCooldown;
        UsesKeepCooling(q, log + [key], at, rest, k);
    }
    assert 0.0 <= UntilOf(p, k);
  }

  lemma CoolingStays(p: Pool, log: seq<string>, since: real, uses: seq<Use>, tried: seq<string>, deadline: real)
    requires p.keys != [] && p.defaultCooldown > 0.0 && InLogOrder(p, log, since) && 0.0 <= since && UsesRise(since, uses)
    requires Cooling(p, log, tried, deadline)
    ensures Cooling(Used(p, uses), log + Reports(uses), tried, deadline)
  {
    forall k | k in tried
      ensures UntilOf(Used(p, uses), k) >= deadline && LastAt(log + Reports(uses), k) >= 0 {
      UsesKeepCooling(p, log, since, uses, k);
    }
  }

  /** A turn up to its pick. */
  lemma PickIsLogged(p: Pool, log: seq<string>, since: real, tried: seq<string>, a: Attempt, deadline: real)
    requires p.keys != [] && p.defaultCooldown > 0.0 && InLogOrder(p, log, since) && 0.0 <= since && UsesRise(since, a.before)
    requires Cooling(p, log, tried, deadline) && a.pickAt < deadline
    ensures var (q, key) := Picked(p, a);
            && key in p.keys && (key in tried <==> Overtaken(LogAtPick(log, a), p.keys, tried))
            && InLogOrder(q, LogAtPick(log, a), PickedBy(since, a)) && Cooling(q, LogAtPick(log, a), tried, deadline)
  {
    var p1, log1, since1 := Used(p, a.before), LogAtPick(log, a), PickedBy(since, a);
    UsesAreLogged(p, log, since, a.before);
    CoolingStays(p, log, since, a.before, tried, deadline);
    PickOvertaken(p1, log1, since1, tried, a.pickAt);
    PickMeaning(p1, a.pickAt);
    NextKeepsCooldowns(p1, log1, since1, a.pickAt);
    assert forall k :: UntilOf(Picked(p, a).0, k) == UntilOf(p1, k);
  }

  /** A turn that ends in a 429: the pool and the log after it. */
  lemma TurnIsLogged(p: Pool, log: seq<string>, since: real, tried: seq<string>, a: Attempt, deadline: real)
    requires p.keys != [] && p.defaultCooldown > 0.0 && InLogOrder(p, log, since) && 0.0 <= since && TurnRises(since, a)
    requires Cooling(p, log, tried, deadline) && a.pickAt < deadline <= a.reportAt + p.defaultCooldown
    ensures since < a.reportAt
    ensures var key := Picked(p, a).1;
            && (key in tried <==> Overtaken(LogAtPick(log, a), p.keys, tried))
            && InLogOrder(Reported(p, a), LogAfter(log, a, key), a.reportAt)
            && Cooling(Reported(p, a), LogAfter(log, a, key), tried + [key], deadline)
  {
    UsesAreLater(since, a.before);
    UsesAreLater(PickedBy(since, a), a.during);
    PickIsLogged(p, log, since, tried, a, deadline);
    var (q, key) := Picked(p, a);
    AnswerIsLogged(q, LogAtPick(log, a), PickedBy(since, a), tried, a, key, deadline);
  }

  lemma AnswerIsLogged(q: Pool, log: seq<string>, since: real, tried: seq<string>, a: Attempt, key: string, deadline: real)
    requires q.keys != [] && q.defaultCooldown > 0.0 && InLogOrder(q, log, since) && 0.0 <= since
    requires UsesRise(since, a.during) && LastReport(since, a.during) < a.reportAt
    requires Cooling(q, log, tried, deadline) && key in q.keys && deadline <= a.reportAt + q.defaultCooldown
    ensures var r, log2 := Report(Used(q, a.during), key, a.reportAt, None), log + Reports(a.during) + [key];
            InLogOrder(r, log2, a.reportAt) && Cooling(r, log2, tried + [key], deadline)
  {
    var q1, log1 := Used(q, a.during), log + Reports(a.during);
    var r := Report(q1, key, a.reportAt, None);
    UsesAreLogged(q, log, since, a.during);
    CoolingStays(q, log, since, a.during, tried, deadline);
    ReportIsLogged(q1, log1, LastReport(since, a.during), key, a.reportAt);
    forall k | k in tried + [key]
      ensures k in r.keys && UntilOf(r, k) >= deadline && LastAt(log1 + [key], k) >= 0 {
      LastAtAppend(log1, key, k);
    }
  }

  /** All picks come before any tried key is free again. */
  ghost predicate WithinCooldown(attempts: seq<Attempt>, deadline: real, cooldown: real) {
    forall i | 0 <= i < |attempts| :: attempts[i].pickAt < deadline <= attempts[i].reportAt + cooldown
  }

  lemma LaterAreWithin(attempts: seq<Attempt>, deadline: real, cooldown: real)
    requires attempts != [] && WithinCooldown(attempts, deadline, cooldown)
    ensures WithinCooldown(attempts[1..], deadline, cooldown)
  {
    assert forall i | 0 <= i < |attempts[1..]| :: attempts[1..][i] == attempts[i + 1];
  }

  lemma {:induction false} TriedOnceFrom(p: Pool, log: seq<string>, since: real, tried: seq<string>,
                                         attempts: seq<Attempt>, fallback: Fallback, deadline: real)
    requires p.keys != [] && p.defaultCooldown > 0.0 && InLogOrder(p, log, since) && 0.0 <= since
    requires Distinct(tried) && Cooling(p, log, tried, deadline)
    requires Rises(since, attempts, fallback) && WithinCooldown(attempts, deadline, p.defaultCooldown)
    ensures var more := Rotate(p, attempts, fallback).1;
            Distinct(tried + more) <==> NeverOvertaken(log, p.keys, tried, more, attempts)
    decreases attempts
  {
    if attempts == [] {
      assert tried + [] == tried;
    } else {
      var a := attempts[0];
      var key := Picked(p, a).1;
      TurnIsLogged(p, log, since, tried, a, deadline);
      DistinctOneMore(tried, key);
      if a.answer == TooManyRequests {
        var more := Rotate(Reported(p, a), attempts[1..], fallback).1;
        OneBefore(tried, key, more);
        assert ([key] + more)[1..] == more;
        if key in tried {
          if Distinct(tried + [key] + more) {
            DistinctPrefix(tried + [key], more);
          }
        } else {
          LaterAreWithin(attempts, deadline, p.defaultCooldown);
          TriedOnceFrom(Reported(p, a), LogAfter(log, a, key), a.reportAt, tried + [key], attempts[1..], fallback, deadline);
        }
      } else {
        assert [key][1..] == [];
      }
    }
  }

  /** The final pick is of a key whose last report lies furthest back, if all were tried. */
  lemma {:induction false} FallbackFrom(p: Pool, log: seq<string>, since: real, tried: seq<string>,
                                        attempts: seq<Attempt>, fallback: Fallback, deadline: real)
    requires p.keys != [] && p.defaultCooldown > 0.0 && InLogOrder(p, log, since) && 0.0 <= since
    requires Cooling(p, log, tried, deadline) && fallback.pickAt < deadline
    requires Rises(since, attempts, fallback) && WithinCooldown(attempts, deadline, p.defaultCooldown)
    ensures var (_, more, verdict) := Rotate(p, attempts, fallback);
            verdict.RetriesOn? && (forall key | key in p.keys :: key in tried + more) ==>
              forall key | key in p.keys ::
                LastAt(FinalLog(log, more, attempts, fallback), verdict.key) <= LastAt(FinalLog(log, more, attempts, fallback), key)
    decreases attempts
  {
    if attempts == [] {
      assert tried + [] == tried;
      UsesAreLogged(p, log, since, fallback.before);
      CoolingStays(p, log, since, fallback.before, tried, deadline);
      PickMeaning(Used(p, fallback.before), fallback.pickAt);
    } else if attempts[0].answer == TooManyRequests {
      var a := attempts[0];
      var key := Picked(p, a).1;
      var more := Rotate(Reported(p, a), attempts[1..], fallback).1;
      TurnIsLogged(p, log, since, tried, a, deadline);
      LaterAreWithin(attempts, deadline, p.defaultCooldown);
      FallbackFrom(Reported(p, a), LogAfter(log, a, key), a.reportAt, tried + [key], attempts[1..], fallback, deadline);
      OneBefore(tried, key, more);
      assert ([key] + more)[1..] == more;
    }
  }

  // ---------------------------------------------------------------------------------------------
  // A request on a shared pool
  // ---------------------------------------------------------------------------------------------

  /** Every pick comes before the first key the request reported can be live again. */
  predicate Brisk(attempts: seq<Attempt>, fallback: Fallback, cooldown: real)
    requires attempts != []
  {
    var deadline := attempts[0].reportAt + cooldown;
    (forall i | 0 <= i < |attempts| :: attempts[i].pickAt < deadline) && fallback.pickAt < deadline
  }

  lemma {:induction false} ReportsAreLater(since: real, attempts: seq<Attempt>, fallback: Fallback, i: nat)
    requires Rises(since, attempts, fallback) && i < |attempts|
    ensures since < attempts[i].reportAt
    decreases i
  {
    UsesAreLater(since, attempts[0].before);
    UsesAreLater(PickedBy(since, attempts[0]), attempts[0].during);
    if i > 0 {
      ReportsAreLater(attempts[0].reportAt, attempts[1..], fallback, i - 1);
    }
  }

  lemma BriskIsWithin(since: real, attempts: seq<Attempt>, fallback: Fallback, cooldown: real)
    requires attempts != [] && Rises(since, attempts, fallback) && Brisk(attempts, fallback, cooldown)
    ensures WithinCooldown(attempts, attempts[0].reportAt + cooldown, cooldown)
  {
    forall i | 0 <= i < |attempts|
      ensures attempts[0].reportAt <= attempts[i].reportAt {
      if i > 0 {
        ReportsAreLater(attempts[0].reportAt, attempts[1..], fallback, i - 1);
      }
    }
  }

  lemma {:induction false} TriesFromPool(p: Pool, attempts: seq<Attempt>, fallback: Fallback)
    requires p.keys != []
    ensures var (_, tried, verdict) := Rotate(p, attempts, fallback);
            && (forall key | key in tried :: key in p.keys)
            && (verdict.RetriesOn? ==> |tried| == |attempts| && verdict.key in p.keys)
    decreases attempts
  {
    if attempts != [] {
      PickMeaning(Used(p, attempts[0].before), attempts[0].pickAt);
      TriesFromPool(Reported(p, attempts[0]), attempts[1..], fallback);
    } else {
      PickMeaning(Used(p, fallback.before), fallback.pickAt);
    }
  }

  /** Distinct keys drawn from a pool's keys: as many as the pool lists means all of them. */
  lemma Exhausts(picked: seq<string>, keys: seq<string>)
    requires Distinct(picked) && (forall key | key in picked :: key in keys)
    ensures |picked| <= |keys|
    ensures |picked| == |keys| ==> Distinct(keys) && (forall key | key in keys :: key in picked)
  {
    var some, all := Elements(picked), Elements(keys);
    ElementsCount(picked);
    ElementsCount(keys);
    assert all == some + (all - some);
    assert |all| == |some| + |all - some|;
    if |picked| == |keys| {
      assert all - some == {};
      assert forall key | key in keys :: key in all;
    }
  }

  /** The pool a request finds: fresh when the provider was set up, then used by earlier requests. */
  function Found(keys: seq<string>, cooldown: real, earlier: seq<Use>): (p: Pool)
    requires keys != []
    ensures p.keys == keys && p.defaultCooldown == cooldown
  {
    Used(Pool(keys, cooldown, map[], 0), earlier)
  }

  /** What a request on a shared pool relies on: clock readings that rise, and a run that is over
      within the cooldown of its first report. */
  predicate Timely(keys: seq<string>, cooldown: real, earlier: seq<Use>, attempts: seq<Attempt>, fallback: Fallback) {
    && |attempts| == |keys| > 1 && cooldown > 0.0
    && UsesRise(0.0, earlier) && Rises(LastReport(0.0, earlier), attempts, fallback)
    && Brisk(attempts, fallback, cooldown)
  }

  lemma FoundInOrder(keys: seq<string>, cooldown: real, earlier: seq<Use>)
    requires keys != [] && cooldown > 0.0 && UsesRise(0.0, earlier)
    ensures 0.0 <= LastReport(0.0, earlier)
    ensures InLogOrder(Found(keys, cooldown, earlier), Reports(earlier), LastReport(0.0, earlier))
  {
    UsesAreLogged(Pool(keys, cooldown, map[], 0), [], 0.0, earlier);
    assert [] + Reports(earlier) == Reports(earlier);
  }

  /** However other requests use the pool before and meanwhile: a request tries no key twice if and
      only if at none of its picks all keys it had not tried were reported after one it had. */
  lemma RotationTriesOnceIff(keys: seq<string>, cooldown: real, earlier: seq<Use>, attempts: seq<Attempt>, fallback: Fallback)
    requires Timely(keys, cooldown, earlier, attempts, fallback)
    ensures var tried := Open(Found(keys, cooldown, earlier), attempts, fallback).1;
            Distinct(tried) <==> NeverOvertaken(Reports(earlier), keys, [], tried, attempts)
  {
    var p, since := Found(keys, cooldown, earlier), LastReport(0.0, earlier);
    FoundInOrder(keys, cooldown, earlier);
    BriskIsWithin(since, attempts, fallback, cooldown);
    TriedOnceFrom(p, Reports(earlier), since, [], attempts, fallback, attempts[0].reportAt + cooldown);
    var tried := Rotate(p, attempts, fallback).1;
    assert [] + tried == tried;
  }

  /** A request that gives up without having tried a key twice has tried all keys, and goes on with
      the one whose last report, by anybody, lies furthest back. */
  lemma GivingUpHasTriedAll(keys: seq<string>, cooldown: real, earlier: seq<Use>, attempts: seq<Attempt>, fallback: Fallback)
    requires Timely(keys, cooldown, earlier, attempts, fallback)
    requires Open(Found(keys, cooldown, earlier), attempts, fallback).2.RetriesOn?
    requires Distinct(Open(Found(keys, cooldown, earlier), attempts, fallback).1)
    ensures var (_, tried, verdict) := Open(Found(keys, cooldown, earlier), attempts, fallback);
            && Distinct(keys) && multiset(tried) == multiset(keys)
            && var log := FinalLog(Reports(earlier), tried, attempts, fallback);
               forall key | key in keys :: LastAt(log, verdict.key) <= LastAt(log, key)
  {
    var p, since := Found(keys, cooldown, earlier), LastReport(0.0, earlier);
    var tried := Rotate(p, attempts, fallback).1;
    FoundInOrder(keys, cooldown, earlier);
    BriskIsWithin(since, attempts, fallback, cooldown);
    TriesFromPool(p, attempts, fallback);
    Exhausts(tried, keys);
    SameMultiset(tried, keys);
    assert [] + tried == tried;
    FallbackFrom(p, Reports(earlier), since, [], attempts, fallback, attempts[0].reportAt + cooldown);
  }

  // ---------------------------------------------------------------------------------------------
  // Requests that leave each other's keys alone
  // ---------------------------------------------------------------------------------------------

  /** While the request runs, others report only keys that it has tried itself. */
  predicate Spares(tried: seq<string>, more: seq<string>, attempts: seq<Attempt>)
    decreases attempts
  {
    more == [] || attempts == [] ||
    (&& (forall key | key in Reports(attempts[0].before) :: key in tried)
     && (forall key | key in Reports(attempts[0].during) :: key in tried + [more[0]])
     && Spares(tried + [more[0]], more[1..], attempts[1..]))
  }

  lemma {:induction false} LastAtGrows(log: seq<string>, more: seq<string>, a: string)
    ensures LastAt(log, a) <= LastAt(log + more, a)
    ensures a !in more ==> LastAt(log + more, a) == LastAt(log, a)
  {
    if more == [] {
      assert log + more == log;
    } else {
      var front := more[..|more| - 1];
      LastAtGrows(log, front, a);
      LastAtAppend(log + front, more[|more| - 1], a);
      assert log + front + [more[|more| - 1]] == log + more;
    }
  }

  /** Tried keys have been reported since position n of the log, the others have not. */
  ghost predicate TriedSince(log: seq<string>, tried: seq<string>, n: nat) {
    forall a {:trigger LastAt(log, a)} :: LastAt(log, a) >= n <==> a in tried
  }

  lemma SparedTurn(log: seq<string>, tried: seq<string>, a: Attempt, key: string, n: nat)
    requires TriedSince(log, tried, n) && n <= |log|
    requires forall k | k in Reports(a.before) :: k in tried
    requires forall k | k in Reports(a.during) :: k in tried + [key]
    ensures TriedSince(LogAtPick(log, a), tried, n) && TriedSince(LogAfter(log, a, key), tried + [key], n)
  {
    var log1 := LogAtPick(log, a);
    var log2 := log1 + Reports(a.during);
    forall x
      ensures LastAt(log1, x) >= n <==> x in tried {
      LastAtGrows(log, Reports(a.before), x);
    }
    forall x
      ensures LastAt(LogAfter(log, a, key), x) >= n <==> x in tried + [key] {
      LastAtGrows(log1, Reports(a.during), x);
      LastAtAppend(log2, key, x);
    }
  }

  lemma {:induction false} SparedIsNotOvertaken(log: seq<string>, keys: seq<string>, tried: seq<string>, more: seq<string>,
                                                attempts: seq<Attempt>, n: nat)
    requires Distinct(keys) && |tried| + |more| <= |keys| && n <= |log|
    requires TriedSince(log, tried, n) && Spares(tried, more, attempts)
    ensures NeverOvertaken(log, keys, tried, more, attempts)
    decreases attempts
  {
    if more != [] && attempts != [] {
      SparedTurn(log, tried, attempts[0], more[0], n);
      if forall u | u in keys :: u in tried {
        Exhausts(keys, tried);
      }
      var u :| u in keys && u !in tried;
      assert LastAt(LogAtPick(log, attempts[0]), u) < n;
      SparedIsNotOvertaken(LogAfter(log, attempts[0], more[0]), keys, tried + [more[0]], more[1..], attempts[1..], n);
    }
  }

  /** The promise of the documentation: with distinct keys, and others reporting only what the request
      has tried itself, each key is tried at most once, whatever the pool went through before. */
  lemma RotationCoversThePool(keys: seq<string>, cooldown: real, earlier: seq<Use>, attempts: seq<Attempt>, fallback: Fallback)
    requires Timely(keys, cooldown, earlier, attempts, fallback) && Distinct(keys)
    requires Spares([], Open(Found(keys, cooldown, earlier), attempts, fallback).1, attempts)
    ensures var (_, tried, verdict) := Open(Found(keys, cooldown, earlier), attempts, fallback);
            Distinct(tried) && (verdict.RetriesOn? ==> multiset(tried) == multiset(keys))
  {
    var p, log := Found(keys, cooldown, earlier), Reports(earlier);
    var (_, tried, verdict) := Rotate(p, attempts, fallback);
    TriesAtMost(p, attempts, fallback);
    RotationTriesOnceIff(keys, cooldown, earlier, attempts, fallback);
    SparedIsNotOvertaken(log, keys, [], tried, attempts, |log|);
    if verdict.RetriesOn? {
      GivingUpHasTriedAll(keys, cooldown, earlier, attempts, fallback);
    }
  }

  lemma {:induction false} TriesAtMost(p: Pool, attempts: seq<Attempt>, fallback: Fallback)
    requires p.keys != []
    ensures |Rotate(p, attempts, fallback).1| <= |attempts|
    decreases attempts
  {
    if attempts != [] {
      TriesAtMost(Reported(p, attempts[0]), attempts[1..], fallback);
    }
  }

  // ---------------------------------------------------------------------------------------------
  // Where the promise fails
  // ---------------------------------------------------------------------------------------------

  function Alone(pickAt: real, answer: Answer, reportAt: real): Attempt {
    Attempt([], pickAt, [], answer, reportAt)
  }

  lemma TurnAlone(p: Pool, pickAt: real, reportAt: real, rest: seq<Attempt>, fallback: Fallback)
    requires p.keys != []
    ensures var (q, key) := Next(p, pickAt);
            Rotate(p, [Alone(pickAt, TooManyRequests, reportAt)] + rest, fallback).1
            == [key] + Rotate(Report(q, key, reportAt, None), rest, fallback).1
  {
    assert ([Alone(pickAt, TooManyRequests, reportAt)] + rest)[1..] == rest;
  }

  lemma SlowPicks(p0: Pool, p1: Pool, p2: Pool)
    requires p0 == Pool(["a", "b", "c"], 60.0, map["b" := 60.0], 0)
    requires p1 == Pool(["a", "b", "c"], 60.0, map["b" := 60.0, "a" := 62.0], 1)
    requires p2 == Pool(["a", "b", "c"], 60.0, map["b" := 60.0, "a" := 62.0, "c" := 64.0], 3)
    ensures Next(p0, 1.0) == (p0.(cursor := 1), "a")
    ensures Next(p1, 3.0) == (p1.(cursor := 3), "c")
    ensures Next(p2, 70.0).1 == "a"
  {
    assert Scan(p1, 3.0, 3) == Scan(p1.(cursor := 2), 3.0, 2);
  }

  /** A run that outlasts the cooldown can come back to a key and leave another out: b is passed over
      while it cools, and once everything is live again the cursor has wrapped round to a. */
  lemma SlowRunRepeatsAKey()
    ensures var attempts := [Alone(1.0, TooManyRequests, 2.0), Alone(3.0, TooManyRequests, 4.0), Alone(70.0, Opened, 70.0)];
            Rotate(Found(["a", "b", "c"], 60.0, [Report429("b", 0.0)]), attempts, Fallback([], 71.0)).1 == ["a", "c", "a"]
  {
    var keys, last := ["a", "b", "c"], Fallback([], 71.0);
    var third := [Alone(70.0, Opened, 70.0)];
    var second := [Alone(3.0, TooManyRequests, 4.0)] + third;
    var p0 := Pool(keys, 60.0, map["b" := 60.0], 0);
    var p1 := Pool(keys, 60.0, map["b" := 60.0, "a" := 62.0], 1);
    var p2 := Pool(keys, 60.0, map["b" := 60.0, "a" := 62.0, "c" := 64.0], 3);
    assert [Report429("b", 0.0)][1..] == [];
    assert Found(keys, 60.0, [Report429("b", 0.0)]) == Used(p0, []);
    SlowPicks(p0, p1, p2);
    assert Rotate(p2, third, last).1 == ["a"];
    TurnAlone(p1, 3.0, 4.0, third, last);
    TurnAlone(p0, 1.0, 2.0, second, last);
    assert Rotate(p0, [Alone(1.0, TooManyRequests, 2.0)] + second, last).1 == ["a"] + (["c"] + ["a"]);
    assert [Alone(1.0, TooManyRequests, 2.0)] + second
        == [Alone(1.0, TooManyRequests, 2.0), Alone(3.0, TooManyRequests, 4.0), Alone(70.0, Opened, 70.0)];
  }

  lemma SharedPicks(p0: Pool, p1: Pool, p2: Pool)
    requires p0 == Pool(["a", "b"], 60.0, map[], 0)
    requires p1 == Pool(["a", "b"], 60.0, map[], 1)
    requires p2 == Pool(["a", "b"], 60.0, map["a" := 62.0, "b" := 63.0], 2)
    ensures Next(p0, 1.0) == (p1, "a")
    ensures Used(p1, [Pick(1.5)]) == p1.(cursor := 2)
    ensures Next(p2, 4.0).1 == "a"
  {
    assert [Pick(1.5)][1..] == [];
    assert Scan(p2, 4.0, 2) == Scan(p2.(cursor := 3), 4.0, 1);
  }

  /** Two requests on two keys, three seconds long: the other one takes b and reports it after a, and
      this one gets a again. */
  lemma SharedRunRepeatsAKey()
    ensures var attempts := [Attempt([], 1.0, [Pick(1.5)], TooManyRequests, 2.0), Attempt([Report429("b", 3.0)], 4.0, [], Opened, 4.0)];
            && Timely(["a", "b"], 60.0, [], attempts, Fallback([], 5.0))
            && Rotate(Found(["a", "b"], 60.0, []), attempts, Fallback([], 5.0)).1 == ["a", "a"]
  {
    var keys, last := ["a", "b"], Fallback([], 5.0);
    var first, second := Attempt([], 1.0, [Pick(1.5)], TooManyRequests, 2.0), Attempt([Report429("b", 3.0)], 4.0, [], Opened, 4.0);
    var p0, p1 := Pool(keys, 60.0, map[], 0), Pool(keys, 60.0, map[], 1);
    var p2 := Pool(keys, 60.0, map["a" := 62.0, "b" := 63.0], 2);
    SharedPicks(p0, p1, p2);
    assert [first, second][1..] == [second] && [second][1..] == [];
    assert [Pick(1.5)][1..] == [] && [Report429("b", 3.0)][1..] == [];
    assert Reported(p0, first) == Pool(keys, 60.0, map["a" := 62.0], 2);
    assert Used(Reported(p0, first), second.before) == p2;
    assert Rotate(Reported(p0, first), [second], last).1 == ["a"];
    assert Rotate(p0, [first, second], last).1 == ["a"] + ["a"];
  }
}
