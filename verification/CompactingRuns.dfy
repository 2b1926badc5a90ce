/** Runs of the messaging queue: nobody who waits is forgotten, and everybody gets a result at least as
    new as the call they made. */
module CompactingRuns {
  import opened Prelude
  import opened CompactingQueues

  datatype World = World(queue: Queue, inFlight: Option<Entry>, settled: map<nat, Settlement>)

  /** All calls made so far, and where each of them is. */
  datatype History = History(made: seq<Call>, outstanding: seq<Call>, running: seq<Call>, finished: seq<Call>)

  datatype Step =
    | EnqueueStep(call: Call, front: bool)
    | TakeStep
    | SettleStep(failed: bool)
    | GiveUpStep(future: nat)

  const IDLE := World(EMPTY, None, map[])
  const NO_CALLS := History([], [], [], [])

  predicate Unused(h: History, f: nat) {
    forall c | c in h.made :: f !in c.futures
  }

  /** Calls are numbered as they are made and bring futures of their own; the single worker takes one
      key at a time. */
  predicate Enabled(w: World, h: History, s: Step) {
    match s
    case EnqueueStep(c, _) => c.func == |h.made| && forall f | f in c.futures :: Unused(h, f)
    case TakeStep => w.inFlight.None? && w.queue.order != []
    case SettleStep(_) => w.inFlight.Some?
    case GiveUpStep(f) => true
  }

  function TakeFrom(q: Queue): (Queue, Option<Entry>) {
    if q.order != [] && q.order[0] in q.table then
      var (rest, entry) := Take(q);
      (rest, Some(entry))
    else (q, None)
  }

  function Apply(w: World, s: Step): World {
    match s
    case EnqueueStep(c, front) => w.(queue := Enqueue(w.queue, c, front))
    case TakeStep =>
      var (rest, entry) := TakeFrom(w.queue);
      w.(queue := rest, inFlight := entry)
    case SettleStep(failed) =>
      if w.inFlight.None? then w
      else w.(inFlight := None, settled := SettleAll(w.settled, w.inFlight.value.futures, By(w.inFlight.value.func, failed)))
    case GiveUpStep(f) => w.(settled := SettleAll(w.settled, [f], GivenUp))
  }

  function Record(h: History, s: Step): History {
    match s
    case EnqueueStep(c, front) => h.(made := h.made + [c], outstanding := Queued(h.outstanding, c, front))
    case TakeStep =>
      if h.outstanding == [] then h
      else h.(outstanding := NotOfKey(h.outstanding, h.outstanding[0].key), running := OfKey(h.outstanding, h.outstanding[0].key))
    case SettleStep(_) => h.(running := [], finished := h.finished + h.running)
    case GiveUpStep(_) => h
  }

  // ---------------------------------------------------------------------------------------------
  // The invariant
  // ---------------------------------------------------------------------------------------------

  /** Calls for one key stand in the order they were made. */
  predicate InStampOrder(calls: seq<Call>) {
    forall i, j | 0 <= i < j < |calls| && calls[i].key == calls[j].key :: calls[i].func < calls[j].func
  }

  ghost predicate Mirrored(w: World, h: History) {
    && StandsFor(w.queue, h.outstanding)
    && (if h.running == [] then w.inFlight == None else w.inFlight == Some(Joined(h.running)))
    && InStampOrder(h.outstanding) && InStampOrder(h.running)
    && (forall c, d | c in h.running && d in h.running :: c.key == d.key)
  }

  /** Every call made is in one place, and no future belongs to two calls. */
  predicate Accounted(h: History) {
    && multiset(h.made) == multiset(h.outstanding) + multiset(h.running) + multiset(h.finished)
    && (forall i | 0 <= i < |h.made| :: h.made[i].func == i)
    && (forall i, j | 0 <= i < j < |h.made| :: forall f | f in h.made[i].futures :: f !in h.made[j].futures)
  }

  /** The future of call c ended with a function for the same key that was enqueued no earlier, or its
      waiter gave up. */
  ghost predicate Served(made: seq<Call>, c: Call, how: Settlement) {
    how.GivenUp? || exists d | d in made :: d.key == c.key && d.func == how.func && c.func <= d.func
  }

  ghost predicate AllServed(settled: map<nat, Settlement>, h: History) {
    && (forall c, f | c in h.finished && f in c.futures :: f in settled && Served(h.made, c, settled[f]))
    && (forall f | f in settled && settled[f].By? :: f in FuturesOf(h.finished))
  }

  ghost predicate Inv(w: World, h: History) {
    Mirrored(w, h) && Accounted(h) && AllServed(w.settled, h)
  }

  // ---------------------------------------------------------------------------------------------
  // Parts of lists
  // ---------------------------------------------------------------------------------------------

  lemma {:induction false} OfKeyHas(calls: seq<Call>, key: string)
    ensures forall c :: c in OfKey(calls, key) <==> c in calls && c.key == key
    ensures forall c :: c in NotOfKey(calls, key) <==> c in calls && c.key != key
    ensures multiset(calls) == multiset(OfKey(calls, key)) + multiset(NotOfKey(calls, key))
  {
    if calls != [] {
      var front, last := calls[..|calls| - 1], calls[|calls| - 1];
      OfKeyHas(front, key);
      assert calls == front + [last];
      SplitSnoc(front, OfKey(front, key), NotOfKey(front, key), last);
      OneMoreOfKey(front, last, key);
    }
  }

  lemma SplitSnoc(front: seq<Call>, some: seq<Call>, others: seq<Call>, last: Call)
    requires multiset(front) == multiset(some) + multiset(others)
    ensures multiset(front + [last]) == multiset(some + [last]) + multiset(others)
    ensures multiset(front + [last]) == multiset(some) + multiset(others + [last])
  {
  }

  lemma SnocInStampOrder(calls: seq<Call>, c: Call)
    requires InStampOrder(calls) && forall d | d in calls :: d.key == c.key ==> d.func < c.func
    ensures InStampOrder(calls + [c])
  {
    forall i | 0 <= i < |calls|
      ensures calls[i] in calls {
    }
  }

  lemma FrontInStampOrder(calls: seq<Call>)
    requires InStampOrder(calls) && calls != []
    ensures var front, last := calls[..|calls| - 1], calls[|calls| - 1];
            InStampOrder(front) && forall d | d in front :: d.key == last.key ==> d.func < last.func
  {
    var front, last := calls[..|calls| - 1], calls[|calls| - 1];
    assert forall i | 0 <= i < |front| :: front[i] == calls[i];
    forall d | d in front
      ensures d.key == last.key ==> d.func < last.func {
      var i :| 0 <= i < |front| && front[i] == d;
      assert calls[i] == d;
    }
  }

  lemma {:induction false} PartsInStampOrder(calls: seq<Call>, key: string)
    requires InStampOrder(calls)
    ensures InStampOrder(OfKey(calls, key)) && InStampOrder(NotOfKey(calls, key))
  {
    if calls != [] {
      var front, last := calls[..|calls| - 1], calls[|calls| - 1];
      FrontInStampOrder(calls);
      PartsInStampOrder(front, key);
      OfKeyHas(front, key);
      if last.key == key {
        SnocInStampOrder(OfKey(front, key), last);
        assert NotOfKey(front, key) + [] == NotOfKey(front, key);
      } else {
        SnocInStampOrder(NotOfKey(front, key), last);
        assert OfKey(front, key) + [] == OfKey(front, key);
      }
    }
  }

  lemma JoinInStampOrder(calls: seq<Call>, c: Call, front: bool)
    requires InStampOrder(calls) && forall d | d in calls :: d.func < c.func
    ensures InStampOrder(Queued(calls, c, front))
  {
    if front && c.key !in Keys(calls) {
      KeysMeaning(calls);
      OfKeyHas(calls, c.key);
      forall i | 0 <= i < |calls|
        ensures calls[i].key != c.key {
        assert calls[i] in calls;
        assert calls[i] !in OfKey(calls, c.key);
      }
    } else {
      SnocInStampOrder(calls, c);
    }
  }

  lemma {:induction false} FuturesHas(calls: seq<Call>)
    ensures forall f :: f in FuturesOf(calls) <==> exists c | c in calls :: f in c.futures
  {
    if calls != [] {
      var front, last := calls[..|calls| - 1], calls[|calls| - 1];
      FuturesHas(front);
      assert calls == front + [last];
      forall f | f in FuturesOf(calls)
        ensures exists c | c in calls :: f in c.futures {
        if f in last.futures {
          assert last in calls;
        } else {
          assert f in FuturesOf(front);
          var c :| c in front && f in c.futures;
          assert c in calls;
        }
      }
      forall c, f | c in calls && f in c.futures
        ensures f in FuturesOf(calls) {
        assert c in front || c == last;
      }
    }
  }

  lemma {:induction false} SettleAllMeaning(settled: map<nat, Settlement>, futures: seq<nat>, how: Settlement)
    ensures var after := SettleAll(settled, futures, how);
            && (forall f :: f in after <==> f in settled || f in futures)
            && (forall f | f in after :: after[f] == if f in settled then settled[f] else how)
  {
    if futures != [] {
      SettleAllMeaning(settled, futures[..|futures| - 1], how);
      assert futures == futures[..|futures| - 1] + [futures[|futures| - 1]];
    }
  }

  // ---------------------------------------------------------------------------------------------
  // Steps
  // ---------------------------------------------------------------------------------------------

  lemma WhereCallsAre(h: History, c: Call)
    requires Accounted(h)
    ensures c in h.made <==> c in h.outstanding || c in h.running || c in h.finished
    ensures c in h.made ==> c.func < |h.made|
  {
    assert c in h.made <==> c in multiset(h.made);
    assert c in h.outstanding <==> c in multiset(h.outstanding);
    assert c in h.running <==> c in multiset(h.running);
    assert c in h.finished <==> c in multiset(h.finished);
    if c in h.made {
      var i :| 0 <= i < |h.made| && h.made[i] == c;
    }
  }

  lemma JoinCounts(calls: seq<Call>, c: Call, front: bool)
    ensures multiset(Queued(calls, c, front)) == multiset(calls) + multiset{c}
  {
  }

  lemma EnqueueAccounts(h: History, c: Call, front: bool)
    requires Accounted(h) && c.func == |h.made| && forall f | f in c.futures :: Unused(h, f)
    ensures Accounted(Record(h, EnqueueStep(c, front)))
  {
    JoinCounts(h.outstanding, c, front);
    var made := h.made + [c];
    forall i, j | 0 <= i < j < |made|
      ensures forall f | f in made[i].futures :: f !in made[j].futures {
      if j == |h.made| {
        assert made[i] in h.made;
      }
    }
  }

  lemma EnqueueMirrors(w: World, h: History, c: Call, front: bool)
    requires Mirrored(w, h) && Accounted(h) && c.func == |h.made|
    ensures Mirrored(Apply(w, EnqueueStep(c, front)), Record(h, EnqueueStep(c, front)))
  {
    EnqueueIsQueued(w.queue, h.outstanding, c, front);
    forall d | d in h.outstanding
      ensures d.func < c.func {
      WhereCallsAre(h, d);
    }
    JoinInStampOrder(h.outstanding, c, front);
  }

  lemma StillServed(settled: map<nat, Settlement>, h: History, g: History)
    requires AllServed(settled, h) && g.finished == h.finished && forall d | d in h.made :: d in g.made
    ensures AllServed(settled, g)
  {
    forall c, f | c in g.finished && f in c.futures
      ensures f in settled && Served(g.made, c, settled[f]) {
      assert f in settled && Served(h.made, c, settled[f]);
    }
  }

  lemma TakeAccounts(h: History)
    requires Accounted(h) && h.outstanding != [] && h.running == []
    ensures Accounted(Record(h, TakeStep))
  {
    OfKeyHas(h.outstanding, h.outstanding[0].key);
  }

  lemma EnqueueKeeps(w: World, h: History, c: Call, front: bool)
    requires Inv(w, h) && Enabled(w, h, EnqueueStep(c, front))
    ensures Inv(Apply(w, EnqueueStep(c, front)), Record(h, EnqueueStep(c, front)))
  {
    EnqueueMirrors(w, h, c, front);
    EnqueueAccounts(h, c, front);
    StillServed(w.settled, h, Record(h, EnqueueStep(c, front)));
  }

  lemma TakeMirrors(w: World, h: History)
    requires Mirrored(w, h) && Enabled(w, h, TakeStep)
    ensures Mirrored(Apply(w, TakeStep), Record(h, TakeStep)) && h.outstanding != []
  {
    TakeIsBatch(w.queue, h.outstanding);
    OfKeyHas(h.outstanding, h.outstanding[0].key);
    PartsInStampOrder(h.outstanding, h.outstanding[0].key);
  }

  lemma TakeKeeps(w: World, h: History)
    requires Inv(w, h) && Enabled(w, h, TakeStep)
    ensures Inv(Apply(w, TakeStep), Record(h, TakeStep))
  {
    TakeMirrors(w, h);
    TakeAccounts(h);
    StillServed(w.settled, h, Record(h, TakeStep));
  }

  /** The function that runs is the latest of its batch. */
  lemma LatestRuns(running: seq<Call>, c: Call)
    requires InStampOrder(running) && c in running && (forall d, e | d in running && e in running :: d.key == e.key)
    ensures var last := running[|running| - 1]; last in running && last.key == c.key && c.func <= last.func
  {
    var i :| 0 <= i < |running| && running[i] == c;
    assert running[|running| - 1] in running;
  }

  lemma {:induction false} OnceMade(made: seq<Call>, c: Call)
    requires forall i | 0 <= i < |made| :: made[i].func == i
    ensures multiset(made)[c] <= 1
  {
    if made != [] {
      var front, last := made[..|made| - 1], made[|made| - 1];
      assert made == front + [last];
      OnceMade(front, c);
      if c == last {
        assert forall i | 0 <= i < |front| :: front[i] == made[i] && made[i] != last;
        assert c !in front;
      }
    }
  }

  /** A call is not running and finished at once. */
  lemma InOnePlace(h: History, c: Call, d: Call)
    requires Accounted(h) && c in h.running && d in h.finished
    ensures c != d
  {
    OnceMade(h.made, c);
    assert multiset(h.running)[c] >= 1 && multiset(h.finished)[d] >= 1;
  }

  lemma SameCall(h: History, c: Call, d: Call, f: nat)
    requires Accounted(h) && c in h.made && d in h.made && f in c.futures && f in d.futures
    ensures c == d
  {
    var i :| 0 <= i < |h.made| && h.made[i] == c;
    var j :| 0 <= j < |h.made| && h.made[j] == d;
  }

  /** Nobody who waits for a running call has been settled by a function before. */
  lemma RunningIsUnsettled(w: World, h: History, c: Call, f: nat)
    requires Accounted(h) && AllServed(w.settled, h) && c in h.running && f in c.futures && f in w.settled
    ensures w.settled[f].GivenUp?
  {
    if w.settled[f].By? {
      FuturesHas(h.finished);
      assert f in FuturesOf(h.finished);
      var d :| d in h.finished && f in d.futures;
      WhereCallsAre(h, c);
      WhereCallsAre(h, d);
      SameCall(h, c, d, f);
      InOnePlace(h, c, d);
    }
  }

  lemma {:induction false} FuturesAppend(a: seq<Call>, b: seq<Call>)
    ensures FuturesOf(a + b) == FuturesOf(a) + FuturesOf(b)
  {
    if b == [] {
      assert a + b == a && FuturesOf(a) + [] == FuturesOf(a);
    } else {
      var front, last := b[..|b| - 1], b[|b| - 1];
      FuturesAppend(a, front);
      assert (a + b)[..|a + b| - 1] == a + front;
      assert FuturesOf(a) + (FuturesOf(front) + last.futures) == FuturesOf(a) + FuturesOf(front) + last.futures;
    }
  }

  /** Everybody who waited for the batch is served by its latest function, or had given up. */
  lemma BatchIsServed(w: World, h: History, failed: bool, c: Call, f: nat)
    requires Inv(w, h) && c in h.running && f in c.futures
    ensures var entry := Joined(h.running);
            var after := SettleAll(w.settled, entry.futures, By(entry.func, failed));
            f in after && Served(h.made, c, after[f])
  {
    var entry, last := Joined(h.running), h.running[|h.running| - 1];
    SettleAllMeaning(w.settled, entry.futures, By(entry.func, failed));
    FuturesHas(h.running);
    LatestRuns(h.running, c);
    WhereCallsAre(h, last);
    if f in w.settled {
      RunningIsUnsettled(w, h, c, f);
    }
  }

  lemma KeptSettled(w: World, h: History, entry: Entry, failed: bool, c: Call, f: nat)
    requires AllServed(w.settled, h) && c in h.finished && f in c.futures
    ensures var after := SettleAll(w.settled, entry.futures, By(entry.func, failed)); f in after && Served(h.made, c, after[f])
  {
    SettleAllMeaning(w.settled, entry.futures, By(entry.func, failed));
    assert f in w.settled && Served(h.made, c, w.settled[f]);
  }

  lemma OnlyFinishedAreSettled(w: World, h: History, failed: bool)
    requires AllServed(w.settled, h) && h.running != []
    ensures var entry := Joined(h.running);
            var after := SettleAll(w.settled, entry.futures, By(entry.func, failed));
            forall f | f in after && after[f].By? :: f in FuturesOf(h.finished + h.running)
  {
    var entry := Joined(h.running);
    SettleAllMeaning(w.settled, entry.futures, By(entry.func, failed));
    FuturesAppend(h.finished, h.running);
  }

  lemma SettleServes(w: World, h: History, failed: bool)
    requires Inv(w, h) && h.running != []
    ensures var entry := Joined(h.running);
            AllServed(SettleAll(w.settled, entry.futures, By(entry.func, failed)), Record(h, SettleStep(failed)))
  {
    var entry := Joined(h.running);
    var after := SettleAll(w.settled, entry.futures, By(entry.func, failed));
    OnlyFinishedAreSettled(w, h, failed);
    forall c, f | c in h.finished + h.running && f in c.futures
      ensures f in after && Served(h.made, c, after[f]) {
      if c in h.running {
        BatchIsServed(w, h, failed, c, f);
      } else {
        KeptSettled(w, h, entry, failed, c, f);
      }
    }
  }

  lemma SettleKeeps(w: World, h: History, failed: bool)
    requires Inv(w, h) && Enabled(w, h, SettleStep(failed))
    ensures Inv(Apply(w, SettleStep(failed)), Record(h, SettleStep(failed)))
  {
    SettleServes(w, h, failed);
    assert multiset(h.finished + h.running) == multiset(h.finished) + multiset(h.running);
  }

  lemma GiveUpKeeps(w: World, h: History, f: nat)
    requires Inv(w, h)
    ensures Inv(Apply(w, GiveUpStep(f)), h)
  {
    SettleAllMeaning(w.settled, [f], GivenUp);
  }

  /** Every step keeps the invariant. */
  lemma StepKeeps(w: World, h: History, s: Step)
    requires Inv(w, h) && Enabled(w, h, s)
    ensures Inv(Apply(w, s), Record(h, s))
  {
    match s
    case EnqueueStep(c, front) => EnqueueKeeps(w, h, c, front);
    case TakeStep => TakeKeeps(w, h);
    case SettleStep(failed) => SettleKeeps(w, h, failed);
    case GiveUpStep(f) => GiveUpKeeps(w, h, f);
  }

  // ---------------------------------------------------------------------------------------------
  // Runs
  // ---------------------------------------------------------------------------------------------

  function After(w: World, h: History, steps: seq<Step>): (World, History)
    decreases steps
  {
    if steps == [] then (w, h) else After(Apply(w, steps[0]), Record(h, steps[0]), steps[1..])
  }

  predicate Possible(w: World, h: History, steps: seq<Step>)
    decreases steps
  {
    steps == [] || (Enabled(w, h, steps[0]) && Possible(Apply(w, steps[0]), Record(h, steps[0]), steps[1..]))
  }

  lemma {:induction false} RunKeeps(w: World, h: History, steps: seq<Step>)
    requires Inv(w, h) && Possible(w, h, steps)
    ensures var (v, g) := After(w, h, steps); Inv(v, g)
    decreases steps
  {
    if steps != [] {
      StepKeeps(w, h, steps[0]);
      RunKeeps(Apply(w, steps[0]), Record(h, steps[0]), steps[1..]);
    }
  }

  /** Over every run: the keys in the deque are distinct and are the keys of the map; each call made is
      queued, running or finished, and only one of these; a future of a finished call ended with a
      function for its key that was enqueued no earlier than the call, unless its waiter gave up; and no
      other future has been settled by a function. With an idle worker and an empty queue nobody is left
      waiting. */
  lemma NobodyIsForgotten(steps: seq<Step>)
    requires Possible(IDLE, NO_CALLS, steps)
    ensures var (w, h) := After(IDLE, NO_CALLS, steps);
            && Distinct(w.queue.order) && (forall key :: key in w.queue.order <==> key in w.queue.table)
            && StandsFor(w.queue, h.outstanding)
            && multiset(h.made) == multiset(h.outstanding) + multiset(h.running) + multiset(h.finished)
            && (forall c, f | c in h.finished && f in c.futures :: f in w.settled && Served(h.made, c, w.settled[f]))
            && (forall c, f | c in h.made && f in c.futures && f in w.settled && w.settled[f].By? :: c in h.finished)
            && (w.inFlight.None? && w.queue.order == [] ==>
                  forall c, f | c in h.made && f in c.futures :: f in w.settled && Served(h.made, c, w.settled[f]))
  {
    RunKeeps(IDLE, NO_CALLS, steps);
    var (w, h) := After(IDLE, NO_CALLS, steps);
    KeysMeaning(h.outstanding);
    forall c, f | c in h.made && f in c.futures && f in w.settled && w.settled[f].By?
      ensures c in h.finished {
      FuturesHas(h.finished);
      assert f in FuturesOf(h.finished);
      var d :| d in h.finished && f in d.futures;
      WhereCallsAre(h, d);
      SameCall(h, c, d, f);
    }
    if w.inFlight.None? && w.queue.order == [] {
      NoCalls(h.outstanding);
      forall c | c in h.made
        ensures c in h.finished {
        WhereCallsAre(h, c);
      }
    }
  }

  // ---------------------------------------------------------------------------------------------
  // What a waiter gets
  // ---------------------------------------------------------------------------------------------

  /** What the step settles the future with: its waiter gives up, or the function that runs for a call with
      that future, which is the last one enqueued among those calls, returns or fails. */
  function SettledBy(h: History, s: Step, f: nat): Option<Settlement> {
    match s
    case GiveUpStep(g) => if g == f then Some(GivenUp) else None
    case SettleStep(failed) =>
      if h.running != [] && f in FuturesOf(h.running) then Some(By(h.running[|h.running| - 1].func, failed)) else None
    case _ => None
  }

  /** What the first step that settles it settles it with. */
  function FirstSettled(w: World, h: History, steps: seq<Step>, f: nat): Option<Settlement>
    decreases steps
  {
    if steps == [] then None
    else if SettledBy(h, steps[0], f).Some? then SettledBy(h, steps[0], f)
    else FirstSettled(Apply(w, steps[0]), Record(h, steps[0]), steps[1..], f)
  }

  lemma StepSettles(w: World, h: History, s: Step, f: nat)
    requires Inv(w, h) && Enabled(w, h, s)
    ensures var v := Apply(w, s);
            && (f in v.settled <==> f in w.settled || SettledBy(h, s, f).Some?)
            && (f in w.settled ==> v.settled[f] == w.settled[f])
            && (f !in w.settled && SettledBy(h, s, f).Some? ==> v.settled[f] == SettledBy(h, s, f).value)
  {
    match s
    case GiveUpStep(g) => SettleAllMeaning(w.settled, [g], GivenUp);
    case SettleStep(failed) =>
      var entry := Joined(h.running);
      SettleAllMeaning(w.settled, entry.futures, By(entry.func, failed));
    case _ =>
  }

  /** Over every run: a future is settled once, by the first step that would settle it, and with its outcome,
      be it a failure. */
  lemma {:induction false} SettledOnce(w: World, h: History, steps: seq<Step>, f: nat)
    requires Inv(w, h) && Possible(w, h, steps)
    ensures var v, first := After(w, h, steps).0, FirstSettled(w, h, steps, f);
            && (f in v.settled <==> f in w.settled || first.Some?)
            && (f in w.settled ==> v.settled[f] == w.settled[f])
            && (f !in w.settled && first.Some? ==> v.settled[f] == first.value)
    decreases steps
  {
    if steps != [] {
      StepSettles(w, h, steps[0], f);
      StepKeeps(w, h, steps[0]);
      SettledOnce(Apply(w, steps[0]), Record(h, steps[0]), steps[1..], f);
    }
  }

  // ---------------------------------------------------------------------------------------------
  // Order
  // ---------------------------------------------------------------------------------------------

  predicate OldestFirst(calls: seq<Call>) {
    forall i, j | 0 <= i < j < |calls| :: calls[i].func < calls[j].func
  }

  lemma {:induction false} RestStaysOldestFirst(calls: seq<Call>, key: string)
    requires OldestFirst(calls)
    ensures OldestFirst(NotOfKey(calls, key))
  {
    if calls != [] {
      var front, last := calls[..|calls| - 1], calls[|calls| - 1];
      RestStaysOldestFirst(front, key);
      OfKeyHas(front, key);
      forall d | d in NotOfKey(front, key)
        ensures d.func < last.func {
        var i :| 0 <= i < |front| && front[i] == d;
        assert calls[i].func < calls[|calls| - 1].func;
      }
      SnocOldestFirst(NotOfKey(front, key), last);
    }
  }

  lemma SnocOldestFirst(calls: seq<Call>, c: Call)
    requires OldestFirst(calls) && forall d | d in calls :: d.func < c.func
    ensures OldestFirst(calls + [c])
  {
    forall i | 0 <= i < |calls|
      ensures calls[i] in calls {
    }
  }

  predicate NoFront(steps: seq<Step>) {
    forall k | 0 <= k < |steps| && steps[k].EnqueueStep? :: !steps[k].front
  }

  lemma {:induction false} StaysOldestFirst(w: World, h: History, steps: seq<Step>)
    requires Inv(w, h) && Possible(w, h, steps) && NoFront(steps) && OldestFirst(h.outstanding)
    ensures OldestFirst(After(w, h, steps).1.outstanding)
    decreases steps
  {
    if steps != [] {
      var s := steps[0];
      StepKeeps(w, h, s);
      if s.EnqueueStep? {
        forall d | d in h.outstanding
          ensures d.func < s.call.func {
          WhereCallsAre(h, d);
        }
        SnocOldestFirst(h.outstanding, s.call);
      } else if s.TakeStep? && h.outstanding != [] {
        RestStaysOldestFirst(h.outstanding, h.outstanding[0].key);
      }
      StaysOldestFirst(Apply(w, s), Record(h, s), steps[1..]);
    }
  }

  lemma OldestLeads(calls: seq<Call>)
    requires OldestFirst(calls) && calls != []
    ensures forall c | c in calls :: calls[0].func <= c.func
  {
    forall c | c in calls
      ensures calls[0].func <= c.func {
      var i :| 0 <= i < |calls| && calls[i] == c;
    }
  }

  /** The worker takes all outstanding calls of the key of the first one. */
  ghost predicate TakesBatchOfFirst(w: World, h: History) {
    && h.outstanding != [] && OfKey(h.outstanding, h.outstanding[0].key) != []
    && Apply(w, TakeStep).inFlight == Some(Joined(OfKey(h.outstanding, h.outstanding[0].key)))
    && (forall c | c in Record(h, TakeStep).outstanding :: c.key != h.outstanding[0].key)
  }

  lemma TakesTheFirst(w: World, h: History)
    requires StandsFor(w.queue, h.outstanding) && Enabled(w, h, TakeStep)
    ensures TakesBatchOfFirst(w, h)
  {
    TakeIsBatch(w.queue, h.outstanding);
    OfKeyHas(h.outstanding, h.outstanding[0].key);
  }

  /** As long as nothing is put in front, the key served next is the one whose oldest outstanding call
      is the oldest of all, and with it go all outstanding calls of that key. */
  lemma OldestKeyIsServed(steps: seq<Step>)
    requires Possible(IDLE, NO_CALLS, steps) && NoFront(steps)
    ensures var (w, h) := After(IDLE, NO_CALLS, steps);
            Enabled(w, h, TakeStep) ==>
              TakesBatchOfFirst(w, h) && forall c | c in h.outstanding :: h.outstanding[0].func <= c.func
  {
    StaysOldestFirst(IDLE, NO_CALLS, steps);
    RunKeeps(IDLE, NO_CALLS, steps);
    var (w, h) := After(IDLE, NO_CALLS, steps);
    if Enabled(w, h, TakeStep) {
      TakesTheFirst(w, h);
      OldestLeads(h.outstanding);
    }
  }
}
