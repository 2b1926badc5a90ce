/** What holds of a tree's queue over all runs: one node at a time, first come first served, and when
    processing can come to a standstill. */
module TreeQueueSafety {
  import opened Prelude
  import opened MessageTrees
  import opened TreeQueues

  /** What has happened so far: nodes handed to enqueue, taken out by cancelling, made current, passed
      over, and given to the processor. */
  datatype History = History(enqueued: seq<string>, dropped: set<string>, picked: seq<string>, skipped: set<string>, begun: seq<string>)

  const NOTHING_YET := History([], {}, [], {}, [])

  /** One lock-held region, or one step of the running task. A TreeStep stands for everything else that
      is done to the nodes: adding, removing, changing states, propagating errors. */
  datatype Step =
    | EnqueueStep(id: string)
    | BeginStep(id: string, errored: bool)
    | FinishStep(id: string, outcome: Outcome)
    | ClearStep(id: string)
    | AdvanceStep
    | CancelStep(id: string)
    | CancelBranchStep(ids: seq<string>)
    | CancelTreeStep
    | TreeStep(tree: Tree)

  predicate InProcessor(w: World) {
    exists t | t in w.tasks :: t.Running?
  }

  /** Nodes are enqueued once, and the whole tree is not cancelled while a node is in its processor. */
  predicate Enabled(w: World, h: History, s: Step) {
    match s
    case EnqueueStep(id) => id != "" && id !in h.enqueued
    case BeginStep(id, errored) =>
      Created(id) in w.tasks && (id in w.tree.nodes ==> errored == (w.tree.nodes[id].state == Errored))
    case FinishStep(id, _) => Running(id) in w.tasks
    case ClearStep(id) => Unwinding(id) in w.tasks
    case AdvanceStep => Advancing in w.tasks
    case CancelStep(_) => true
    case CancelBranchStep(_) => true
    case CancelTreeStep => !InProcessor(w)
    case TreeStep(_) => true
  }

  function Apply(w: World, s: Step): World {
    match s
    case EnqueueStep(id) => Enqueue(w, id)
    case BeginStep(id, errored) => Begin(w, id, errored)
    case FinishStep(id, outcome) => Finish(w, id, outcome)
    case ClearStep(id) => Clear(w, id)
    case AdvanceStep => Advance(w)
    case CancelStep(id) => CancelNode(w, id)
    case CancelBranchStep(ids) => CancelEach(w, ids)
    case CancelTreeStep => TreeCancelled(w)
    case TreeStep(tree) => w.(tree := tree)
  }

  function Pick(w: World, h: History, id: string): History {
    h.(picked := h.picked + [id], skipped := if id in w.tree.nodes then h.skipped else h.skipped + {id})
  }

  /** The current node while its task has not begun. */
  function Fresh(w: World): seq<string> {
    if w.current.Some? && Created(w.current.value) in w.tasks then [w.current.value] else []
  }

  /** A cancellation has taken w to v: what no longer waits is dropped, and a node that was about to
      begin is passed over. */
  function Forget(w: World, v: World, h: History): History {
    h.(dropped := h.dropped + (w.index - v.index), skipped := h.skipped + set id | id in Fresh(w) && id !in Fresh(v))
  }

  function Record(w: World, h: History, s: Step): History {
    match s
    case EnqueueStep(id) =>
      var g := h.(enqueued := h.enqueued + [id]);
      if w.isProcessing then g else Pick(w, g, id)
    case BeginStep(id, errored) => if errored then h.(skipped := h.skipped + {id}) else h.(begun := h.begun + [id])
    case AdvanceStep => if w.waiting == [] then h else Pick(w, h, w.waiting[0])
    case CancelStep(_) => Forget(w, Apply(w, s), h)
    case CancelBranchStep(_) => Forget(w, Apply(w, s), h)
    case CancelTreeStep => Forget(w, Apply(w, s), h)
    case _ => h
  }

  // ---------------------------------------------------------------------------------------------
  // The invariant
  // ---------------------------------------------------------------------------------------------

  function KeepOut(s: seq<string>, out: set<string>): seq<string> {
    if s == [] then []
    else KeepOut(s[..|s| - 1], out) + if s[|s| - 1] in out then [] else [s[|s| - 1]]
  }

  predicate OneAtATime(w: World) {
    && |w.tasks| <= 1
    && (w.tasks != multiset{} || w.waiting != [] ==> w.isProcessing)
    && (!w.isProcessing ==> w.current == None)
    && (forall t | t in w.tasks && t != Advancing :: w.current == Some(t.node))
  }

  ghost predicate InStep(w: World) {
    w.index == Elements(w.waiting)
  }

  predicate FirstComeFirstServed(w: World, h: History) {
    && Distinct(h.enqueued) && "" !in h.enqueued
    && (forall id | id in h.dropped :: id in h.enqueued)
    && h.picked + w.waiting == KeepOut(h.enqueued, h.dropped)
    && (forall id | id in h.skipped :: id in h.picked)
    && h.begun + Fresh(w) == KeepOut(h.picked, h.skipped)
    && (w.current.Some? ==> w.current.value in h.picked)
  }

  ghost predicate Inv(w: World, h: History) {
    OneAtATime(w) && InStep(w) && FirstComeFirstServed(w, h)
  }

  // ---------------------------------------------------------------------------------------------
  // Filtering
  // ---------------------------------------------------------------------------------------------

  lemma {:induction false} KeepOutHas(s: seq<string>, out: set<string>)
    ensures forall id :: id in KeepOut(s, out) <==> id in s && id !in out
    ensures Distinct(s) ==> Distinct(KeepOut(s, out))
  {
    if s != [] {
      var front, last := s[..|s| - 1], s[|s| - 1];
      KeepOutHas(front, out);
      assert s == front + [last];
      assert Distinct(s) ==> last !in front;
    }
  }

  lemma {:induction false} KeepOutAppend(a: seq<string>, b: seq<string>, out: set<string>)
    ensures KeepOut(a + b, out) == KeepOut(a, out) + KeepOut(b, out)
  {
    if b == [] {
      assert a + b == a;
    } else {
      assert (a + b)[..|a + b| - 1] == a + b[..|b| - 1];
      KeepOutAppend(a, b[..|b| - 1], out);
    }
  }

  lemma {:induction false} KeepOutNone(s: seq<string>, out: set<string>)
    requires forall id | id in s :: id !in out
    ensures KeepOut(s, out) == s
  {
    if s != [] {
      KeepOutNone(s[..|s| - 1], out);
    }
  }

  lemma {:induction false} KeepOutTwice(s: seq<string>, a: set<string>, b: set<string>)
    ensures KeepOut(KeepOut(s, a), b) == KeepOut(s, a + b)
  {
    if s != [] {
      var front, last := s[..|s| - 1], s[|s| - 1];
      KeepOutTwice(front, a, b);
      KeepOutAppend(KeepOut(front, a), if last in a then [] else [last], b);
      assert KeepOut([last], b) == KeepOut([], b) + if last in b then [] else [last];
    }
  }

  lemma {:induction false} WithoutIsKeepOut(s: seq<string>, x: string)
    ensures Without(s, x) == KeepOut(s, {x})
  {
    if s != [] {
      WithoutIsKeepOut(s[..|s| - 1], x);
    }
  }

  lemma OnlyTask(tasks: multiset<Task>, t: Task)
    requires |tasks| <= 1 && t in tasks
    ensures tasks == multiset{t}
  {
    assert tasks == multiset{t} + (tasks - multiset{t});
  }

  // ---------------------------------------------------------------------------------------------
  // Every step keeps it
  // ---------------------------------------------------------------------------------------------

  /** What waits was not picked. */
  lemma WaitingIsUnpicked(w: World, h: History)
    requires FirstComeFirstServed(w, h)
    ensures Distinct(w.waiting) && Distinct(h.picked)
    ensures forall id | id in w.waiting :: id !in h.picked && id in h.enqueued && id !in h.dropped
    ensures forall id | id in h.picked :: id in h.enqueued && id !in h.dropped
  {
    var kept := h.picked + w.waiting;
    KeepOutHas(h.enqueued, h.dropped);
    forall i, j | 0 <= i < j < |w.waiting|
      ensures w.waiting[i] != w.waiting[j] {
      assert kept[|h.picked| + i] != kept[|h.picked| + j];
    }
    forall id | id in w.waiting
      ensures id !in h.picked && id in kept {
      var j :| 0 <= j < |w.waiting| && w.waiting[j] == id;
      assert kept[|h.picked| + j] == id;
      assert forall i | 0 <= i < |h.picked| :: h.picked[i] == kept[i] != kept[|h.picked| + j];
    }
    assert forall id | id in h.picked :: id in kept;
    assert forall i | 0 <= i < |h.picked| :: h.picked[i] == kept[i];
  }

  /** Taking some ids out of the queue. */
  lemma LeavingOutKeeps(w: World, h: History, waiting: seq<string>, gone: set<string>)
    requires Inv(w, h) && waiting == KeepOut(w.waiting, gone) && forall id | id in gone :: id in w.waiting
    ensures FirstComeFirstServed(w.(waiting := waiting), h.(dropped := h.dropped + gone))
  {
    WaitingIsUnpicked(w, h);
    KeepOutTwice(h.enqueued, h.dropped, gone);
    KeepOutAppend(h.picked, w.waiting, gone);
    KeepOutNone(h.picked, gone);
    assert Fresh(w.(waiting := waiting)) == Fresh(w);
  }

  lemma NothingForgotten(w: World, v: World, h: History)
    requires v.index == w.index && Fresh(v) == Fresh(w)
    ensures Forget(w, v, h) == h
  {
    assert h.dropped + (w.index - w.index) == h.dropped;
    assert h.skipped + (set id | id in Fresh(w) && id !in Fresh(v)) == h.skipped;
  }

  lemma RemoveKeeps(w: World, h: History, id: string)
    requires Inv(w, h)
    ensures var v := Remove(w, id);
            v.index == w.index - {id} && Fresh(v) == Fresh(w) && Inv(v, Forget(w, v, h))
  {
    var v := Remove(w, id);
    if id in w.index {
      WithoutIsKeepOut(w.waiting, id);
      KeepOutHas(w.waiting, {id});
      LeavingOutKeeps(w, h, v.waiting, {id});
      assert w.index - v.index == {id};
      assert Forget(w, v, h) == h.(dropped := h.dropped + {id});
    } else {
      NothingForgotten(w, v, h);
    }
  }

  /** A task that is cancelled before its first step passes its node over. */
  lemma InterruptKeeps(w: World, h: History)
    requires Inv(w, h)
    ensures var v := Interrupt(w); Inv(v, Forget(w, v, h)) && (Fresh(v) == Fresh(w) || Fresh(v) == [])
  {
    var v := Interrupt(w);
    assert w.index - w.index == {};
    if Fresh(w) == [] {
      NothingForgotten(w, v, h);
    } else {
      var id := w.current.value;
      OnlyTask(w.tasks, Created(id));
      WaitingIsUnpicked(w, h);
      FreshIsSkipped(h, id);
      assert Forget(w, v, h) == h.(skipped := h.skipped + {id});
    }
  }

  lemma FreshIsSkipped(h: History, id: string)
    requires Distinct(h.picked) && h.begun + [id] == KeepOut(h.picked, h.skipped)
    ensures h.begun + [] == KeepOut(h.picked, h.skipped + {id}) && id in h.picked
  {
    KeepOutTwice(h.picked, h.skipped, {id});
    KeepsAllButLast(h.begun, id, h.picked, h.skipped);
    KeepOutHas(h.picked, h.skipped);
    assert id in h.begun + [id];
    assert h.begun + [] == h.begun;
  }

  lemma ForgetTwice(w: World, u: World, v: World, h: History)
    requires v.index <= u.index <= w.index
    requires (Fresh(u) == Fresh(w) || Fresh(u) == []) && (Fresh(v) == Fresh(u) || Fresh(v) == [])
    ensures Forget(u, v, Forget(w, u, h)) == Forget(w, v, h)
  {
    assert h.dropped + (w.index - u.index) + (u.index - v.index) == h.dropped + (w.index - v.index);
    assert h.skipped + (set id | id in Fresh(w) && id !in Fresh(u)) + (set id | id in Fresh(u) && id !in Fresh(v))
        == h.skipped + (set id | id in Fresh(w) && id !in Fresh(v));
  }

  /** A cancellation went from w to v in order: the queue has shrunk and the invariant holds. */
  ghost predicate Forgets(w: World, v: World, h: History) {
    && v.index <= w.index && (Fresh(v) == Fresh(w) || Fresh(v) == [])
    && Inv(v, Forget(w, v, h))
  }

  lemma FailKeeps(w: World, v: World, h: History, tree: Tree)
    requires Forgets(w, v, h)
    ensures Forgets(w, v.(tree := tree), h)
  {
    TreeKeeps(v, Forget(w, v, h), tree);
    assert Fresh(v.(tree := tree)) == Fresh(v);
  }

  lemma ForgetsNothing(w: World, h: History)
    requires Inv(w, h)
    ensures Forgets(w, w, h)
  {
    NothingForgotten(w, w, h);
  }

  lemma RemoveForgets(w: World, u: World, h: History, id: string)
    requires Forgets(w, u, h)
    ensures Forgets(w, Remove(u, id), h)
  {
    RemoveKeeps(u, Forget(w, u, h), id);
    ForgetTwice(w, u, Remove(u, id), h);
  }

  lemma InterruptForgets(w: World, u: World, h: History)
    requires Forgets(w, u, h)
    ensures Forgets(w, Interrupt(u), h)
  {
    InterruptKeeps(u, Forget(w, u, h));
    ForgetTwice(w, u, Interrupt(u), h);
  }

  lemma CancelInBranchForgets(w: World, u: World, h: History, id: string)
    requires Forgets(w, u, h)
    ensures Forgets(w, CancelInBranch(u, id), h)
  {
    if Active(u.tree, id) {
      if u.current == Some(id) {
        InterruptForgets(w, u, h);
        FailKeeps(w, Interrupt(u), h, Fail(u.tree, id, CANCELLED));
      } else {
        RemoveForgets(w, u, h, id);
        FailKeeps(w, Remove(u, id), h, Fail(u.tree, id, CANCELLED));
      }
    }
  }

  lemma CancelNodeForgets(w: World, h: History, id: string)
    requires Inv(w, h)
    ensures Forgets(w, CancelNode(w, id), h)
  {
    ForgetsNothing(w, h);
    if Active(w.tree, id) {
      var u := InterruptAt(w, id);
      if w.current == Some(id) {
        InterruptForgets(w, w, h);
      }
      RemoveForgets(w, u, h, id);
      FailKeeps(w, Remove(u, id), h, Fail(w.tree, id, CANCELLED));
    }
  }

  lemma {:induction false} CancelEachForgets(w: World, h: History, ids: seq<string>)
    requires Inv(w, h)
    ensures Forgets(w, CancelEach(w, ids), h)
    decreases ids
  {
    if ids == [] {
      ForgetsNothing(w, h);
    } else {
      CancelEachForgets(w, h, ids[..|ids| - 1]);
      CancelInBranchForgets(w, CancelEach(w, ids[..|ids| - 1]), h, ids[|ids| - 1]);
    }
  }

  lemma {:induction false} DrainedIsEmpty(w: World)
    ensures var v := Drained(w);
            && v == w.(waiting := [], index := w.index - Elements(w.waiting), tree := v.tree)
            && v.tree == w.tree.(nodes := v.tree.nodes) && v.tree.nodes.Keys == w.tree.nodes.Keys
            && (forall id | id in w.tree.nodes ::
                  v.tree.nodes[id] == if id in w.waiting then Failed(w.tree.nodes[id], CANCELLED) else w.tree.nodes[id])
    decreases |w.waiting|
  {
    if w.waiting == [] {
      assert w.index - Elements(w.waiting) == w.index;
    } else {
      var id := w.waiting[0];
      var u := w.(waiting := w.waiting[1..], index := w.index - {id},
      tree := if id in w.tree.nodes then Fail(w.tree, id, CANCELLED) else w.tree);
      DrainedIsEmpty(u);
      assert w.waiting == [id] + u.waiting;
      assert w.index - Elements(w.waiting) == u.index - Elements(u.waiting);
    }
  }

  /** Cancelling the tree frees it and empties its queue. Waiting nodes fail whatever their state, the
      current one as cancelled if its task is alive, every other active one as stale. */
  lemma TreeCancelMeaning(w: World)
    ensures var v := TreeCancelled(w);
            && v.waiting == [] && !v.isProcessing && v.current == None
            && v.tree == w.tree.(nodes := v.tree.nodes) && v.tree.nodes.Keys == w.tree.nodes.Keys
            && (forall id | id in w.tree.nodes ::
                  v.tree.nodes[id] ==
                  if id in w.waiting || (w.tasks != multiset{} && w.current == Some(id) && Active(w.tree, id))
                  then Failed(w.tree.nodes[id], CANCELLED)
                  else if Active(w.tree, id) then Failed(w.tree.nodes[id], STALE)
                  else w.tree.nodes[id])
            && (forall id :: !Active(v.tree, id))
  {
    CurrentMeaning(w);
    DrainedIsEmpty(CurrentCancelled(w));
    SweptMeaning(Drained(CurrentCancelled(w)).tree);
  }

  lemma CurrentMeaning(w: World)
    ensures var v := CurrentCancelled(w);
            && v == w.(tree := v.tree, tasks := v.tasks)
            && v.tree == w.tree.(nodes := v.tree.nodes) && v.tree.nodes.Keys == w.tree.nodes.Keys
            && (forall id | id in w.tree.nodes ::
                  v.tree.nodes[id] == if w.tasks != multiset{} && w.current == Some(id) && Active(w.tree, id)
                                      then Failed(w.tree.nodes[id], CANCELLED) else w.tree.nodes[id])
  {
  }

  lemma SweptMeaning(t: Tree)
    ensures var u := Swept(t);
            && u == t.(nodes := u.nodes) && u.nodes.Keys == t.nodes.Keys
            && (forall id | id in t.nodes :: u.nodes[id] == if Active(t, id) then Failed(t.nodes[id], STALE) else t.nodes[id])
            && (forall id :: !Active(u, id))
  {
  }

  lemma EmptyingKeeps(w: World, h: History, tree: Tree)
    requires Inv(w, h)
    ensures var v := w.(waiting := [], index := {}, tree := tree); Fresh(v) == Fresh(w) && Inv(v, Forget(w, v, h))
  {
    var v := w.(waiting := [], index := {}, tree := tree);
    KeepOutGone(w.waiting, w.index);
    LeavingOutKeeps(w, h, [], w.index);
    assert w.index - v.index == w.index;
    assert Forget(w, v, h) == h.(dropped := h.dropped + w.index);
  }

  lemma FreeKeeps(w: World, h: History)
    requires Inv(w, h) && w.tasks == multiset{} && w.waiting == []
    ensures Inv(Free(w), h) && Fresh(Free(w)) == Fresh(w) == []
  {
  }

  /** Cancelling the tree keeps the order of things if no node is in its processor. */
  lemma TreeCancelledForgets(w: World, h: History)
    requires Inv(w, h) && !InProcessor(w)
    ensures Forgets(w, TreeCancelled(w), h)
  {
    var u := CurrentCancelled(w);
    var v := Drained(u);
    ForgetsNothing(w, h);
    if w.tasks != multiset{} {
      InterruptForgets(w, w, h);
      FailKeeps(w, Interrupt(w), h, u.tree);
    }
    DrainedIsEmpty(u);
    assert u.index - Elements(u.waiting) == {};
    EmptyingKeeps(u, Forget(w, u, h), Swept(v.tree));
    var e := u.(waiting := [], index := {}, tree := Swept(v.tree));
    ForgetTwice(w, u, e, h);
    FreeKeeps(e, Forget(w, e, h));
    ForgetTwice(w, e, Free(e), h);
    NothingForgotten(e, Free(e), Forget(w, e, h));
  }

  /** The next node becomes current: either the one just enqueued or the one that waited longest. */
  lemma LaunchKeeps(w: World, h: History, id: string)
    requires w.tasks == multiset{} && InStep(w) && id !in h.picked && id !in h.skipped
    requires h.begun == KeepOut(h.picked, h.skipped)
    requires forall other | other in h.skipped :: other in h.picked
    ensures var v, g := Launch(w, id), Pick(w, h, id);
            && OneAtATime(v) && InStep(v)
            && (forall other | other in g.skipped :: other in g.picked)
            && g.begun + Fresh(v) == KeepOut(g.picked, g.skipped)
  {
    var v, g := Launch(w, id), Pick(w, h, id);
    KeepOutAppend(h.picked, [id], g.skipped);
    KeepOutSkips(h.picked, h.skipped, id);
    assert KeepOut([id], g.skipped) == KeepOut([], g.skipped) + if id in g.skipped then [] else [id];
    if id in w.tree.nodes {
      assert v.tasks == multiset{Created(id)};
    }
  }

  lemma KeepOutSkips(s: seq<string>, out: set<string>, id: string)
    requires id !in s
    ensures KeepOut(s, out + {id}) == KeepOut(s, out)
  {
    KeepOutTwice(s, out, {id});
    KeepOutHas(s, out);
    KeepOutNone(KeepOut(s, out), {id});
  }

  lemma KeepsTheLast(s: seq<string>, out: set<string>, id: string)
    requires id !in out
    ensures KeepOut(s + [id], out) == KeepOut(s, out) + [id]
  {
    assert (s + [id])[..|s|] == s;
  }

  lemma QueueingKeeps(w: World, h: History, id: string)
    requires Inv(w, h) && id != "" && id !in h.enqueued && w.isProcessing
    ensures Inv(Put(w, id), h.(enqueued := h.enqueued + [id]))
  {
    WaitingIsUnpicked(w, h);
    DistinctAppend(h.enqueued, [id]);
    KeepsTheLast(h.enqueued, h.dropped, id);
    assert h.picked + (w.waiting + [id]) == h.picked + w.waiting + [id];
    assert Fresh(Put(w, id)) == Fresh(w);
  }

  lemma StartingKeeps(w: World, h: History, id: string)
    requires Inv(w, h) && id != "" && id !in h.enqueued && !w.isProcessing
    ensures Inv(Launch(w, id), Pick(w, h.(enqueued := h.enqueued + [id]), id))
  {
    var g := h.(enqueued := h.enqueued + [id]);
    WaitingIsUnpicked(w, h);
    DistinctAppend(h.enqueued, [id]);
    KeepsTheLast(h.enqueued, h.dropped, id);
    assert h.begun + [] == h.begun;
    LaunchKeeps(w, g, id);
    assert h.picked + [] + [id] == h.picked + [id] + [];
  }

  lemma EnqueueKeeps(w: World, h: History, id: string)
    requires Inv(w, h) && Enabled(w, h, EnqueueStep(id))
    ensures Inv(Enqueue(w, id), Record(w, h, EnqueueStep(id)))
  {
    if w.isProcessing {
      QueueingKeeps(w, h, id);
    } else {
      StartingKeeps(w, h, id);
    }
  }

  lemma BeginKeepsTasks(w: World, id: string, errored: bool)
    requires OneAtATime(w) && Created(id) in w.tasks
    ensures OneAtATime(Begin(w, id, errored)) && Fresh(w) == [id] && Fresh(Begin(w, id, errored)) == []
  {
    OnlyTask(w.tasks, Created(id));
    assert Begin(w, id, errored).tasks == multiset{if errored then Advancing else Running(id)};
  }

  lemma BeginKeeps(w: World, h: History, id: string, errored: bool)
    requires Inv(w, h) && Created(id) in w.tasks
    ensures Inv(Begin(w, id, errored), Record(w, h, BeginStep(id, errored)))
  {
    BeginKeepsTasks(w, id, errored);
    WaitingIsUnpicked(w, h);
    KeepOutHas(h.picked, h.skipped);
    assert id in h.begun + [id];
    if errored {
      KeepOutTwice(h.picked, h.skipped, {id});
      KeepsAllButLast(h.begun, id, h.picked, h.skipped);
      assert h.begun + [] == h.begun;
    } else {
      assert h.begun + [id] + [] == h.begun + [id];
    }
  }

  lemma EndKeeps(w: World, h: History, before: Task, after: Task, v: World)
    requires Inv(w, h) && before in w.tasks && !before.Created? && !after.Created?
    requires v == w.(tasks := w.tasks - multiset{before} + multiset{after}, tree := v.tree, current := v.current)
    requires v.current == w.current || (after == Advancing && v.current == None)
    requires after != Advancing ==> before != Advancing && after.node == before.node
    ensures Inv(v, h)
  {
    OnlyTask(w.tasks, before);
    assert v.tasks == multiset{after};
    assert Fresh(w) == [] && Fresh(v) == [];
  }

  /** Picked nodes are all different, so the fresh one is not among those begun before. */
  lemma KeepsAllButLast(begun: seq<string>, id: string, picked: seq<string>, skipped: set<string>)
    requires begun + [id] == KeepOut(picked, skipped)
    ensures Distinct(picked) ==> KeepOut(begun + [id], {id}) == begun
  {
    KeepOutHas(picked, skipped);
    KeepOutAppend(begun, [id], {id});
    assert KeepOut([id], {id}) == KeepOut([], {id}) + [];
    if Distinct(picked) {
      var all := begun + [id];
      forall other | other in begun
        ensures other != id {
        var i :| 0 <= i < |begun| && begun[i] == other;
        assert all[i] != all[|begun|];
      }
      KeepOutNone(begun, {id});
    }
  }

  lemma AdvanceKeeps(w: World, h: History)
    requires Inv(w, h) && Advancing in w.tasks
    ensures Inv(Advance(w), Record(w, h, AdvanceStep))
  {
    OnlyTask(w.tasks, Advancing);
    var u := w.(tasks := w.tasks - multiset{Advancing});
    assert u.tasks == multiset{};
    assert Fresh(w) == [] && h.begun + [] == h.begun;
    if w.waiting != [] {
      var id := w.waiting[0];
      var p := u.(waiting := u.waiting[1..], index := u.index - {id});
      WaitingIsUnpicked(w, h);
      FirstLeaves(w.waiting, w.index);
      LaunchKeeps(p, h, id);
      PickedNext(h.picked, w.waiting);
    }
  }

  lemma FirstLeaves(waiting: seq<string>, index: set<string>)
    requires waiting != [] && Distinct(waiting) && index == Elements(waiting)
    ensures waiting[0] in waiting && index - {waiting[0]} == Elements(waiting[1..])
  {
    assert waiting == [waiting[0]] + waiting[1..];
    assert forall k | 1 <= k < |waiting| :: waiting[0] != waiting[k];
  }

  lemma PickedNext(picked: seq<string>, waiting: seq<string>)
    requires waiting != []
    ensures picked + [waiting[0]] + waiting[1..] == picked + waiting
  {
  }

  lemma FinishKeeps(w: World, h: History, id: string, outcome: Outcome)
    requires Inv(w, h) && Running(id) in w.tasks
    ensures Inv(Finish(w, id, outcome), h)
  {
    EndKeeps(w, h, Running(id), Unwinding(id), Finish(w, id, outcome));
  }

  lemma ClearKeeps(w: World, h: History, id: string)
    requires Inv(w, h) && Unwinding(id) in w.tasks
    ensures Inv(Clear(w, id), h)
  {
    EndKeeps(w, h, Unwinding(id), Advancing, Clear(w, id));
  }

  lemma TreeKeeps(w: World, h: History, tree: Tree)
    requires Inv(w, h)
    ensures Inv(w.(tree := tree), h)
  {
    assert Fresh(w.(tree := tree)) == Fresh(w);
  }

  /** Every step keeps the invariant. */
  lemma StepKeeps(w: World, h: History, s: Step)
    requires Inv(w, h) && Enabled(w, h, s)
    ensures Inv(Apply(w, s), Record(w, h, s))
  {
    match s
    case EnqueueStep(id) => EnqueueKeeps(w, h, id);
    case BeginStep(id, errored) => BeginKeeps(w, h, id, errored);
    case FinishStep(id, outcome) => FinishKeeps(w, h, id, outcome);
    case ClearStep(id) => ClearKeeps(w, h, id);
    case AdvanceStep => AdvanceKeeps(w, h);
    case CancelStep(id) => CancelNodeForgets(w, h, id);
    case CancelBranchStep(ids) => CancelEachForgets(w, h, ids);
    case CancelTreeStep => TreeCancelledForgets(w, h);
    case TreeStep(tree) => TreeKeeps(w, h, tree);
  }

  // ---------------------------------------------------------------------------------------------
  // Over whole runs
  // ---------------------------------------------------------------------------------------------

  function Start(tree: Tree): World {
    World(tree, [], {}, false, None, multiset{})
  }

  function After(w: World, h: History, steps: seq<Step>): (World, History)
    decreases steps
  {
    if steps == [] then (w, h) else After(Apply(w, steps[0]), Record(w, h, steps[0]), steps[1..])
  }

  predicate Possible(w: World, h: History, steps: seq<Step>)
    decreases steps
  {
    steps == [] || (Enabled(w, h, steps[0]) && Possible(Apply(w, steps[0]), Record(w, h, steps[0]), steps[1..]))
  }

  lemma Goes(w: World, h: History, s: Step, rest: seq<Step>)
    ensures Possible(w, h, [s] + rest) <==> Enabled(w, h, s) && Possible(Apply(w, s), Record(w, h, s), rest)
    ensures After(w, h, [s] + rest) == After(Apply(w, s), Record(w, h, s), rest)
  {
    assert ([s] + rest)[1..] == rest;
  }

  lemma {:induction false} RunKeeps(w: World, h: History, steps: seq<Step>)
    requires Inv(w, h) && Possible(w, h, steps)
    ensures var (v, g) := After(w, h, steps); Inv(v, g)
    decreases steps
  {
    if steps != [] {
      StepKeeps(w, h, steps[0]);
      RunKeeps(Apply(w, steps[0]), Record(w, h, steps[0]), steps[1..]);
    }
  }

  lemma StartIsFine(tree: Tree)
    ensures Inv(Start(tree), NOTHING_YET)
  {
    assert [] + Fresh(Start(tree)) == KeepOut([], {});
    var none: seq<string> := [];
    assert none + none == KeepOut(none, {});
  }

  /** s is all with some left out, in the same order. */
  ghost predicate InOrder(s: seq<string>, all: seq<string>) {
    exists out :: s == KeepOut(all, out)
  }

  /** Nothing begun is waiting or about to begin. */
  lemma BegunIsOver(w: World, h: History)
    requires FirstComeFirstServed(w, h)
    ensures Distinct(h.begun)
    ensures forall id | id in h.begun :: id !in w.waiting && id !in Fresh(w)
  {
    WaitingIsUnpicked(w, h);
    KeepOutHas(h.picked, h.skipped);
    var all := h.begun + Fresh(w);
    assert Distinct(all);
    assert forall i | 0 <= i < |h.begun| :: h.begun[i] == all[i];
    forall id | id in h.begun
      ensures id !in w.waiting && id !in Fresh(w) {
      assert id in all;
      var i :| 0 <= i < |h.begun| && h.begun[i] == id;
      if Fresh(w) != [] {
        assert all[|h.begun|] == w.current.value && all[i] != all[|h.begun|];
      }
    }
  }

  lemma LeftOutTwice(enqueued: seq<string>, dropped: set<string>, picked: seq<string>, waiting: seq<string>,
                     skipped: set<string>, begun: seq<string>, next: seq<string>, later: set<string>)
    requires picked + waiting == KeepOut(enqueued, dropped) && begun + next == KeepOut(picked, skipped)
    requires (forall id | id in waiting :: id in later) && (forall id | id in next :: id in later)
    requires forall id | id in begun :: id !in later
    ensures begun == KeepOut(enqueued, dropped + (skipped + later))
  {
    LeavesOut(begun, next, later);
    KeepOutTwice(picked, skipped, later);
    WaitingIsLeftOut(enqueued, dropped, picked, waiting, skipped + later);
  }

  lemma BegunInOrder(w: World, h: History)
    requires FirstComeFirstServed(w, h)
    ensures InOrder(h.begun, h.enqueued) && Distinct(h.begun)
  {
    var later := Elements(w.waiting) + Elements(Fresh(w));
    BegunIsOver(w, h);
    LeftOutTwice(h.enqueued, h.dropped, h.picked, w.waiting, h.skipped, h.begun, Fresh(w), later);
  }

  lemma LeavesOut(a: seq<string>, b: seq<string>, out: set<string>)
    requires (forall id | id in a :: id !in out) && (forall id | id in b :: id in out)
    ensures KeepOut(a + b, out) == a
  {
    KeepOutNone(a, out);
    KeepOutGone(b, out);
    KeepOutAppend(a, b, out);
    assert a + [] == a;
  }

  lemma {:induction false} KeepOutGone(s: seq<string>, out: set<string>)
    requires forall id | id in s :: id in out
    ensures KeepOut(s, out) == []
  {
    if s != [] {
      KeepOutGone(s[..|s| - 1], out);
    }
  }

  lemma WaitingIsLeftOut(enqueued: seq<string>, dropped: set<string>, picked: seq<string>, waiting: seq<string>, out: set<string>)
    requires picked + waiting == KeepOut(enqueued, dropped)
    requires forall id | id in waiting :: id in out
    ensures KeepOut(enqueued, dropped + out) == KeepOut(picked, out)
  {
    KeepOutTwice(enqueued, dropped, out);
    KeepOutAppend(picked, waiting, out);
    KeepOutGone(waiting, out);
    assert KeepOut(picked, out) + [] == KeepOut(picked, out);
  }

  /** Over every run: at most one node of the tree is being processed, a waiting node means the tree is
      processing, the set index is the deque's content, nodes go to the processor at most once and in
      the order they were enqueued, and whatever was enqueued waits, was picked or was cancelled. */
  lemma OneNodeAtATime(tree: Tree, steps: seq<Step>)
    requires Possible(Start(tree), NOTHING_YET, steps)
    ensures var (w, h) := After(Start(tree), NOTHING_YET, steps);
            && |w.tasks| <= 1
            && (w.waiting != [] || w.tasks != multiset{} ==> w.isProcessing)
            && w.index == Elements(w.waiting)
            && Distinct(h.begun) && InOrder(h.begun, h.enqueued)
            && h.picked + w.waiting == KeepOut(h.enqueued, h.dropped)
  {
    StartIsFine(tree);
    RunKeeps(Start(tree), NOTHING_YET, steps);
    var (w, h) := After(Start(tree), NOTHING_YET, steps);
    BegunInOrder(w, h);
  }

  // ---------------------------------------------------------------------------------------------
  // Cancelling a tree whose node is in its processor
  // ---------------------------------------------------------------------------------------------

  /** Why cancelling the tree is a step only then: it keeps the invariant if and only if no node is in
      its processor. */
  lemma TreeCancelKeepsIff(w: World, h: History)
    requires Inv(w, h)
    ensures Inv(TreeCancelled(w), Record(w, h, CancelTreeStep)) <==> !InProcessor(w)
  {
    if InProcessor(w) {
      var t :| t in w.tasks && t.Running?;
      DrainedIsEmpty(CurrentCancelled(w));
      assert t in TreeCancelled(w).tasks;
    } else {
      TreeCancelledForgets(w, h);
    }
  }

  lemma TwoTasks(w: World, a: string, b: string)
    requires w.tasks == multiset{Running(a)} && !w.isProcessing && a != b
    requires b in w.tree.nodes
    ensures var v := Apply(w, EnqueueStep(b));
            v.tasks == multiset{Running(a), Created(b)} && v.tree == w.tree
            && Apply(v, BeginStep(b, false)).tasks == multiset{Running(a), Running(b)}
  {
  }

  lemma TreeCancelLeaves(w: World, h: History, a: string)
    requires Inv(w, h) && Running(a) in w.tasks
    ensures var v := TreeCancelled(w); v.tasks == multiset{Running(a)} && !v.isProcessing
    ensures a in h.enqueued && Record(w, h, CancelTreeStep).enqueued == h.enqueued
  {
    DrainedIsEmpty(CurrentCancelled(w));
    WaitingIsUnpicked(w, h);
    OnlyTask(w.tasks, Running(a));
  }

  /** Otherwise the cancelled node is still unwinding in its processor when the next reply is already
      sent to its own: two nodes of one tree at once. */
  lemma CancelledTreeRunsTwo(w: World, h: History, a: string, tree: Tree, b: string)
    requires Inv(w, h) && Running(a) in w.tasks
    requires b != "" && b !in h.enqueued && b in tree.nodes && tree.nodes[b].state != Errored
    ensures var v, g := TreeCancelled(w), Record(w, h, CancelTreeStep);
            var steps := [TreeStep(tree)] + ([EnqueueStep(b)] + ([BeginStep(b, false)] + []));
            Possible(v, g, steps) && After(v, g, steps).0.tasks == multiset{Running(a), Running(b)}
  {
    var v, g := TreeCancelled(w), Record(w, h, CancelTreeStep);
    TreeCancelLeaves(w, h, a);
    var v1 := v.(tree := tree);
    var v2, g2 := Apply(v1, EnqueueStep(b)), Record(v1, g, EnqueueStep(b));
    TwoTasks(v1, a, b);
    Goes(v2, g2, BeginStep(b, false), []);
    Goes(v1, g, EnqueueStep(b), [BeginStep(b, false)] + []);
    Goes(v, g, TreeStep(tree), [EnqueueStep(b)] + ([BeginStep(b, false)] + []));
  }
}
