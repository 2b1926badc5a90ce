/** What each step does to each part of a tree's queue, and that what was cancelled while it waited is never
    begun. */
module TreeQueueMeaning {
  import opened Prelude
  import opened MessageTrees
  import opened TreeQueues
  import opened TreeQueueSafety
  import opened TreeQueueStandstill
  import opened BranchClearing

  // ---------------------------------------------------------------------------------------------
  // Part by part
  // ---------------------------------------------------------------------------------------------

  /** The step cancels that node. */
  predicate Cancels(w: World, s: Step, id: string) {
    match s
    case CancelStep(other) => id == other && Active(w.tree, id)
    case CancelBranchStep(ids) => id in ids && Active(w.tree, id)
    case CancelTreeStep => id in w.waiting || (w.tasks != multiset{} && w.current == Some(id) && Active(w.tree, id))
    case _ => false
  }

  /** The message with which the step makes that node fail, if it does. */
  function FailsWith(w: World, s: Step, id: string): Option<string> {
    if Cancels(w, s, id) then Some("Cancelled by user")
    else
      match s
      case FinishStep(other, Raised(message)) => if id == other then Some(message) else None
      case CancelTreeStep => if Active(w.tree, id) then Some("Stale task cleaned up") else None
      case _ => None
  }

  /** A failing node is in error, with the message unless that is empty; nothing else of it changes. */
  function NextNode(node: Node, failure: Option<string>): Node {
    match failure
    case None => node
    case Some(message) =>
      Node(node.id, node.status, Errored, node.parent, node.children, if message == "" then node.error else message)
  }

  ghost predicate NextTree(w: World, s: Step, t: Tree) {
    if s.TreeStep? then t == s.tree
    else
      && t.rootId == w.tree.rootId && t.statuses == w.tree.statuses && t.nodes.Keys == w.tree.nodes.Keys
      && forall id | id in w.tree.nodes :: t.nodes[id] == NextNode(w.tree.nodes[id], FailsWith(w, s, id))
  }

  /** Who is current: a node enqueued on a free tree, the one that waited longest, or nobody. */
  function NextCurrent(w: World, s: Step): Option<string> {
    match s
    case EnqueueStep(id) => if w.isProcessing then w.current else Some(id)
    case AdvanceStep => if w.waiting == [] then None else Some(w.waiting[0])
    case ClearStep(_) => None
    case CancelTreeStep => None
    case _ => w.current
  }

  function NextWaiting(w: World, s: Step): seq<string> {
    match s
    case EnqueueStep(id) => if w.isProcessing then w.waiting + [id] else w.waiting
    case AdvanceStep => if w.waiting == [] then [] else w.waiting[1..]
    case CancelStep(id) => KeepOut(w.waiting, set x | x in {id} && Cancels(w, s, x))
    case CancelBranchStep(ids) => KeepOut(w.waiting, set x | x in ids && Cancels(w, s, x))
    case CancelTreeStep => []
    case _ => w.waiting
  }

  function NextBusy(w: World, s: Step): bool {
    match s
    case EnqueueStep(_) => true
    case AdvanceStep => w.waiting != []
    case CancelTreeStep => false
    case _ => w.isProcessing
  }

  /** The task that is alive: that of a node the tree has, going through its stages, until it is cancelled
      outside its processor. */
  function NextTasks(w: World, s: Step): multiset<Task> {
    match s
    case EnqueueStep(id) => if !w.isProcessing && id in w.tree.nodes then multiset{Created(id)} else w.tasks
    case BeginStep(id, errored) => multiset{if errored then Advancing else Running(id)}
    case FinishStep(id, _) => multiset{Unwinding(id)}
    case ClearStep(_) => multiset{Advancing}
    case AdvanceStep => if w.waiting != [] && w.waiting[0] in w.tree.nodes then multiset{Created(w.waiting[0])} else multiset{}
    case CancelTreeStep => multiset{}
    case TreeStep(_) => w.tasks
    case _ =>
      if w.current.Some? && Cancels(w, s, w.current.value) && Running(w.current.value) !in w.tasks then multiset{} else w.tasks
  }

  /** The step takes w to v. */
  ghost predicate TakesTo(w: World, s: Step, v: World) {
    && NextTree(w, s, v.tree)
    && v.current == NextCurrent(w, s)
    && v.waiting == NextWaiting(w, s)
    && v.isProcessing == NextBusy(w, s)
    && v.tasks == NextTasks(w, s)
  }

  lemma FailedForm(node: Node, message: string)
    ensures Failed(node, message) == NextNode(node, Some(message))
  {
  }

  lemma CancelNodeMeaning(w: World, h: History, id: string)
    requires Inv(w, h)
    ensures TakesTo(w, CancelStep(id), CancelNode(w, id))
  {
    var out := set x | x in {id} && Cancels(w, CancelStep(id), x);
    if Active(w.tree, id) {
      assert out == {id};
      RemovedForm(InterruptAt(w, id), id);
      FailedForm(w.tree.nodes[id], CANCELLED);
    } else {
      assert out == {};
      KeepOutNone(w.waiting, {});
    }
  }

  lemma RemovedForm(w: World, id: string)
    requires InStep(w)
    ensures Remove(w, id) == w.(waiting := KeepOut(w.waiting, {id}), index := w.index - {id})
  {
    WithoutIsKeepOut(w.waiting, id);
    if id !in w.index {
      KeepOutNone(w.waiting, {id});
    }
  }

  lemma CancelOneWaits(u: World, id: string)
    requires InStep(u) && (u.current.Some? ==> u.current.value !in u.waiting)
    ensures CancelInBranch(u, id).waiting == KeepOut(u.waiting, if Active(u.tree, id) then {id} else {})
  {
    RemovedForm(u, id);
    KeepOutNone(u.waiting, {});
    if u.current == Some(id) {
      KeepOutNone(u.waiting, {id});
    }
  }

  lemma CancelEachCalm(w: World, h: History, ids: seq<string>)
    requires Inv(w, h)
    ensures var v := CancelEach(w, ids);
            v.current == w.current && InStep(v) && (v.current.Some? ==> v.current.value !in v.waiting)
  {
    CancelEachForgets(w, h, ids);
    CancelEachTasks(w, ids);
    WaitingIsUnpicked(CancelEach(w, ids), Forget(w, CancelEach(w, ids), h));
  }

  ghost function ActiveOf(w: World, ids: seq<string>): set<string> {
    set x | x in ids && Active(w.tree, x)
  }

  lemma ActiveSnoc(w: World, front: seq<string>, last: string)
    ensures ActiveOf(w, front + [last])
         == ActiveOf(w, front) + if last !in front && Active(w.tree, last) then {last} else {}
  {
  }

  lemma {:induction false} CancelEachQueue(w: World, h: History, ids: seq<string>)
    requires Inv(w, h)
    ensures CancelEach(w, ids).waiting == KeepOut(w.waiting, ActiveOf(w, ids))
    decreases ids
  {
    if ids == [] {
      KeepOutNone(w.waiting, {});
      assert ActiveOf(w, ids) == {};
    } else {
      var front, last := ids[..|ids| - 1], ids[|ids| - 1];
      var u := CancelEach(w, front);
      CancelEachQueue(w, h, front);
      CancelEachCalm(w, h, front);
      CancelEachActive(w, front, last);
      CancelOneWaits(u, last);
      assert ids == front + [last];
      ActiveSnoc(w, front, last);
      KeepOutTwice(w.waiting, ActiveOf(w, front), if Active(u.tree, last) then {last} else {});
    }
  }

  lemma NextFails(w: World, front: seq<string>, last: string, u: World)
    requires NextTree(w, CancelBranchStep(front), u.tree) && Active(u.tree, last) && last !in front && Active(w.tree, last)
    ensures NextTree(w, CancelBranchStep(front + [last]), Fail(u.tree, last, CANCELLED))
  {
    FailedForm(u.tree.nodes[last], CANCELLED);
  }

  lemma NextStays(w: World, front: seq<string>, last: string, u: World)
    requires NextTree(w, CancelBranchStep(front), u.tree) && (last in front || !Active(w.tree, last))
    ensures NextTree(w, CancelBranchStep(front + [last]), u.tree)
  {
  }

  lemma {:induction false} CancelEachNodes(w: World, ids: seq<string>)
    ensures NextTree(w, CancelBranchStep(ids), CancelEach(w, ids).tree)
    decreases ids
  {
    if ids != [] {
      var front, last := ids[..|ids| - 1], ids[|ids| - 1];
      CancelEachNodes(w, front);
      CancelEachActive(w, front, last);
      assert ids == front + [last];
      var u := CancelEach(w, front);
      if Active(u.tree, last) {
        NextFails(w, front, last, u);
      } else {
        NextStays(w, front, last, u);
      }
    }
  }

  lemma CancelBranchMeaning(w: World, h: History, ids: seq<string>)
    requires Inv(w, h)
    ensures TakesTo(w, CancelBranchStep(ids), CancelEach(w, ids))
  {
    var s := CancelBranchStep(ids);
    CancelEachNodes(w, ids);
    CancelEachTasks(w, ids);
    CancelEachQueue(w, h, ids);
    CancelEachCalm(w, h, ids);
    assert ActiveOf(w, ids) == (set x | x in ids && Cancels(w, s, x));
  }

  lemma CancelTreeNodes(w: World)
    requires !InProcessor(w)
    ensures NextTree(w, CancelTreeStep, TreeCancelled(w).tree)
  {
    TreeCancelMeaning(w);
    forall id | id in w.tree.nodes
      ensures TreeCancelled(w).tree.nodes[id] == NextNode(w.tree.nodes[id], FailsWith(w, CancelTreeStep, id)) {
      FailedForm(w.tree.nodes[id], CANCELLED);
      FailedForm(w.tree.nodes[id], STALE);
    }
  }

  lemma CancelTreeMeaning(w: World, h: History)
    requires Inv(w, h) && !InProcessor(w)
    ensures TakesTo(w, CancelTreeStep, TreeCancelled(w))
  {
    CancelTreeNodes(w);
    TreeCancelMeaning(w);
    DrainedIsEmpty(CurrentCancelled(w));
  }

  lemma SameTree(w: World, s: Step)
    requires !s.TreeStep? && forall id | id in w.tree.nodes :: FailsWith(w, s, id) == None
    ensures NextTree(w, s, w.tree)
  {
  }

  lemma TaskMoves(w: World, before: Task, after: Task)
    requires |w.tasks| <= 1 && before in w.tasks
    ensures w.tasks - multiset{before} + multiset{after} == multiset{after}
  {
    OnlyTask(w.tasks, before);
  }

  lemma FinishMeaning(w: World, id: string, outcome: Outcome)
    requires |w.tasks| <= 1 && Running(id) in w.tasks
    ensures TakesTo(w, FinishStep(id, outcome), Finish(w, id, outcome))
  {
    TaskMoves(w, Running(id), Unwinding(id));
    if outcome.Raised? && id in w.tree.nodes {
      FailedForm(w.tree.nodes[id], outcome.message);
    }
  }

  lemma AdvanceMeaning(w: World, h: History)
    requires Inv(w, h) && Advancing in w.tasks
    ensures TakesTo(w, AdvanceStep, Advance(w))
  {
    OnlyTask(w.tasks, Advancing);
    WaitingIsUnpicked(w, h);
    SameTree(w, AdvanceStep);
    assert w.tasks - multiset{Advancing} == multiset{};
    if w.waiting != [] {
      assert w.waiting[0] in w.waiting;
    }
  }

  lemma EnqueueMeaning(w: World, h: History, id: string)
    requires Inv(w, h)
    ensures TakesTo(w, EnqueueStep(id), Enqueue(w, id))
  {
    SameTree(w, EnqueueStep(id));
    if !w.isProcessing && id in w.tree.nodes {
      assert w.tasks + multiset{Created(id)} == multiset{Created(id)};
    }
  }

  lemma BeginMeaning(w: World, h: History, id: string, errored: bool)
    requires Inv(w, h) && Created(id) in w.tasks
    ensures TakesTo(w, BeginStep(id, errored), Begin(w, id, errored))
  {
    SameTree(w, BeginStep(id, errored));
    TaskMoves(w, Created(id), if errored then Advancing else Running(id));
  }

  lemma ClearMeaning(w: World, h: History, id: string)
    requires Inv(w, h) && Unwinding(id) in w.tasks
    ensures TakesTo(w, ClearStep(id), Clear(w, id))
  {
    SameTree(w, ClearStep(id));
    TaskMoves(w, Unwinding(id), Advancing);
  }

  lemma TreeStepMeaning(w: World, tree: Tree)
    ensures TakesTo(w, TreeStep(tree), w.(tree := tree))
  {
  }

  /** Every step does to the tree, the queue, the current node and its task exactly what the parts say. */
  lemma StepMeaning(w: World, h: History, s: Step)
    requires Inv(w, h) && Enabled(w, h, s)
    ensures TakesTo(w, s, Apply(w, s)) && Apply(w, s).index == Elements(Apply(w, s).waiting)
  {
    StepKeeps(w, h, s);
    match s
    case EnqueueStep(id) => EnqueueMeaning(w, h, id);
    case BeginStep(id, errored) => BeginMeaning(w, h, id, errored);
    case FinishStep(id, outcome) => FinishMeaning(w, id, outcome);
    case ClearStep(id) => ClearMeaning(w, h, id);
    case AdvanceStep => AdvanceMeaning(w, h);
    case CancelStep(id) => CancelNodeMeaning(w, h, id);
    case CancelBranchStep(ids) => CancelBranchMeaning(w, h, ids);
    case CancelTreeStep => CancelTreeMeaning(w, h);
    case TreeStep(tree) => TreeStepMeaning(w, tree);
  }

  // ---------------------------------------------------------------------------------------------
  // Over whole runs
  // ---------------------------------------------------------------------------------------------

  lemma {:induction false} DroppedStays(w: World, h: History, steps: seq<Step>, id: string)
    requires Inv(w, h) && Possible(w, h, steps) && id in h.dropped
    ensures id in After(w, h, steps).1.dropped
    decreases steps
  {
    if steps != [] {
      StepKeeps(w, h, steps[0]);
      DroppedStays(Apply(w, steps[0]), Record(w, h, steps[0]), steps[1..], id);
    }
  }

  lemma DroppedIsNotBegun(w: World, h: History, id: string)
    requires Inv(w, h) && id in h.dropped
    ensures id !in h.begun && id !in w.waiting
  {
    WaitingIsUnpicked(w, h);
    KeepOutHas(h.picked, h.skipped);
    assert forall other | other in h.begun :: other in h.begun + Fresh(w);
  }

  lemma CancelledIsDropped(w: World, h: History, s: Step, id: string)
    requires Inv(w, h) && Enabled(w, h, s) && Cancels(w, s, id) && id in w.waiting
    ensures id in Record(w, h, s).dropped
  {
    StepMeaning(w, h, s);
    var out := set x | x in (if s.CancelStep? then [s.id] else if s.CancelBranchStep? then s.ids else []) && Cancels(w, s, x);
    KeepOutHas(w.waiting, out);
    assert id !in Apply(w, s).waiting by {
      if s.CancelStep? {
        assert (set x | x in {s.id} && Cancels(w, s, x)) == out;
      }
    }
  }

  /** A node that is cancelled while it waits, by itself, with its branch or with its tree, is at once in
      error, waits no more, and is not begun in any run that goes on from there. */
  lemma CancelledNeverBegins(tree: Tree, before: seq<Step>, s: Step, after: seq<Step>, id: string)
    requires Possible(Start(tree), NOTHING_YET, before)
    requires var (w, h) := After(Start(tree), NOTHING_YET, before);
             && Enabled(w, h, s) && Possible(Apply(w, s), Record(w, h, s), after)
             && Cancels(w, s, id) && id in w.waiting
    ensures var (w, h) := After(Start(tree), NOTHING_YET, before);
            var v := Apply(w, s);
            var (z, g) := After(v, Record(w, h, s), after);
            && (id in v.tree.nodes ==> v.tree.nodes[id].state == Errored && v.tree.nodes[id].error == "Cancelled by user")
            && id !in v.waiting && id !in z.waiting && id !in g.begun
  {
    StartIsFine(tree);
    RunKeeps(Start(tree), NOTHING_YET, before);
    var (w, h) := After(Start(tree), NOTHING_YET, before);
    StepMeaning(w, h, s);
    StepKeeps(w, h, s);
    CancelledIsDropped(w, h, s, id);
    DroppedIsNotBegun(Apply(w, s), Record(w, h, s), id);
    DroppedStays(Apply(w, s), Record(w, h, s), after, id);
    RunKeeps(Apply(w, s), Record(w, h, s), after);
    var (z, g) := After(Apply(w, s), Record(w, h, s), after);
    DroppedIsNotBegun(z, g, id);
  }

  /** Whoever is in its processor, or unwinding, is the node last begun. */
  predicate LastBegun(w: World, h: History) {
    forall t | t in w.tasks && (t.Running? || t.Unwinding?) :: h.begun != [] && h.begun[|h.begun| - 1] == t.node
  }

  lemma StepKeepsLast(w: World, h: History, s: Step)
    requires Inv(w, h) && Enabled(w, h, s) && LastBegun(w, h)
    ensures LastBegun(Apply(w, s), Record(w, h, s))
  {
    StepMeaning(w, h, s);
    TasksOf(w, h, s, Apply(w, s).tasks);
  }

  lemma TasksOf(w: World, h: History, s: Step, tasks: multiset<Task>)
    requires Enabled(w, h, s) && LastBegun(w, h) && tasks == NextTasks(w, s)
    ensures LastBegun(w.(tasks := tasks), Record(w, h, s))
  {
  }

  /** Over every run that goes on: so a node that was in error when its task began is never in its processor. */
  lemma {:induction false} OnlyTheLastRuns(w: World, h: History, steps: seq<Step>)
    requires Inv(w, h) && Possible(w, h, steps) && LastBegun(w, h)
    ensures var (v, g) := After(w, h, steps); LastBegun(v, g)
    decreases steps
  {
    if steps != [] {
      StepKeepsLast(w, h, steps[0]);
      StepKeeps(w, h, steps[0]);
      OnlyTheLastRuns(Apply(w, steps[0]), Record(w, h, steps[0]), steps[1..]);
    }
  }
}
