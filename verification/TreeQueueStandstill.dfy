/** When the processing of a tree comes to a standstill, and how it gets going again. */
module TreeQueueStandstill {
  import opened Prelude
  import opened MessageTrees
  import opened TreeQueues
  import opened TreeQueueSafety

  /** The tree counts as processing, and no task is left that would free it. */
  predicate Stalled(w: World) {
    w.isProcessing && w.tasks == multiset{}
  }

  /** The step makes a node current that the tree does not have. */
  predicate StartsMissing(w: World, s: Step) {
    match s
    case EnqueueStep(id) => !w.isProcessing && id !in w.tree.nodes
    case AdvanceStep => w.waiting != [] && w.waiting[0] !in w.tree.nodes
    case _ => false
  }

  /** One of ids is the current node, still active, and its task is not inside its processor. */
  predicate HitsOutside(w: World, ids: seq<string>) {
    w.current.Some? && w.current.value in ids && Active(w.tree, w.current.value) && Running(w.current.value) !in w.tasks
  }

  /** The step cancels the current task where it ends without looking for the next node. */
  predicate EndsTask(w: World, s: Step) {
    match s
    case CancelStep(id) => HitsOutside(w, [id])
    case CancelBranchStep(ids) => HitsOutside(w, ids)
    case _ => false
  }

  lemma {:induction false} CancelEachTasks(w: World, ids: seq<string>)
    ensures var v := CancelEach(w, ids);
            && v.tasks == (if HitsOutside(w, ids) then multiset{} else w.tasks)
            && v.isProcessing == w.isProcessing && v.current == w.current
            && v.tree.nodes.Keys == w.tree.nodes.Keys && v.tree.rootId == w.tree.rootId
            && (forall id :: Active(v.tree, id) <==> Active(w.tree, id) && id !in ids)
  {
    if ids != [] {
      var front, last := ids[..|ids| - 1], ids[|ids| - 1];
      CancelEachTasks(w, front);
      CancelOneTasks(CancelEach(w, front), last);
      assert ids == front + [last];
    }
  }

  lemma CancelOneTasks(u: World, id: string)
    ensures var v := CancelInBranch(u, id);
            && v.tasks == (if HitsOutside(u, [id]) then multiset{} else u.tasks)
            && v.isProcessing == u.isProcessing && v.current == u.current
            && v.tree.nodes.Keys == u.tree.nodes.Keys && v.tree.rootId == u.tree.rootId
            && (forall other :: Active(v.tree, other) <==> Active(u.tree, other) && other != id)
  {
  }

  lemma LaunchStalls(w: World, id: string)
    requires w.tasks == multiset{}
    ensures Stalled(Launch(w, id)) <==> id !in w.tree.nodes
  {
    assert Created(id) in w.tasks + multiset{Created(id)};
  }

  lemma AdvanceStalls(w: World)
    requires |w.tasks| <= 1 && Advancing in w.tasks && "" !in w.waiting
    ensures Stalled(Advance(w)) <==> w.waiting != [] && w.waiting[0] !in w.tree.nodes
  {
    OnlyTask(w.tasks, Advancing);
    var u := w.(tasks := w.tasks - multiset{Advancing});
    assert u.tasks == multiset{};
    if w.waiting != [] {
      assert w.waiting[0] in w.waiting;
      LaunchStalls(u.(waiting := u.waiting[1..], index := u.index - {w.waiting[0]}), w.waiting[0]);
    }
  }

  lemma KeepsATask(tasks: multiset<Task>, before: Task, after: Task)
    ensures tasks - multiset{before} + multiset{after} != multiset{}
  {
    assert after in tasks - multiset{before} + multiset{after};
  }

  lemma EnqueueStalls(w: World, id: string)
    requires !Stalled(w) && (w.tasks != multiset{} ==> w.isProcessing)
    ensures Stalled(Enqueue(w, id)) <==> StartsMissing(w, EnqueueStep(id))
  {
    if !w.isProcessing {
      LaunchStalls(w, id);
    }
  }

  lemma TaskStepsGoOn(w: World, s: Step)
    requires s.BeginStep? || s.FinishStep? || s.ClearStep?
    ensures !Stalled(Apply(w, s))
  {
    match s
    case BeginStep(id, errored) => KeepsATask(w.tasks, Created(id), if errored then Advancing else Running(id));
    case FinishStep(id, outcome) => KeepsATask(w.tasks, Running(id), Unwinding(id));
    case ClearStep(id) => KeepsATask(w.tasks, Unwinding(id), Advancing);
    case _ =>
  }

  lemma CancelStalls(w: World, s: Step)
    requires !Stalled(w) && (!w.isProcessing ==> w.current == None)
    requires s.CancelStep? || s.CancelBranchStep?
    ensures Stalled(Apply(w, s)) <==> EndsTask(w, s)
  {
    if s.CancelBranchStep? {
      CancelEachTasks(w, s.ids);
    }
  }

  /** A tree comes to a standstill exactly when it turns to a node that is no longer in it, or when its
      task is cancelled before its node has begun or after it has ended. */
  lemma StallsExactlyWhen(w: World, h: History, s: Step)
    requires Inv(w, h) && Enabled(w, h, s) && !Stalled(w)
    ensures Stalled(Apply(w, s)) <==> StartsMissing(w, s) || EndsTask(w, s)
  {
    match s
    case EnqueueStep(id) => EnqueueStalls(w, id);
    case AdvanceStep =>
      WaitingIsUnpicked(w, h);
      AdvanceStalls(w);
    case CancelStep(id) => CancelStalls(w, s);
    case CancelBranchStep(ids) => CancelStalls(w, s);
    case CancelTreeStep =>
    case TreeStep(_) =>
    case _ => TaskStepsGoOn(w, s);
  }

  // ---------------------------------------------------------------------------------------------
  // Getting going again
  // ---------------------------------------------------------------------------------------------

  /** Of all steps only the cancellation of the whole tree ends a standstill, and none begins a node. */
  lemma OnlyTreeCancelRevives(w: World, h: History, s: Step)
    requires Inv(w, h) && Enabled(w, h, s) && Stalled(w)
    ensures Stalled(Apply(w, s)) <==> !s.CancelTreeStep?
    ensures Record(w, h, s).begun == h.begun
  {
    if s.CancelBranchStep? {
      CancelEachTasks(w, s.ids);
    }
  }

  predicate HasTreeCancel(steps: seq<Step>) {
    exists k | 0 <= k < |steps| :: steps[k].CancelTreeStep?
  }

  /** So until then nothing that is enqueued is ever begun. */
  lemma {:induction false} StalledUntilTreeCancel(w: World, h: History, steps: seq<Step>)
    requires Inv(w, h) && Possible(w, h, steps) && Stalled(w) && !HasTreeCancel(steps)
    ensures var (v, g) := After(w, h, steps); Stalled(v) && g.begun == h.begun
    decreases steps
  {
    if steps != [] {
      assert forall k | 0 <= k < |steps[1..]| :: steps[1..][k] == steps[k + 1];
      OnlyTreeCancelRevives(w, h, steps[0]);
      StepKeeps(w, h, steps[0]);
      StalledUntilTreeCancel(Apply(w, steps[0]), Record(w, h, steps[0]), steps[1..]);
    }
  }

  function Reviving(tree: Tree, id: string): seq<Step> {
    [CancelTreeStep] + ([TreeStep(tree)] + ([EnqueueStep(id)] + ([BeginStep(id, false)] + [])))
  }

  lemma StartsAlone(w: World, id: string)
    requires !w.isProcessing && w.tasks == multiset{} && id in w.tree.nodes
    ensures var v := Apply(w, EnqueueStep(id)); v.tree == w.tree && v.tasks == multiset{Created(id)}
  {
  }

  /** And it does: after it, the next reply that is added and enqueued begins. */
  lemma TreeCancelRevives(w: World, h: History, tree: Tree, id: string)
    requires Inv(w, h) && Stalled(w)
    requires id != "" && id !in h.enqueued && id in tree.nodes && tree.nodes[id].state != Errored
    ensures Possible(w, h, Reviving(tree, id)) && After(w, h, Reviving(tree, id)).1.begun == h.begun + [id]
  {
    var w1, h1 := Apply(w, CancelTreeStep), Record(w, h, CancelTreeStep);
    var w2 := w1.(tree := tree);
    var w3, h3 := Apply(w2, EnqueueStep(id)), Record(w2, h1, EnqueueStep(id));
    DrainedIsEmpty(CurrentCancelled(w));
    StartsAlone(w2, id);
    Goes(w3, h3, BeginStep(id, false), []);
    Goes(w2, h1, EnqueueStep(id), [BeginStep(id, false)] + []);
    Goes(w1, h1, TreeStep(tree), [EnqueueStep(id)] + ([BeginStep(id, false)] + []));
    Goes(w, h, CancelTreeStep, [TreeStep(tree)] + ([EnqueueStep(id)] + ([BeginStep(id, false)] + [])));
  }

  // ---------------------------------------------------------------------------------------------
  // Runs that never stand still
  // ---------------------------------------------------------------------------------------------

  predicate QueuedAreKnown(w: World) {
    forall id | id in w.waiting :: id in w.tree.nodes
  }

  /** Only nodes of the tree are enqueued, no waiting node is taken out of the tree, and the current
      task is cancelled inside its processor only. */
  predicate Careful(w: World, s: Step) {
    match s
    case EnqueueStep(id) => id in w.tree.nodes
    case TreeStep(tree) => QueuedAreKnown(w.(tree := tree))
    case _ => !EndsTask(w, s)
  }

  predicate CarefulRun(w: World, steps: seq<Step>)
    decreases steps
  {
    steps == [] || (Careful(w, steps[0]) && CarefulRun(Apply(w, steps[0]), steps[1..]))
  }

  lemma {:induction false} CancelEachWaits(w: World, ids: seq<string>)
    ensures forall id | id in CancelEach(w, ids).waiting :: id in w.waiting
    ensures w.waiting == [] ==> CancelEach(w, ids).waiting == []
  {
    if ids != [] {
      CancelEachWaits(w, ids[..|ids| - 1]);
    }
  }

  lemma QueueStaysKnown(w: World, s: Step)
    requires Careful(w, s) && QueuedAreKnown(w)
    ensures QueuedAreKnown(Apply(w, s))
  {
    match s
    case CancelBranchStep(ids) =>
      CancelEachTasks(w, ids);
      CancelEachWaits(w, ids);
    case CancelTreeStep => DrainedIsEmpty(CurrentCancelled(w));
    case _ =>
  }

  lemma CarefulStep(w: World, h: History, s: Step)
    requires Inv(w, h) && Enabled(w, h, s) && Careful(w, s) && QueuedAreKnown(w) && !Stalled(w)
    ensures QueuedAreKnown(Apply(w, s)) && !Stalled(Apply(w, s))
  {
    StallsExactlyWhen(w, h, s);
    QueueStaysKnown(w, s);
    assert s.AdvanceStep? && w.waiting != [] ==> w.waiting[0] in w.waiting;
  }

  /** A careful run never comes to a standstill. When no task is left, everything that was enqueued has
      been picked or cancelled, and the tree is free. */
  lemma {:induction false} CarefulRunsGoOn(w: World, h: History, steps: seq<Step>)
    requires Inv(w, h) && Possible(w, h, steps) && CarefulRun(w, steps) && QueuedAreKnown(w) && !Stalled(w)
    ensures var (v, g) := After(w, h, steps);
            && !Stalled(v) && QueuedAreKnown(v)
            && (v.tasks == multiset{} ==> !v.isProcessing && v.waiting == [])
    decreases steps
  {
    if steps != [] {
      StepKeeps(w, h, steps[0]);
      CarefulStep(w, h, steps[0]);
      CarefulRunsGoOn(Apply(w, steps[0]), Record(w, h, steps[0]), steps[1..]);
    }
  }
}
