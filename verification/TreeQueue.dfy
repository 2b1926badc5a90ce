/** The queue of one reply tree: which node is being processed, which wait, and what cancelling does to
    both. */
module TreeQueues {
  import opened Prelude
  import opened MessageTrees

  /** Where the task of a node is: not begun, inside the processor, unwinding before it has given up
      the current node, or about to look for the next node. */
  datatype Task = Created(node: string) | Running(node: string) | Unwinding(node: string) | Advancing

  /** The tree with its queue, and the tasks the event loop holds for it. */
  datatype World = World(
    tree: Tree,
    waiting: seq<string>,
    index: set<string>,
    isProcessing: bool,
    current: Option<string>,
    tasks: multiset<Task>)

  datatype Outcome = Returned | Raised(message: string) | WasCancelled

  const CANCELLED := "Cancelled by user"
  const STALE := "Stale task cleaned up"

  predicate Active(t: Tree, id: string) {
    id in t.nodes && t.nodes[id].state != Completed && t.nodes[id].state != Errored
  }

  function Fail(t: Tree, id: string, message: string): Tree
    requires id in t.nodes
  {
    t.(nodes := t.nodes[id := Failed(t.nodes[id], message)])
  }

  function Put(w: World, id: string): World {
    w.(waiting := w.waiting + [id], index := w.index + {id})
  }

  function Remove(w: World, id: string): World {
    if id in w.index then w.(index := w.index - {id}, waiting := Without(w.waiting, id)) else w
  }

  /** Mark the node as current, and create its task if the tree still has it. */
  function Launch(w: World, id: string): World {
    w.(isProcessing := true, current := Some(id),
    tasks := if id in w.tree.nodes then w.tasks + multiset{Created(id)} else w.tasks)
  }

  function Enqueue(w: World, id: string): World {
    if w.isProcessing then Put(w, id) else Launch(w, id)
  }

  function Free(w: World): World {
    w.(isProcessing := false, current := None)
  }

  function ProcessNext(w: World): World {
    if w.waiting == [] then Free(w)
    else
      var p := w.(waiting := w.waiting[1..], index := w.index - {w.waiting[0]});
      if w.waiting[0] == "" then Free(p) else Launch(p, w.waiting[0])
  }

  function Begin(w: World, id: string, errored: bool): World {
    w.(tasks := w.tasks - multiset{Created(id)} + multiset{if errored then Advancing else Running(id)})
  }

  function Finish(w: World, id: string, outcome: Outcome): World {
    w.(tasks := w.tasks - multiset{Running(id)} + multiset{Unwinding(id)},
    tree := if outcome.Raised? && id in w.tree.nodes then Fail(w.tree, id, outcome.message) else w.tree)
  }

  function Clear(w: World, id: string): World {
    w.(tasks := w.tasks - multiset{Unwinding(id)} + multiset{Advancing}, current := None)
  }

  function Advance(w: World): World {
    ProcessNext(w.(tasks := w.tasks - multiset{Advancing}))
  }

  /** The current task is cancelled. Inside its processor it gets the exception there and goes on to
      unwind; before its first step, or while it waits for the lock, it ends at once. */
  function Interrupt(w: World): World {
    if w.current.Some? && Running(w.current.value) in w.tasks then w else w.(tasks := multiset{})
  }

  function InterruptAt(w: World, id: string): World {
    if w.current == Some(id) then Interrupt(w) else w
  }

  function CancelNode(w: World, id: string): World {
    if Active(w.tree, id) then Remove(InterruptAt(w, id), id).(tree := Fail(w.tree, id, CANCELLED)) else w
  }

  function CancelInBranch(w: World, id: string): World {
    if !Active(w.tree, id) then w
    else (if w.current == Some(id) then Interrupt(w) else Remove(w, id)).(tree := Fail(w.tree, id, CANCELLED))
  }

  function CancelEach(w: World, ids: seq<string>): World {
    if ids == [] then w
    else CancelInBranch(CancelEach(w, ids[..|ids| - 1]), ids[|ids| - 1])
  }

  /** Taking ids off the queue and failing their nodes, whatever their state. */
  function Drained(w: World): World
    decreases |w.waiting|
  {
    if w.waiting == [] then w
    else
      var id := w.waiting[0];
      Drained(w.(waiting := w.waiting[1..], index := w.index - {id},
              tree := if id in w.tree.nodes then Fail(w.tree, id, CANCELLED) else w.tree))
  }

  function CurrentCancelled(w: World): World {
    if w.tasks == multiset{} then w
    else Interrupt(w).(tree := if w.current.Some? && Active(w.tree, w.current.value) then Fail(w.tree, w.current.value, CANCELLED) else w.tree)
  }

  function Swept(t: Tree): Tree {
    t.(nodes := map id | id in t.nodes :: if Active(t, id) then Failed(t.nodes[id], STALE) else t.nodes[id])
  }

  function TreeCancelled(w: World): World {
    var v := Drained(CurrentCancelled(w));
    Free(v.(tree := Swept(v.tree)))
  }

  lemma {:induction false} CancelEachActive(w: World, ids: seq<string>, id: string)
    ensures Active(CancelEach(w, ids).tree, id) <==> Active(w.tree, id) && id !in ids
  {
    if ids != [] {
      CancelEachActive(w, ids[..|ids| - 1], id);
      assert ids == ids[..|ids| - 1] + [ids[|ids| - 1]];
    }
  }

  class TreeQueue {
    const tree: MessageTree
    var waiting: seq<string>
    var index: set<string>
    var isProcessing: bool
    var current: Option<string>
    var tasks: multiset<Task>

    ghost function View(): World
      reads this, tree
    {
      World(tree.View(), waiting, index, isProcessing, current, tasks)
    }

    constructor (tree: MessageTree)
      ensures this.tree == tree
      ensures View() == World(tree.View(), [], {}, false, None, multiset{})
    {
      this.tree := tree;
      waiting, index := [], {};
      isProcessing, current := false, None;
      tasks := multiset{};
    }

    method PutNowait(id: string)
      modifies this`waiting, this`index
      ensures View() == Put(old(View()), id)
    {
      waiting := waiting + [id];
      index := index + {id};
    }

    method GetNowait() returns (id: Option<string>)
      modifies this`waiting, this`index
      ensures id == if old(waiting) == [] then None else Some(old(waiting)[0])
      ensures View() == if id.None? then old(View()) else old(View()).(waiting := old(waiting)[1..], index := old(index) - {id.value})
    {
      if waiting == [] {
        return None;
      }
      id := Some(waiting[0]);
      waiting := waiting[1..];
      index := index - {id.value};
    }

    method RemoveIfPresent(id: string) returns (removed: bool)
      modifies this`waiting, this`index
      ensures View() == Remove(old(View()), id) && removed == (id in old(index))
    {
      if id !in index {
        return false;
      }
      index := index - {id};
      waiting := Without(waiting, id);
      return true;
    }

    method StartTask(id: string)
      modifies this`isProcessing, this`current, this`tasks
      ensures View() == Launch(old(View()), id)
    {
      isProcessing, current := true, Some(id);
      if id in tree.nodes {
        tasks := tasks + multiset{Created(id)};
      }
    }

    method EnqueueAndStart(id: string) returns (queued: bool)
      modifies this
      ensures View() == Enqueue(old(View()), id) && queued == old(isProcessing)
    {
      if isProcessing {
        PutNowait(id);
        return true;
      }
      StartTask(id);
      return false;
    }

    /** The locked part of _process_next, run by the task that is about to end. */
    method TakeNext()
      requires Advancing in tasks
      modifies this
      ensures View() == Advance(old(View()))
    {
      tasks := tasks - multiset{Advancing};
      var next := GetNowait();
      if next.None? || next.value == "" {
        isProcessing, current := false, None;
        return;
      }
      StartTask(next.value);
    }

    /** The first step of process_node: errored is the state of the node object the task was given. */
    method BeginNode(id: string, errored: bool)
      requires Created(id) in tasks
      modifies this`tasks
      ensures View() == Begin(old(View()), id, errored)
    {
      tasks := tasks - multiset{Created(id)};
      if errored {
        tasks := tasks + multiset{Advancing};
      } else {
        tasks := tasks + multiset{Running(id)};
      }
    }

    method EndNode(id: string, outcome: Outcome)
      requires Running(id) in tasks
      modifies this`tasks, tree`nodes
      ensures View() == Finish(old(View()), id, outcome)
    {
      tasks := tasks - multiset{Running(id)} + multiset{Unwinding(id)};
      if outcome.Raised? {
        tree.UpdateState(id, Errored, outcome.message);
      }
    }

    method ClearCurrentNode(id: string)
      requires Unwinding(id) in tasks
      modifies this`tasks, this`current
      ensures View() == Clear(old(View()), id)
    {
      current := None;
      tasks := tasks - multiset{Unwinding(id)} + multiset{Advancing};
    }

    method CancelCurrentTask()
      modifies this`tasks
      ensures View() == Interrupt(old(View()))
    {
      if current == None || Running(current.value) !in tasks {
        tasks := multiset{};
      }
    }

    method CancelOne(id: string) returns (cancelled: bool)
      modifies this`waiting, this`index, this`tasks, tree`nodes
      ensures View() == CancelNode(old(View()), id) && cancelled == Active(old(View()).tree, id)
    {
      if id !in tree.nodes {
        return false;
      }
      if tree.nodes[id].state == Completed || tree.nodes[id].state == Errored {
        return false;
      }
      if current == Some(id) {
        CancelCurrentTask();
      }
      var _ := RemoveIfPresent(id);
      tree.UpdateState(id, Errored, CANCELLED);
      return true;
    }

    method CancelActive(id: string)
      requires Active(tree.View(), id)
      modifies this`waiting, this`index, this`tasks, tree`nodes
      ensures View() == CancelInBranch(old(View()), id)
    {
      if current == Some(id) {
        CancelCurrentTask();
      } else {
        var _ := RemoveIfPresent(id);
      }
      tree.UpdateState(id, Errored, CANCELLED);
    }

    method CancelBranch(id: string) returns (cancelled: seq<string>)
      requires WellFormed(tree.View())
      modifies this`waiting, this`index, this`tasks, tree`nodes
      ensures exists ids :: Subtree(old(View()).tree, id, ids) && View() == CancelEach(old(View()), ids)
                            && forall x :: x in cancelled <==> x in ids && Active(old(View()).tree, x)
    {
      cancelled := [];
      var ids := tree.GetDescendants(id);
      for k := 0 to |ids|
        invariant View() == CancelEach(old(View()), ids[..k])
        invariant forall x :: x in cancelled <==> x in ids[..k] && Active(old(View()).tree, x)
      {
        var nid := ids[k];
        FirstsAndNext(ids, k);
        assert ids[..k + 1][..k] == ids[..k];
        CancelEachActive(old(View()), ids[..k], nid);
        if nid in tree.nodes && tree.nodes[nid].state != Completed && tree.nodes[nid].state != Errored {
          CancelActive(nid);
          cancelled := cancelled + [nid];
        }
      }
      assert ids[..|ids|] == ids;
      assert Subtree(old(View()).tree, id, ids);
    }

    method DrainQueue()
      modifies this`waiting, this`index, tree`nodes
      ensures View() == Drained(old(View()))
    {
      while waiting != []
        invariant Drained(View()) == Drained(old(View()))
        decreases |waiting|
      {
        var next := GetNowait();
        tree.UpdateState(next.value, Errored, CANCELLED);
      }
    }

    method SweepNode(id: string)
      requires id in tree.nodes
      modifies tree`nodes
      ensures tree.nodes == old(tree.nodes)[id := if Active(old(tree.View()), id) then Failed(old(tree.nodes)[id], STALE) else old(tree.nodes)[id]]
    {
      if tree.nodes[id].state == Pending || tree.nodes[id].state == InProgress {
        tree.UpdateState(id, Errored, STALE);
      }
    }

    method SweepNodes()
      modifies tree`nodes
      ensures View() == old(View()).(tree := Swept(old(View()).tree))
    {
      ghost var t := tree.View();
      var todo := tree.nodes.Keys;
      while todo != {}
        invariant todo <= t.nodes.Keys == tree.nodes.Keys && tree.View() == t.(nodes := tree.nodes)
        invariant forall id | id in t.nodes :: tree.nodes[id] == if id in todo then t.nodes[id] else Swept(t).nodes[id]
        decreases |todo|
      {
        var id :| id in todo;
        SweepNode(id);
        todo := todo - {id};
      }
      assert tree.nodes == Swept(t).nodes;
    }

    /** The queue manager's cancel_tree. */
    method CancelTree()
      modifies this, tree`nodes
      ensures View() == TreeCancelled(old(View()))
    {
      if tasks != multiset{} {
        CancelCurrentTask();
        if current.Some? && current.value in tree.nodes
           && tree.nodes[current.value].state != Completed && tree.nodes[current.value].state != Errored {
          tree.UpdateState(current.value, Errored, CANCELLED);
        }
      }
      DrainQueue();
      SweepNodes();
      isProcessing, current := false, None;
    }
  }

  ghost predicate Subtree(t: Tree, a: string, ids: seq<string>) {
    Distinct(ids) && (forall x :: x in ids <==> a in t.nodes && x in t.nodes && Below(t, a, x))
  }
}
