/** Clearing a branch of replies: its nodes are cancelled, and after a while removed. */
module BranchClearing {
  import opened Prelude
  import opened MessageTrees
  import opened TreeQueues
  import opened TreeQueueSafety
  import opened TreeQueueStandstill

  /** The active ones among ids have failed, and those of them that are not current no longer wait. The
      task of the current one is interrupted. */
  ghost predicate CancelledAre(w: World, ids: seq<string>, v: World) {
    && v == w.(tree := v.tree, waiting := v.waiting, index := v.index, tasks := v.tasks)
    && v.tasks == (if HitsOutside(w, ids) then multiset{} else w.tasks)
    && v.tree == w.tree.(nodes := v.tree.nodes) && v.tree.nodes.Keys == w.tree.nodes.Keys
    && (forall id | id in w.tree.nodes ::
          v.tree.nodes[id] == if id in ids && Active(w.tree, id) then Failed(w.tree.nodes[id], CANCELLED) else w.tree.nodes[id])
    && (forall id :: id in v.waiting <==> id in w.waiting && !(id in ids && Active(w.tree, id) && w.current != Some(id)))
  }

  lemma CancelOneMore(w: World, ids: seq<string>, u: World, id: string)
    requires CancelledAre(w, ids, u) && InStep(u) && id !in ids
    ensures CancelledAre(w, ids + [id], CancelInBranch(u, id))
  {
    assert Active(u.tree, id) <==> Active(w.tree, id);
    RemoveHas(u, id);
  }

  /** Cancelling a list of nodes does that and nothing else. */
  lemma {:induction false} CancelEachMeaning(w: World, h: History, ids: seq<string>)
    requires Inv(w, h) && Distinct(ids)
    ensures CancelledAre(w, ids, CancelEach(w, ids))
    decreases ids
  {
    if ids != [] {
      var front, last := ids[..|ids| - 1], ids[|ids| - 1];
      CancelEachMeaning(w, h, front);
      CancelEachForgets(w, h, front);
      assert ids == front + [last];
      CancelOneMore(w, front, CancelEach(w, front), last);
    }
  }

  lemma RemoveHas(w: World, id: string)
    requires InStep(w)
    ensures forall other :: other in Remove(w, id).waiting <==> other in w.waiting && other != id
  {
  }

  lemma SameBelow(t: Tree, u: Tree, a: string, x: string)
    requires u.nodes.Keys == t.nodes.Keys
    requires forall y | y in t.nodes :: u.nodes[y].parent == t.nodes[y].parent
    ensures Below(u, a, x) <==> Below(t, a, x)
  {
    if Below(t, a, x) {
      var n: nat :| Climbs(t, x, a, n, false);
      SameClimb(t, u, x, a, n);
    }
    if Below(u, a, x) {
      var n: nat :| Climbs(u, x, a, n, false);
      SameClimb(u, t, x, a, n);
    }
  }

  lemma SameBelowAll(t: Tree, u: Tree, a: string)
    requires u.nodes.Keys == t.nodes.Keys
    requires forall y | y in t.nodes :: u.nodes[y].parent == t.nodes[y].parent
    ensures forall x {:trigger Below(u, a, x)} :: Below(u, a, x) <==> Below(t, a, x)
  {
    forall x
      ensures Below(u, a, x) <==> Below(t, a, x) {
      SameBelow(t, u, a, x);
    }
  }

  // ---------------------------------------------------------------------------------------------
  // When the removal leaves a queued id without a node
  // ---------------------------------------------------------------------------------------------

  /** No node of the branch waits. */
  ghost predicate NoneWaitsBelow(w: World, a: string) {
    forall id | id in w.waiting :: !Below(w.tree, a, id)
  }

  /** remove_branch: the root's branch is removed by cancelling the whole tree, any other is pruned. */
  function Removed(w: World, a: string, pruned: Tree): World {
    if a == w.tree.rootId then TreeCancelled(w) else w.(tree := pruned)
  }

  /** What counts is the moment of the removal: all queued ids keep their node if and only if the branch
      is the root's, or none of it waits then. */
  lemma RemovalLeavesNoOrphan(w: World, a: string, pruned: Tree)
    requires QueuedAreKnown(w) && (a != w.tree.rootId ==> IsPruned(w.tree, a, pruned))
    ensures QueuedAreKnown(Removed(w, a, pruned)) <==> a == w.tree.rootId || NoneWaitsBelow(w, a)
  {
    if a == w.tree.rootId {
      TreeCancelMeaning(w);
    }
  }

  /** Removing the root's branch never leads to a standstill, whatever happened before it: the tree is
      free, nothing waits in it and none of its nodes is active. */
  lemma RemovingTheRootFrees(w: World, pruned: Tree)
    ensures var v := Removed(w, w.tree.rootId, pruned);
            && !Stalled(v) && !v.isProcessing && v.waiting == [] && (forall id :: !Active(v.tree, id))
  {
    TreeCancelMeaning(w);
  }

  /** Cancelling the branch brings that about if and only if every waiting node of it was still active:
      cancel_branch passes over nodes already in error, which stay in the queue. */
  lemma CancellingClears(w: World, h: History, a: string, ids: seq<string>)
    requires Inv(w, h) && QueuedAreKnown(w) && a in w.tree.nodes && Subtree(w.tree, a, ids)
    ensures NoneWaitsBelow(CancelEach(w, ids), a) <==> forall id | id in w.waiting && Below(w.tree, a, id) :: Active(w.tree, id)
  {
    var v := CancelEach(w, ids);
    CancelEachMeaning(w, h, ids);
    WaitingIsUnpicked(w, h);
    SameBelowAll(w.tree, v.tree, a);
    forall id | id in w.waiting
      ensures id in v.waiting <==> !(Below(w.tree, a, id) && Active(w.tree, id)) {
      assert id in w.tree.nodes && w.current != Some(id);
    }
  }

  /** Until the removal, only a reply in the branch that is enqueued behind another, or a change of the
      tree that moves a waiting node there, undoes it. */
  ghost predicate KeepsClear(w: World, s: Step, a: string) {
    match s
    case EnqueueStep(id) => w.isProcessing ==> !Below(w.tree, a, id)
    case TreeStep(tree) => NoneWaitsBelow(w.(tree := tree), a)
    case _ => true
  }

  lemma CancelOneKeepsParents(t: Tree, id: string, message: string, a: string)
    requires id in t.nodes
    ensures forall x {:trigger Below(Fail(t, id, message), a, x)} :: Below(Fail(t, id, message), a, x) <==> Below(t, a, x)
  {
    SameBelowAll(t, Fail(t, id, message), a);
  }

  lemma StepKeepsClear(w: World, h: History, s: Step, a: string)
    requires Inv(w, h) && Enabled(w, h, s) && NoneWaitsBelow(w, a)
    ensures NoneWaitsBelow(Apply(w, s), a) <==> KeepsClear(w, s, a)
  {
    match s
    case EnqueueStep(id) =>
    case FinishStep(id, outcome) =>
      if outcome.Raised? && id in w.tree.nodes {
        CancelOneKeepsParents(w.tree, id, outcome.message, a);
      }
    case CancelStep(id) =>
      if Active(w.tree, id) {
        CancelOneKeepsParents(w.tree, id, CANCELLED, a);
        RemoveHas(InterruptAt(w, id), id);
      }
    case CancelBranchStep(ids) =>
      CancelEachWaits(w, ids);
      CancelEachParents(w, ids);
      SameBelowAll(w.tree, CancelEach(w, ids).tree, a);
    case CancelTreeStep => DrainedIsEmpty(CurrentCancelled(w));
    case _ =>
  }

  lemma {:induction false} CancelEachParents(w: World, ids: seq<string>)
    ensures var u := CancelEach(w, ids).tree;
            u.nodes.Keys == w.tree.nodes.Keys && forall y | y in w.tree.nodes :: u.nodes[y].parent == w.tree.nodes[y].parent
  {
    if ids != [] {
      CancelEachParents(w, ids[..|ids| - 1]);
    }
  }

  ghost predicate KeepClear(w: World, steps: seq<Step>, a: string)
    decreases steps
  {
    steps == [] || (KeepsClear(w, steps[0], a) && KeepClear(Apply(w, steps[0]), steps[1..], a))
  }

  lemma {:induction false} RunKeepsClear(w: World, h: History, steps: seq<Step>, a: string)
    requires Inv(w, h) && Possible(w, h, steps) && NoneWaitsBelow(w, a) && KeepClear(w, steps, a)
    ensures NoneWaitsBelow(After(w, h, steps).0, a)
    decreases steps
  {
    if steps != [] {
      StepKeepsClear(w, h, steps[0], a);
      StepKeeps(w, h, steps[0]);
      RunKeepsClear(Apply(w, steps[0]), Record(w, h, steps[0]), steps[1..], a);
    }
  }

  /** Clearing a branch over time: it is cancelled, other things happen, it is removed. No queued id
      loses its node if and only if the branch is the root's or none of it waits at the end; and that is
      so if every waiting node of it was active when it was cancelled and no step in between undid it. */
  lemma ClearingLeavesNoOrphan(w: World, h: History, a: string, ids: seq<string>, between: seq<Step>, u: Tree)
    requires Inv(w, h) && QueuedAreKnown(w) && a in w.tree.nodes && Subtree(w.tree, a, ids)
    requires var v, g := CancelEach(w, ids), Record(w, h, CancelBranchStep(ids));
             var z := After(v, g, between).0;
             Possible(v, g, between) && QueuedAreKnown(z) && (a != z.tree.rootId ==> IsPruned(z.tree, a, u))
    ensures var v, g := CancelEach(w, ids), Record(w, h, CancelBranchStep(ids));
            var z := After(v, g, between).0;
            && (QueuedAreKnown(Removed(z, a, u)) <==> a == z.tree.rootId || NoneWaitsBelow(z, a))
            && ((forall id | id in w.waiting && Below(w.tree, a, id) :: Active(w.tree, id)) && KeepClear(v, between, a)
                ==> NoneWaitsBelow(z, a))
  {
    var v, g := CancelEach(w, ids), Record(w, h, CancelBranchStep(ids));
    RemovalLeavesNoOrphan(After(v, g, between).0, a, u);
    CancellingClears(w, h, a, ids);
    StepKeeps(w, h, CancelBranchStep(ids));
    if NoneWaitsBelow(v, a) && KeepClear(v, between, a) {
      RunKeepsClear(v, g, between, a);
    }
  }

  // ---------------------------------------------------------------------------------------------
  // A reply that comes while its branch is cleared
  // ---------------------------------------------------------------------------------------------

  /** The branch is cancelled; a reply in it is added and enqueued; the branch is removed; the node in
      work ends, and the next is looked for. */
  function LateReply(ids: seq<string>, grown: Tree, reply: string, pruned: Tree, working: string): seq<Step> {
    [CancelBranchStep(ids)] + ([TreeStep(grown)] + ([EnqueueStep(reply)] + ([TreeStep(pruned)] + Ending(working))))
  }

  function Ending(working: string): seq<Step> {
    [FinishStep(working, Returned)] + ([ClearStep(working)] + ([AdvanceStep] + []))
  }

  lemma EndingStalls(w: World, h: History, working: string, missing: string)
    requires w.tasks == multiset{Running(working)} && w.waiting != [] && w.waiting[0] == missing != ""
    requires missing !in w.tree.nodes
    ensures Possible(w, h, Ending(working)) && Stalled(After(w, h, Ending(working)).0)
  {
    var w1 := Apply(w, FinishStep(working, Returned));
    var w2 := Apply(w1, ClearStep(working));
    assert w1.tasks == multiset{Unwinding(working)} && w2.tasks == multiset{Advancing};
    assert Stalled(Apply(w2, AdvanceStep)) by {
      assert multiset{Advancing} - multiset{Advancing} == multiset{};
    }
    Goes(w2, h, AdvanceStep, []);
    Goes(w1, h, ClearStep(working), [AdvanceStep] + []);
    Goes(w, h, FinishStep(working, Returned), [ClearStep(working)] + ([AdvanceStep] + []));
  }

  /** Cancelling a branch leaves the task of a node in its processor alone. */
  lemma CancelEachGoesOn(w: World, h: History, ids: seq<string>, working: string)
    requires Inv(w, h) && Running(working) in w.tasks
    ensures var v, g := CancelEach(w, ids), Record(w, h, CancelBranchStep(ids));
            && v.tasks == multiset{Running(working)} && v.isProcessing && g.enqueued == h.enqueued
            && (w.waiting == [] ==> v.waiting == [])
  {
    CancelEachTasks(w, ids);
    CancelEachWaits(w, ids);
    OnlyTask(w.tasks, Running(working));
  }

  lemma ReplyGoesToo(t: Tree, u: Tree, a: string, ids: seq<string>, parent: string, reply: string, status: string, pruned: Tree)
    requires Subtree(t, a, ids) && parent in ids && parent in u.nodes && reply !in t.nodes
    requires u.nodes.Keys == t.nodes.Keys && forall y | y in t.nodes :: u.nodes[y].parent == t.nodes[y].parent
    requires IsPruned(Added(u, reply, status, parent), a, pruned)
    ensures reply !in pruned.nodes
  {
    var grown := Added(u, reply, status, parent);
    var n: nat :| Climbs(t, parent, a, n, false);
    SameClimb(t, grown, parent, a, n);
    assert grown.nodes[reply].parent == Some(parent);
    assert Climbs(grown, reply, a, n + 1, false);
    assert Below(grown, a, reply);
  }

  lemma ReplyInBetween(v: World, g: History, working: string, reply: string, grown: Tree, pruned: Tree)
    requires v.tasks == multiset{Running(working)} && v.isProcessing && v.waiting == []
    requires reply != "" && reply !in g.enqueued && reply !in pruned.nodes
    ensures var steps := [TreeStep(grown)] + ([EnqueueStep(reply)] + ([TreeStep(pruned)] + Ending(working)));
            Possible(v, g, steps) && Stalled(After(v, g, steps).0)
  {
    var v1 := v.(tree := grown);
    var v2, g2 := Apply(v1, EnqueueStep(reply)), Record(v1, g, EnqueueStep(reply));
    EndingStalls(v2.(tree := pruned), g2, working, reply);
    Goes(v2, g2, TreeStep(pruned), Ending(working));
    Goes(v1, g, EnqueueStep(reply), [TreeStep(pruned)] + Ending(working));
    Goes(v, g, TreeStep(grown), [EnqueueStep(reply)] + ([TreeStep(pruned)] + Ending(working)));
  }

  /** While any node is in its processor and nothing waits: clearing a branch other than the root's that
      is answered in between ends in a standstill, although no waiting node was in error. */
  lemma LateReplyStalls(w: World, h: History, working: string, a: string, ids: seq<string>, parent: string, reply: string,
                        status: string, pruned: Tree)
    requires Inv(w, h) && Running(working) in w.tasks && w.waiting == [] && Subtree(w.tree, a, ids)
    requires a != w.tree.rootId && parent in ids && parent in CancelEach(w, ids).tree.nodes
    requires reply != "" && reply !in h.enqueued && reply !in w.tree.nodes
    requires IsPruned(Added(CancelEach(w, ids).tree, reply, status, parent), a, pruned)
    ensures var steps := LateReply(ids, Added(CancelEach(w, ids).tree, reply, status, parent), reply, pruned, working);
            Possible(w, h, steps) && Stalled(After(w, h, steps).0)
  {
    var v, g := CancelEach(w, ids), Record(w, h, CancelBranchStep(ids));
    var grown := Added(v.tree, reply, status, parent);
    CancelEachGoesOn(w, h, ids, working);
    CancelEachParents(w, ids);
    ReplyGoesToo(w.tree, v.tree, a, ids, parent, reply, status, pruned);
    ReplyInBetween(v, g, working, reply, grown, pruned);
    Goes(w, h, CancelBranchStep(ids), [TreeStep(grown)] + ([EnqueueStep(reply)] + ([TreeStep(pruned)] + Ending(working))));
  }

  // ---------------------------------------------------------------------------------------------
  // A reply that failed with its parent
  // ---------------------------------------------------------------------------------------------

  function Clearing(ids: seq<string>, pruned: Tree, working: string): seq<Step> {
    [CancelBranchStep(ids)] + ([TreeStep(pruned)] + Ending(working))
  }

  lemma {:induction false} WithoutKeepsHead(s: seq<string>, x: string)
    requires s != [] && s[0] != x
    ensures Without(s, x) != [] && Without(s, x)[0] == s[0]
  {
    if |s| > 1 {
      WithoutKeepsHead(s[..|s| - 1], x);
    } else {
      assert s[..|s| - 1] == [];
    }
  }

  lemma {:induction false} CancelEachKeepsHead(w: World, ids: seq<string>)
    requires w.waiting != [] && !Active(w.tree, w.waiting[0])
    ensures var v := CancelEach(w, ids);
            v.waiting != [] && v.waiting[0] == w.waiting[0] && !Active(v.tree, w.waiting[0])
  {
    if ids != [] {
      var u, id := CancelEach(w, ids[..|ids| - 1]), ids[|ids| - 1];
      CancelEachKeepsHead(w, ids[..|ids| - 1]);
      if id != u.waiting[0] {
        WithoutKeepsHead(u.waiting, id);
      }
    }
  }

  lemma RemovalStalls(v: World, g: History, working: string, missing: string, pruned: Tree)
    requires v.tasks == multiset{Running(working)} && v.waiting != [] && v.waiting[0] == missing != ""
    requires missing !in pruned.nodes
    ensures var steps := [TreeStep(pruned)] + Ending(working); Possible(v, g, steps) && Stalled(After(v, g, steps).0)
  {
    EndingStalls(v.(tree := pruned), g, working, missing);
    Goes(v, g, TreeStep(pruned), Ending(working));
  }

  lemma WaitsForNobody(w: World, h: History, a: string, ids: seq<string>, t: Tree, pruned: Tree)
    requires Inv(w, h) && w.waiting != [] && Subtree(w.tree, a, ids) && w.waiting[0] in ids && IsPruned(t, a, pruned)
    requires t.nodes.Keys == w.tree.nodes.Keys && forall y | y in w.tree.nodes :: t.nodes[y].parent == w.tree.nodes[y].parent
    ensures w.waiting[0] !in pruned.nodes && w.waiting[0] != ""
  {
    SameBelow(w.tree, t, a, w.waiting[0]);
    WaitingIsUnpicked(w, h);
    assert w.waiting[0] in w.waiting;
  }

  /** While any node is in its processor: clearing a branch other than the root's whose node is next in
      the queue, but was marked as failed before, ends in a standstill. */
  lemma FailedReplyStalls(w: World, h: History, working: string, a: string, ids: seq<string>, pruned: Tree)
    requires Inv(w, h) && Running(working) in w.tasks && Subtree(w.tree, a, ids) && a != w.tree.rootId
    requires w.waiting != [] && w.waiting[0] in ids && !Active(w.tree, w.waiting[0])
    requires IsPruned(CancelEach(w, ids).tree, a, pruned)
    ensures Possible(w, h, Clearing(ids, pruned, working)) && Stalled(After(w, h, Clearing(ids, pruned, working)).0)
  {
    var v, g := CancelEach(w, ids), Record(w, h, CancelBranchStep(ids));
    CancelEachGoesOn(w, h, ids, working);
    CancelEachKeepsHead(w, ids);
    CancelEachParents(w, ids);
    WaitsForNobody(w, h, a, ids, v.tree, pruned);
    RemovalStalls(v, g, working, w.waiting[0], pruned);
    Goes(w, h, CancelBranchStep(ids), [TreeStep(pruned)] + Ending(working));
  }

  // Such a run from the start: a reply waits while its parent is processed; the parent's failure is
  // propagated to it; the reply's branch is cleared.

  function Reply(state: State, error: string): Node {
    Node("2", "s2", state, Some("1"), [], error)
  }

  function Parent(state: State, error: string, children: seq<string>): Node {
    Node("1", "s1", state, None, children, error)
  }

  function WithReply(state: State, error: string, replyError: string): Tree {
    Tree("1", map["1" := Parent(state, error, ["2"]), "2" := Reply(state, replyError)], map["s1" := "1", "s2" := "2"])
  }

  lemma ReplyIsBelow(state: State, error: string, replyError: string)
    ensures var t := WithReply(state, error, replyError);
            && Below(t, "2", "2") && !Below(t, "2", "1") && (state == Pending ==> Reaches(t, "1", "2", true))
  {
    var t := WithReply(state, error, replyError);
    assert Climbs(t, "2", "2", 0, false);
    if state == Pending {
      assert Climbs(t, "1", "1", 0, true);
      assert Climbs(t, "2", "1", 1, true);
    }
  }

  function Waiting(failed: Tree): seq<Step> {
    [EnqueueStep("1")] + ([BeginStep("1", false)] + ([EnqueueStep("2")] + ([TreeStep(failed)] + [])))
  }

  lemma ReplyWaits(t: Tree, failed: Tree)
    requires "1" in t.nodes && t.nodes["1"].state == Pending
    ensures Possible(Start(t), NOTHING_YET, Waiting(failed))
    ensures var w := After(Start(t), NOTHING_YET, Waiting(failed)).0;
            w.tree == failed && w.waiting == ["2"] && w.tasks == multiset{Running("1")}
  {
    var w0, h0 := Start(t), NOTHING_YET;
    var w1, h1 := Apply(w0, EnqueueStep("1")), Record(w0, h0, EnqueueStep("1"));
    var w2, h2 := Apply(w1, BeginStep("1", false)), Record(w1, h1, BeginStep("1", false));
    var w3, h3 := Apply(w2, EnqueueStep("2")), Record(w2, h2, EnqueueStep("2"));
    StartsAlone(w0, "1");
    assert w2.tasks == multiset{Running("1")} && w3.waiting == ["2"];
    Goes(w3, h3, TreeStep(failed), []);
    Goes(w2, h2, EnqueueStep("2"), [TreeStep(failed)] + []);
    Goes(w1, h1, BeginStep("1", false), [EnqueueStep("2")] + ([TreeStep(failed)] + []));
    Goes(w0, h0, EnqueueStep("1"), [BeginStep("1", false)] + ([EnqueueStep("2")] + ([TreeStep(failed)] + [])));
  }

  lemma ReplyIsPassedOver(w: World)
    requires !Active(w.tree, "2")
    ensures CancelEach(w, ["2"]) == w
  {
    assert CancelEach(w, ["2"]) == CancelInBranch(CancelEach(w, ["2"][..0]), "2");
  }

  lemma FailedAndPruned() returns (failed: Tree, pruned: Tree)
    ensures IsMarked(WithReply(Pending, "", ""), "1", "boom", true, failed)
    ensures Subtree(failed, "2", ["2"]) && IsPruned(failed, "2", pruned) && !Active(failed, "2") && failed.rootId == "1"
  {
    failed := WithReply(Errored, "boom", PARENT_FAILED + "boom");
    pruned := Tree("1", map["1" := Parent(Errored, "boom", [])], map["s1" := "1"]);
    ReplyIsBelow(Pending, "", "");
    ReplyIsBelow(Errored, "boom", PARENT_FAILED + "boom");
    assert Without(["2"], "2") == Without([], "2");
  }

  /** The failure of the parent is propagated and the branch of the reply is cleared as the source does
      it, and the tree comes to a standstill. */
  lemma ClearingAFailedReplyStalls() returns (failed: Tree, pruned: Tree)
    ensures IsMarked(WithReply(Pending, "", ""), "1", "boom", true, failed)
    ensures Subtree(failed, "2", ["2"]) && IsPruned(failed, "2", pruned)
    ensures Possible(Start(WithReply(Pending, "", "")), NOTHING_YET, Waiting(failed))
    ensures var (w, h) := After(Start(WithReply(Pending, "", "")), NOTHING_YET, Waiting(failed));
            Possible(w, h, Clearing(["2"], pruned, "1")) && Stalled(After(w, h, Clearing(["2"], pruned, "1")).0)
  {
    failed, pruned := FailedAndPruned();
    StallsFromStart(WithReply(Pending, "", ""), failed, pruned);
  }

  lemma StallsFromStart(t: Tree, failed: Tree, pruned: Tree)
    requires "1" in t.nodes && t.nodes["1"].state == Pending
    requires Subtree(failed, "2", ["2"]) && IsPruned(failed, "2", pruned) && !Active(failed, "2") && failed.rootId == "1"
    ensures Possible(Start(t), NOTHING_YET, Waiting(failed))
    ensures var (w, h) := After(Start(t), NOTHING_YET, Waiting(failed));
            Possible(w, h, Clearing(["2"], pruned, "1")) && Stalled(After(w, h, Clearing(["2"], pruned, "1")).0)
  {
    ReplyWaits(t, failed);
    var (w, h) := After(Start(t), NOTHING_YET, Waiting(failed));
    StartIsFine(t);
    RunKeeps(Start(t), NOTHING_YET, Waiting(failed));
    ReplyIsPassedOver(w);
    FailedReplyStalls(w, h, "1", "2", ["2"], pruned);
  }
}
