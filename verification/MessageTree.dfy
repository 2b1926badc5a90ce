/** The reply tree of one conversation: node table, status index, subtree walks and error propagation. */
module MessageTrees {
  import opened Prelude

  datatype State = Pending | InProgress | Completed | Errored

  datatype Node = Node(id: string, status: string, state: State, parent: Option<string>, children: seq<string>, error: string)

  datatype Tree = Tree(rootId: string, nodes: map<string, Node>, statuses: map<string, string>)

  // ---------------------------------------------------------------------------------------------
  // Shape
  // ---------------------------------------------------------------------------------------------

  /** id reaches a by n steps to the parent, through pending nodes only where asked. */
  ghost predicate Climbs(t: Tree, id: string, a: string, n: nat, pendingOnly: bool)
    decreases n
  {
    if n == 0 then id == a
    else
      && id in t.nodes && t.nodes[id].parent.Some? && (pendingOnly ==> t.nodes[id].state == Pending)
      && Climbs(t, t.nodes[id].parent.value, a, n - 1, pendingOnly)
  }

  /** id is a or a descendant of it; with pendingOnly, one whose chain up to a is pending throughout. */
  ghost predicate Reaches(t: Tree, a: string, id: string, pendingOnly: bool) {
    exists n: nat :: Climbs(t, id, a, n, pendingOnly)
  }

  ghost predicate Below(t: Tree, a: string, id: string) {
    Reaches(t, a, id, false)
  }

  predicate ParentKnows(t: Tree, id: string)
    requires id in t.nodes
  {
    id == t.rootId ||
    (t.nodes[id].parent.Some? && t.nodes[id].parent.value in t.nodes && id in t.nodes[t.nodes[id].parent.value].children)
  }

  predicate ParentsKnow(t: Tree) {
    forall id {:trigger ParentKnows(t, id)} | id in t.nodes :: ParentKnows(t, id)
  }

  predicate ChildrenKnow(t: Tree) {
    forall id, c | id in t.nodes && c in t.nodes[id].children :: c in t.nodes && t.nodes[c].parent == Some(id)
  }

  predicate NoTwins(t: Tree) {
    forall id | id in t.nodes :: Distinct(t.nodes[id].children)
  }

  predicate Indexed(t: Tree) {
    && (forall id | id in t.nodes :: t.nodes[id].status in t.statuses && t.statuses[t.nodes[id].status] == id)
    && (forall s | s in t.statuses :: t.statuses[s] in t.nodes && t.nodes[t.statuses[s]].status == s)
  }

  predicate Rooted(t: Tree) {
    && t.rootId in t.nodes && t.nodes[t.rootId].parent == None && "" !in t.nodes
    && (forall id | id in t.nodes :: t.nodes[id].id == id)
  }

  ghost predicate Reachable(t: Tree) {
    forall id {:trigger Below(t, t.rootId, id)} | id in t.nodes :: Below(t, t.rootId, id)
  }

  ghost predicate WellFormed(t: Tree) {
    Rooted(t) && ParentsKnow(t) && ChildrenKnow(t) && NoTwins(t) && Indexed(t) && Reachable(t)
  }

  lemma {:induction false} ClimbOn(t: Tree, id: string, a: string, n: nat, b: string, m: nat, pendingOnly: bool)
    requires Climbs(t, id, a, n, pendingOnly) && Climbs(t, a, b, m, pendingOnly)
    ensures Climbs(t, id, b, n + m, pendingOnly)
    decreases n
  {
    if n > 0 {
      ClimbOn(t, t.nodes[id].parent.value, a, n - 1, b, m, pendingOnly);
    }
  }

  /** There is one way up. */
  lemma {:induction false} ClimbRest(t: Tree, id: string, a: string, n: nat, b: string, m: nat)
    requires Climbs(t, id, a, n, false) && Climbs(t, id, b, m, false) && n <= m
    ensures Climbs(t, a, b, m - n, false)
    decreases n
  {
    if n > 0 {
      ClimbRest(t, t.nodes[id].parent.value, a, n - 1, b, m - 1);
    }
  }

  lemma {:induction false} ForgetPending(t: Tree, id: string, a: string, n: nat, pendingOnly: bool)
    requires Climbs(t, id, a, n, pendingOnly)
    ensures Climbs(t, id, a, n, false)
    decreases n
  {
    if n > 0 {
      ForgetPending(t, t.nodes[id].parent.value, a, n - 1, pendingOnly);
    }
  }

  /** A tree has no cycles: nothing is below itself by one or more steps. */
  lemma NoCycle(t: Tree, id: string, n: nat, pendingOnly: bool)
    requires WellFormed(t) && id in t.nodes && Climbs(t, id, id, n, pendingOnly)
    ensures n == 0
  {
    ForgetPending(t, id, id, n, pendingOnly);
    assert Below(t, t.rootId, id);
    var m: nat :| Climbs(t, id, t.rootId, m, false);
    if n > m {
      ClimbRest(t, id, t.rootId, m, id, n);
    } else {
      ClimbRest(t, id, id, n, t.rootId, m);
      ClimbRest(t, id, t.rootId, m - n, t.rootId, m);
    }
  }

  lemma {:induction false} TopIsANode(t: Tree, id: string, a: string, n: nat)
    requires WellFormed(t) && id in t.nodes && Climbs(t, id, a, n, false)
    ensures a in t.nodes
    decreases n
  {
    if n > 0 {
      assert ParentKnows(t, id);
      TopIsANode(t, t.nodes[id].parent.value, a, n - 1);
    }
  }

  // ---------------------------------------------------------------------------------------------
  // Walks
  // ---------------------------------------------------------------------------------------------

  predicate Follows(t: Tree, c: string, pendingOnly: bool) {
    pendingOnly ==> c in t.nodes && t.nodes[c].state == Pending
  }

  function Kept(t: Tree, children: seq<string>, pendingOnly: bool): (kept: seq<string>)
    ensures forall c :: c in kept <==> c in children && Follows(t, c, pendingOnly)
    ensures Distinct(children) ==> Distinct(kept)
  {
    if children == [] then []
    else
      var front, last := children[..|children| - 1], children[|children| - 1];
      Kept(t, front, pendingOnly) + if Follows(t, last, pendingOnly) then [last] else []
  }

  function Kids(t: Tree, id: string, pendingOnly: bool): seq<string> {
    if id in t.nodes then Kept(t, t.nodes[id].children, pendingOnly) else []
  }

  /** Between two turns of a walk from a: what is on the stack and what has been taken off it are
      different nodes of the subtree, and the taken ones have passed on all their children. */
  ghost predicate Frontier(t: Tree, a: string, stack: seq<string>, taken: seq<string>, pendingOnly: bool) {
    && Apart(stack, taken)
    && Inside(t, a, stack, taken, pendingOnly)
    && PassedOn(t, stack, taken, pendingOnly)
    && (a in stack || a in taken)
  }

  predicate Apart(stack: seq<string>, taken: seq<string>) {
    Distinct(stack) && Distinct(taken) && (forall x | x in stack :: x !in taken)
  }

  ghost predicate Inside(t: Tree, a: string, stack: seq<string>, taken: seq<string>, pendingOnly: bool) {
    forall x | x in stack || x in taken ::
      && x in t.nodes && Reaches(t, a, x, pendingOnly)
      && (x != a ==> t.nodes[x].parent.Some? && t.nodes[x].parent.value in taken)
  }

  predicate PassedOn(t: Tree, stack: seq<string>, taken: seq<string>, pendingOnly: bool) {
    forall x, c | x in taken && c in Kids(t, x, pendingOnly) :: c in stack || c in taken
  }

  lemma FrontierStart(t: Tree, a: string, pendingOnly: bool)
    requires a in t.nodes
    ensures Frontier(t, a, [a], [], pendingOnly)
  {
    assert Climbs(t, a, a, 0, pendingOnly);
  }

  /** A child of the node on top of the stack is new to the walk. */
  lemma ChildIsNew(t: Tree, a: string, stack: seq<string>, taken: seq<string>, pendingOnly: bool, c: string)
    requires WellFormed(t) && Frontier(t, a, stack, taken, pendingOnly) && stack != []
    requires c in Kids(t, stack[|stack| - 1], pendingOnly)
    ensures c in t.nodes && t.nodes[c].parent == Some(stack[|stack| - 1]) && Reaches(t, a, c, pendingOnly)
    ensures c !in stack && c !in taken
  {
    var top := stack[|stack| - 1];
    assert top in stack && top !in taken && top in t.nodes;
    assert c in t.nodes[top].children;
    assert Reaches(t, a, top, pendingOnly);
    ChildClimbs(t, a, top, c, pendingOnly);
    ParentIsTaken(t, a, stack, taken, pendingOnly, c);
  }

  lemma ChildClimbs(t: Tree, a: string, top: string, c: string, pendingOnly: bool)
    requires WellFormed(t) && top in t.nodes && Reaches(t, a, top, pendingOnly)
    requires c in t.nodes[top].children && Follows(t, c, pendingOnly)
    ensures c in t.nodes && t.nodes[c].parent == Some(top) && Reaches(t, a, c, pendingOnly) && c != a
  {
    var n: nat :| Climbs(t, top, a, n, pendingOnly);
    assert c in t.nodes && t.nodes[c].parent == Some(top);
    assert Climbs(t, c, a, n + 1, pendingOnly);
    if c == a {
      NoCycle(t, a, n + 1, pendingOnly);
    }
  }

  lemma ParentIsTaken(t: Tree, a: string, stack: seq<string>, taken: seq<string>, pendingOnly: bool, c: string)
    requires Inside(t, a, stack, taken, pendingOnly) && c != a
    requires c in t.nodes ==> t.nodes[c].parent.Some? && t.nodes[c].parent.value !in taken
    ensures c !in stack && c !in taken
  {
  }

  lemma DistinctAppend<T>(a: seq<T>, b: seq<T>)
    requires Distinct(a) && Distinct(b) && (forall x | x in b :: x !in a)
    ensures Distinct(a + b)
  {
    forall i, j | 0 <= i < j < |a + b|
      ensures (a + b)[i] != (a + b)[j] {
      if i < |a| <= j {
        assert b[j - |a|] in b;
      }
    }
  }

  lemma StaysApart(stack: seq<string>, taken: seq<string>, kids: seq<string>)
    requires Apart(stack, taken) && stack != [] && Distinct(kids)
    requires forall c | c in kids :: c !in stack && c !in taken
    ensures Apart(stack[..|stack| - 1] + kids, taken + [stack[|stack| - 1]])
  {
    var rest, top := stack[..|stack| - 1], stack[|stack| - 1];
    assert stack == rest + [top];
    assert top in stack;
    DistinctAppend(rest, kids);
    DistinctAppend(taken, [top]);
  }

  lemma StaysInside(t: Tree, a: string, stack: seq<string>, taken: seq<string>, pendingOnly: bool, kids: seq<string>)
    requires Inside(t, a, stack, taken, pendingOnly) && stack != []
    requires forall c | c in kids :: c in t.nodes && Reaches(t, a, c, pendingOnly) && t.nodes[c].parent == Some(stack[|stack| - 1])
    ensures Inside(t, a, stack[..|stack| - 1] + kids, taken + [stack[|stack| - 1]], pendingOnly)
  {
    var rest, top := stack[..|stack| - 1], stack[|stack| - 1];
    forall x | x in rest + kids || x in taken + [top]
      ensures x in kids || x in stack || x in taken {
      if x == top { assert stack[|stack| - 1] == x; }
    }
  }

  lemma KeepsPassingOn(t: Tree, stack: seq<string>, taken: seq<string>, pendingOnly: bool)
    requires PassedOn(t, stack, taken, pendingOnly) && stack != []
    ensures var top := stack[|stack| - 1];
            PassedOn(t, stack[..|stack| - 1] + Kids(t, top, pendingOnly), taken + [top], pendingOnly)
  {
    var rest, top := stack[..|stack| - 1], stack[|stack| - 1];
    assert stack == rest + [top];
  }

  lemma FrontierStep(t: Tree, a: string, stack: seq<string>, taken: seq<string>, pendingOnly: bool)
    requires WellFormed(t) && Frontier(t, a, stack, taken, pendingOnly) && stack != []
    ensures var top := stack[|stack| - 1];
            Frontier(t, a, stack[..|stack| - 1] + Kids(t, top, pendingOnly), taken + [top], pendingOnly)
  {
    var top := stack[|stack| - 1];
    var kids := Kids(t, top, pendingOnly);
    assert stack == stack[..|stack| - 1] + [top];
    KidsAreNew(t, a, stack, taken, pendingOnly);
    StaysApart(stack, taken, kids);
    StaysInside(t, a, stack, taken, pendingOnly, kids);
    KeepsPassingOn(t, stack, taken, pendingOnly);
  }

  lemma KidsAreNew(t: Tree, a: string, stack: seq<string>, taken: seq<string>, pendingOnly: bool)
    requires WellFormed(t) && Frontier(t, a, stack, taken, pendingOnly) && stack != []
    ensures var top := stack[|stack| - 1];
            && Distinct(Kids(t, top, pendingOnly))
            && forall c | c in Kids(t, top, pendingOnly) ::
                 c in t.nodes && t.nodes[c].parent == Some(top) && Reaches(t, a, c, pendingOnly) && c !in stack && c !in taken
  {
    forall c | c in Kids(t, stack[|stack| - 1], pendingOnly)
      ensures c in t.nodes && t.nodes[c].parent == Some(stack[|stack| - 1]) && Reaches(t, a, c, pendingOnly)
      ensures c !in stack && c !in taken {
      ChildIsNew(t, a, stack, taken, pendingOnly, c);
    }
  }

  /** A finished walk has taken the whole subtree. */
  lemma {:induction false} WalkIsComplete(t: Tree, a: string, taken: seq<string>, pendingOnly: bool, x: string, n: nat)
    requires WellFormed(t) && Frontier(t, a, [], taken, pendingOnly) && x in t.nodes && Climbs(t, x, a, n, pendingOnly)
    ensures x in taken
    decreases n
  {
    if n > 0 {
      var p := t.nodes[x].parent.value;
      assert ParentKnows(t, x);
      WalkIsComplete(t, a, taken, pendingOnly, p, n - 1);
      assert x in Kids(t, p, pendingOnly);
    }
  }

  lemma WalkIsExact(t: Tree, a: string, taken: seq<string>, pendingOnly: bool)
    requires WellFormed(t) && Frontier(t, a, [], taken, pendingOnly)
    ensures forall x :: x in taken <==> x in t.nodes && Reaches(t, a, x, pendingOnly)
  {
    forall x | x in t.nodes && Reaches(t, a, x, pendingOnly)
      ensures x in taken {
      var n: nat :| Climbs(t, x, a, n, pendingOnly);
      WalkIsComplete(t, a, taken, pendingOnly, x, n);
    }
  }

  // ---------------------------------------------------------------------------------------------
  // Operations
  // ---------------------------------------------------------------------------------------------

  function ParentOf(t: Tree, id: string): Option<string> {
    if id !in t.nodes || t.nodes[id].parent.None? || t.nodes[id].parent.value == "" then None
    else if t.nodes[id].parent.value in t.nodes then t.nodes[id].parent
    else None
  }

  /** What adding does whenever the parent is known, whether or not the new id and status are new. */
  function Added(t: Tree, id: string, status: string, parent: string): Tree
    requires parent in t.nodes
  {
    var nodes := t.nodes[id := Node(id, status, Pending, Some(parent), [], "")];
    t.(nodes := nodes[parent := nodes[parent].(children := nodes[parent].children + [id])], statuses := t.statuses[status := id])
  }

  function Without(s: seq<string>, x: string): (r: seq<string>)
    ensures forall c :: c in r <==> c in s && c != x
    ensures Distinct(s) ==> Distinct(r)
  {
    if s == [] then []
    else
      var front, last := s[..|s| - 1], s[|s| - 1];
      assert s == front + [last];
      assert Distinct(s) ==> last !in front;
      Without(front, x) + if last != x then [last] else []
  }

  /** The tree after: the subtree of a is gone from both tables, its parent has lost one child, and
      nothing else is different. */
  ghost predicate IsPruned(t: Tree, a: string, after: Tree) {
    && after.rootId == t.rootId
    && (forall id :: id in after.nodes <==> id in t.nodes && !Below(t, a, id))
    && (forall id | id in after.nodes ::
          after.nodes[id] == if ParentOf(t, a) == Some(id) then t.nodes[id].(children := Without(t.nodes[id].children, a)) else t.nodes[id])
    && (forall s :: s in after.statuses <==> s in t.statuses && !Below(t, a, t.statuses[s]))
    && (forall s | s in after.statuses :: after.statuses[s] == t.statuses[s])
  }

  /** Both tables without the listed nodes. */
  ghost predicate Deleted(t: Tree, gone: seq<string>, u: Tree) {
    && u.rootId == t.rootId
    && (forall x :: x in u.nodes <==> x in t.nodes && x !in gone)
    && (forall x | x in u.nodes :: u.nodes[x] == t.nodes[x])
    && (forall s :: s in u.statuses <==> s in t.statuses && t.statuses[s] !in gone)
    && (forall s | s in u.statuses :: u.statuses[s] == t.statuses[s])
  }

  predicate ListsNodes(t: Tree, ids: seq<string>, listed: seq<Node>) {
    |listed| == |ids| && forall i | 0 <= i < |ids| :: ids[i] in t.nodes && listed[i] == t.nodes[ids[i]]
  }

  lemma DeletedOne(t: Tree, gone: seq<string>, u: Tree, nid: string)
    requires Indexed(t) && Deleted(t, gone, u) && nid in t.nodes && nid !in gone
    ensures nid in u.nodes && u.nodes[nid] == t.nodes[nid] && u.nodes[nid].status in u.statuses
    ensures Deleted(t, gone + [nid], u.(nodes := u.nodes - {nid}, statuses := u.statuses - {u.nodes[nid].status}))
  {
  }

  lemma FirstsAndNext(ids: seq<string>, k: nat)
    requires k < |ids| && Distinct(ids)
    ensures ids[..k + 1] == ids[..k] + [ids[k]] && ids[k] in ids && ids[k] !in ids[..k]
  {
  }

  function Failed(node: Node, message: string): Node {
    node.(state := Errored, error := if message == "" then node.error else message)
  }

  const PARENT_FAILED := "Parent failed: "

  /** The tree after a failure of id: the node and, if asked, every descendant whose chain up to it is
      pending throughout have failed; nothing else is different. */
  ghost predicate IsMarked(t: Tree, id: string, message: string, propagate: bool, after: Tree) {
    && after.rootId == t.rootId && after.statuses == t.statuses && after.nodes.Keys == t.nodes.Keys
    && (forall x | x in t.nodes ::
          after.nodes[x] ==
          if x == id then Failed(t.nodes[x], message)
          else if propagate && Reaches(t, id, x, true) then Failed(t.nodes[x], "Parent failed: " + message)
          else t.nodes[x])
  }

  ghost predicate IsAffected(t: Tree, id: string, propagate: bool, x: string) {
    id in t.nodes && x in t.nodes && (x == id || (propagate && Reaches(t, id, x, true)))
  }

  class MessageTree {
    const rootId: string
    var nodes: map<string, Node>
    var statuses: map<string, string>

    ghost function View(): Tree
      reads this
    {
      Tree(rootId, nodes, statuses)
    }

    constructor (id: string, status: string)
      ensures View() == Tree(id, map[id := Node(id, status, Pending, None, [], "")], map[status := id])
      ensures id != "" ==> WellFormed(View())
    {
      rootId := id;
      nodes := map[id := Node(id, status, Pending, None, [], "")];
      statuses := map[status := id];
      new;
      assert Climbs(View(), id, id, 0, false);
    }

    /** Returns false where the source raises ValueError. */
    method AddNode(id: string, status: string, parent: string) returns (ok: bool)
      modifies this
      ensures ok <==> parent in old(nodes)
      ensures View() == if ok then Added(old(View()), id, status, parent) else old(View())
      ensures old(WellFormed(View())) && ok ==>
                (WellFormed(View()) <==> id !in old(nodes) && status !in old(statuses) && id != "")
    {
      ghost var t := View();
      if parent !in nodes {
        return false;
      }
      nodes := nodes[id := Node(id, status, Pending, Some(parent), [], "")];
      statuses := statuses[status := id];
      nodes := nodes[parent := nodes[parent].(children := nodes[parent].children + [id])];
      if WellFormed(t) { AddingKeepsShape(t, id, status, parent); }
      return true;
    }

    method GetDescendants(id: string) returns (result: seq<string>)
      requires WellFormed(View())
      ensures Distinct(result)
      ensures forall x :: x in result <==> id in nodes && x in nodes && Below(View(), id, x)
    {
      if id !in nodes {
        return [];
      }
      var stack := [id];
      result := [];
      FrontierStart(View(), id, false);
      while stack != []
        invariant Frontier(View(), id, stack, result, false)
        decreases |nodes.Keys| - |result|
      {
        FrontierStep(View(), id, stack, result, false);
        var top := stack[|stack| - 1];
        FitsIn(result + [top], nodes.Keys);
        KeptAll(View(), nodes[top].children);
        stack, result := stack[..|stack| - 1], result + [top];
        if top in nodes {
          stack := stack + nodes[top].children;
        }
      }
      WalkIsExact(View(), id, result, false);
    }

    method RemoveBranch(id: string) returns (removed: seq<Node>)
      requires WellFormed(View())
      modifies this`nodes, this`statuses
      ensures id !in old(nodes) ==> View() == old(View()) && removed == []
      ensures id in old(nodes) ==> IsPruned(old(View()), id, View())
      ensures WellFormed(View()) <==> id != rootId
      ensures forall i, j | 0 <= i < j < |removed| :: removed[i].id != removed[j].id
      ensures forall node :: node in removed <==>
                id in old(nodes) && node.id in old(nodes) && node == old(nodes)[node.id] && Below(old(View()), id, node.id)
    {
      if id !in nodes {
        return [];
      }
      ghost var t := View();
      var parent := ParentOf(Tree(rootId, nodes, statuses), id);
      var ids := GetDescendants(id);
      removed := DeleteNodes(ids);
      SameNodes(t, ids, removed);
      if parent.Some? {
        ParentSurvives(t, id);
        if id in nodes[parent.value].children {
          nodes := nodes[parent.value := nodes[parent.value].(children := Without(nodes[parent.value].children, id))];
        } else {
          WithoutNothing(nodes[parent.value].children, id);
        }
      }
      PruningKeepsShape(t, id, View());
    }

    method DeleteNodes(ids: seq<string>) returns (removed: seq<Node>)
      requires Indexed(View()) && Distinct(ids) && (forall x | x in ids :: x in nodes)
      modifies this`nodes, this`statuses
      ensures |removed| == |ids| && forall i | 0 <= i < |ids| :: removed[i] == old(nodes)[ids[i]]
      ensures Deleted(old(View()), ids, View())
    {
      ghost var t := View();
      removed := [];
      for k := 0 to |ids|
        invariant ListsNodes(t, ids[..k], removed)
        invariant Deleted(t, ids[..k], View())
      {
        FirstsAndNext(ids, k);
        if ids[k] in nodes {
          var node := TakeOut(t, ids[..k], ids[k]);
          removed := removed + [node];
        }
      }
      assert ids[..|ids|] == ids;
    }

    method TakeOut(ghost t: Tree, ghost gone: seq<string>, id: string) returns (node: Node)
      requires Indexed(t) && Deleted(t, gone, View()) && id in nodes && id !in gone
      modifies this`nodes, this`statuses
      ensures node == t.nodes[id] && Deleted(t, gone + [id], View())
    {
      DeletedOne(t, gone, View(), id);
      node := nodes[id];
      DeleteNode(id);
    }

    method DeleteNode(id: string)
      requires id in nodes && nodes[id].status in statuses
      modifies this`nodes, this`statuses
      ensures View() == old(View()).(nodes := old(nodes) - {id}, statuses := old(statuses) - {old(nodes)[id].status})
    {
      statuses := statuses - {nodes[id].status};
      nodes := nodes - {id};
    }

    method GetPendingChildren(id: string) returns (pending: seq<string>)
      requires WellFormed(View())
      ensures Distinct(pending)
      ensures forall x :: x in pending <==> id in nodes && x != id && x in nodes && Reaches(View(), id, x, true)
    {
      pending := [];
      var stack := [id];
      ghost var taken: seq<string> := [];
      if id in nodes { FrontierStart(View(), id, true); }
      while stack != []
        invariant id in nodes ==> Frontier(View(), id, stack, taken, true)
        invariant id !in nodes ==> pending == [] && ((stack == [id] && taken == []) || (stack == [] && taken == [id]))
        invariant Distinct(pending)
        invariant id in nodes ==> forall x :: x in pending <==> x != id && (x in stack || x in taken)
        decreases |nodes.Keys| + 1 - |taken|
      {
        var current := stack[|stack| - 1];
        ghost var before := stack;
        if id in nodes {
          FrontierStep(View(), id, stack, taken, true);
          FitsIn(taken + [current], nodes.Keys);
        }
        stack := stack[..|stack| - 1];
        ghost var rest := stack;
        taken := taken + [current];
        if current in nodes {
          ghost var found := pending;
          var more := PendingAmong(nodes[current].children);
          pending, stack := pending + more, stack + more;
          PendingGrows(View(), id, before, taken[..|taken| - 1], found);
        }
      }
      if id in nodes { WalkIsExact(View(), id, taken, true); }
    }

    method PendingAmong(children: seq<string>) returns (more: seq<string>)
      ensures more == Kept(View(), children, true)
    {
      more := [];
      for k := 0 to |children|
        invariant more == Kept(View(), children[..k], true)
      {
        assert children[..k + 1][..k] == children[..k];
        if children[k] in nodes && nodes[children[k]].state == Pending {
          more := more + [children[k]];
        }
      }
      assert children[..|children|] == children;
    }

    method UpdateState(id: string, state: State, message: string)
      modifies this`nodes
      ensures nodes == if id !in old(nodes) then old(nodes)
                       else old(nodes)[id := old(nodes)[id].(state := state, error := if message == "" then old(nodes)[id].error else message)]
    {
      if id !in nodes {
        return;
      }
      nodes := nodes[id := nodes[id].(state := state)];
      if message != "" {
        nodes := nodes[id := nodes[id].(error := message)];
      }
    }

    method FailAll(ids: seq<string>, message: string)
      requires Distinct(ids) && forall x | x in ids :: x in nodes
      modifies this`nodes
      ensures nodes.Keys == old(nodes).Keys
      ensures forall x | x in nodes :: nodes[x] == if x in ids then Failed(old(nodes)[x], message) else old(nodes)[x]
    {
      for k := 0 to |ids|
        invariant nodes.Keys == old(nodes).Keys
        invariant forall x | x in nodes :: nodes[x] == if x in ids[..k] then Failed(old(nodes)[x], message) else old(nodes)[x]
      {
        FirstsAndNext(ids, k);
        UpdateState(ids[k], Errored, message);
      }
      assert ids[..|ids|] == ids;
    }

    /** The queue manager's mark_node_error for a node of this tree. */
    method MarkNodeError(id: string, message: string, propagate: bool) returns (affected: seq<string>)
      requires WellFormed(View())
      modifies this`nodes
      ensures WellFormed(View()) && IsMarked(old(View()), id, message, propagate, View())
      ensures Distinct(affected)
      ensures forall x :: x in affected <==> IsAffected(old(View()), id, propagate, x)
    {
      ghost var t := View();
      affected := [];
      if id in nodes {
        UpdateState(id, Errored, message);
        affected := [id];
        FailingKeepsShape(t, View());
        assert IsMarked(t, id, message, false, View());
      } else {
        NothingBelow(t, id);
        assert IsMarked(t, id, message, propagate, View());
      }
      if propagate {
        ghost var t1 := View();
        var pending := FailPendingChildren(id, PARENT_FAILED + message);
        if id in t.nodes {
          SpreadIsTheSame(t, t1, id, message, pending);
          FailureSpreads(t, View(), id, message, pending);
          AffectedAre(t, id, pending);
        }
        affected := affected + pending;
      }
    }

    method FailPendingChildren(id: string, message: string) returns (pending: seq<string>)
      requires WellFormed(View())
      modifies this`nodes
      ensures WellFormed(View()) && nodes.Keys == old(nodes).Keys
      ensures forall x | x in nodes :: nodes[x] == if x in pending then Failed(old(nodes)[x], message) else old(nodes)[x]
      ensures Distinct(pending)
      ensures if id in nodes then SpreadFrom(old(View()), id, pending) else pending == []
    {
      ghost var t := View();
      pending := GetPendingChildren(id);
      assert pending != [] ==> pending[0] in pending;
      FailAll(pending, message);
      FailingKeepsShape(t, View());
    }
  }

  ghost predicate SpreadFrom(t: Tree, id: string, pending: seq<string>) {
    forall x :: x in pending <==> x != id && x in t.nodes && Reaches(t, id, x, true)
  }

  lemma AffectedAre(t: Tree, id: string, pending: seq<string>)
    requires id in t.nodes && SpreadFrom(t, id, pending) && Distinct(pending)
    ensures Distinct([id] + pending)
    ensures forall x :: x in [id] + pending <==> IsAffected(t, id, true, x)
  {
    DistinctAppend([id], pending);
  }

  lemma SpreadIsTheSame(t: Tree, t1: Tree, id: string, message: string, pending: seq<string>)
    requires WellFormed(t) && id in t.nodes && t1 == t.(nodes := t.nodes[id := Failed(t.nodes[id], message)])
    requires SpreadFrom(t1, id, pending)
    ensures SpreadFrom(t, id, pending)
  {
    forall x
      ensures x in t1.nodes <==> x in t.nodes
      ensures Reaches(t1, id, x, true) <==> Reaches(t, id, x, true) {
      SamePending(t, t1, id, x);
    }
  }

  /** A failed node and then its failed pending descendants add up to the marked tree. */
  lemma FailureSpreads(t: Tree, u: Tree, id: string, message: string, pending: seq<string>)
    requires id in t.nodes && SpreadFrom(t, id, pending)
    requires u.rootId == t.rootId && u.statuses == t.statuses && u.nodes.Keys == t.nodes.Keys
    requires forall x | x in u.nodes :: u.nodes[x] ==
               if x in pending then Failed(t.nodes[x], PARENT_FAILED + message)
               else if x == id then Failed(t.nodes[x], message) else t.nodes[x]
    ensures IsMarked(t, id, message, true, u)
    ensures SameShape(t, u)
  {
  }

  lemma {:induction false} KeptAll(t: Tree, children: seq<string>)
    ensures Kept(t, children, false) == children
  {
    if children != [] {
      KeptAll(t, children[..|children| - 1]);
    }
  }

  lemma {:induction false} WithoutNothing(s: seq<string>, x: string)
    requires x !in s
    ensures Without(s, x) == s
  {
    if s != [] {
      assert s == s[..|s| - 1] + [s[|s| - 1]];
      WithoutNothing(s[..|s| - 1], x);
    }
  }

  /** The nodes listed under distinct ids, seen as a set. */
  lemma SameNodes(t: Tree, ids: seq<string>, removed: seq<Node>)
    requires Rooted(t) && Distinct(ids) && (forall x | x in ids :: x in t.nodes)
    requires |removed| == |ids| && forall i | 0 <= i < |ids| :: removed[i] == t.nodes[ids[i]]
    ensures forall i, j | 0 <= i < j < |removed| :: removed[i].id != removed[j].id
    ensures forall node :: node in removed <==> node.id in ids && node == t.nodes[node.id]
  {
    forall node | node in removed
      ensures node.id in ids && node == t.nodes[node.id] {
      var i :| 0 <= i < |removed| && removed[i] == node;
      assert ids[i] in ids;
    }
    forall node: Node | node.id in ids && node == t.nodes[node.id]
      ensures node in removed {
      var i :| 0 <= i < |ids| && ids[i] == node.id;
      assert removed[i] == node;
    }
    assert forall i | 0 <= i < |ids| :: ids[i] in ids && removed[i].id == ids[i];
  }

  lemma PendingGrows(t: Tree, a: string, stack: seq<string>, taken: seq<string>, pending: seq<string>)
    requires WellFormed(t) && Frontier(t, a, stack, taken, true) && stack != []
    requires Distinct(pending) && (forall x :: x in pending <==> x != a && (x in stack || x in taken))
    ensures var top := stack[|stack| - 1];
            var kids := Kids(t, top, true);
            && Distinct(pending + kids)
            && (forall x :: x in pending + kids <==> x != a && (x in stack[..|stack| - 1] + kids || x in taken + [top]))
  {
    var rest, top := stack[..|stack| - 1], stack[|stack| - 1];
    var kids := Kids(t, top, true);
    assert stack == rest + [top];
    forall c | c in kids
      ensures c !in stack && c !in taken && c != a {
      ChildIsNew(t, a, stack, taken, true, c);
      assert a in stack || a in taken;
    }
    DistinctAppend(pending, kids);
  }

  // ---------------------------------------------------------------------------------------------
  // What the operations keep
  // ---------------------------------------------------------------------------------------------

  lemma {:induction false} SameClimb(t: Tree, u: Tree, id: string, a: string, n: nat)
    requires Climbs(t, id, a, n, false)
    requires forall x | x in t.nodes :: x in u.nodes && u.nodes[x].parent == t.nodes[x].parent
    ensures Climbs(u, id, a, n, false)
    decreases n
  {
    if n > 0 {
      SameClimb(t, u, t.nodes[id].parent.value, a, n - 1);
    }
  }

  predicate SameShape(t: Tree, u: Tree) {
    && u.rootId == t.rootId && u.statuses == t.statuses && u.nodes.Keys == t.nodes.Keys
    && (forall x | x in t.nodes ::
          && u.nodes[x].id == t.nodes[x].id && u.nodes[x].status == t.nodes[x].status
          && u.nodes[x].parent == t.nodes[x].parent && u.nodes[x].children == t.nodes[x].children)
  }

  lemma SameShapeReaches(t: Tree, u: Tree)
    requires SameShape(t, u) && Reachable(t)
    ensures Reachable(u)
  {
    forall x | x in u.nodes
      ensures Below(u, u.rootId, x) {
      assert Below(t, t.rootId, x);
      var n: nat :| Climbs(t, x, t.rootId, n, false);
      SameClimb(t, u, x, t.rootId, n);
    }
  }

  lemma SameShapeLinks(t: Tree, u: Tree)
    requires SameShape(t, u) && ParentsKnow(t)
    ensures ParentsKnow(u)
  {
    forall x | x in u.nodes
      ensures ParentKnows(u, x) {
      assert ParentKnows(t, x);
    }
  }

  /** Changing states and messages leaves the shape alone. */
  lemma FailingKeepsShape(t: Tree, u: Tree)
    requires WellFormed(t) && SameShape(t, u)
    ensures WellFormed(u)
  {
    SameShapeReaches(t, u);
    SameShapeLinks(t, u);
  }

  /** Failing the top of the walk does not change what is pending below it. */
  lemma {:induction false} SamePendingClimb(t: Tree, u: Tree, a: string, x: string, n: nat)
    requires WellFormed(t) && a in t.nodes && u.nodes.Keys == t.nodes.Keys
    requires forall y | y in t.nodes :: u.nodes[y].parent == t.nodes[y].parent && (y != a ==> u.nodes[y].state == t.nodes[y].state)
    ensures x != a ==> (Climbs(u, x, a, n, true) <==> Climbs(t, x, a, n, true))
    decreases n
  {
    if n > 0 && x != a && x in t.nodes && t.nodes[x].parent.Some? {
      var p := t.nodes[x].parent.value;
      if p != a {
        SamePendingClimb(t, u, a, p, n - 1);
      } else if n > 1 {
        OnlyAtTheTop(t, u, a, n - 1);
        OnlyAtTheTop(t, t, a, n - 1);
      }
    }
  }

  lemma OnlyAtTheTop(t: Tree, u: Tree, a: string, n: nat)
    requires WellFormed(t) && a in t.nodes && u.nodes.Keys == t.nodes.Keys && n > 0
    requires forall y | y in t.nodes :: u.nodes[y].parent == t.nodes[y].parent
    ensures !Climbs(u, a, a, n, true)
  {
    if Climbs(u, a, a, n, true) {
      ForgetPending(u, a, a, n, true);
      SameClimb(u, t, a, a, n);
      NoCycle(t, a, n, false);
    }
  }

  lemma SamePending(t: Tree, u: Tree, a: string, x: string)
    requires WellFormed(t) && a in t.nodes && u.nodes.Keys == t.nodes.Keys
    requires forall y | y in t.nodes :: u.nodes[y].parent == t.nodes[y].parent && (y != a ==> u.nodes[y].state == t.nodes[y].state)
    ensures Reaches(u, a, x, true) <==> Reaches(t, a, x, true)
  {
    if x == a {
      assert Climbs(u, a, a, 0, true) && Climbs(t, a, a, 0, true);
    } else {
      forall n: nat
        ensures Climbs(u, x, a, n, true) <==> Climbs(t, x, a, n, true) {
        SamePendingClimb(t, u, a, x, n);
      }
    }
  }

  lemma NothingBelow(t: Tree, a: string)
    requires WellFormed(t) && a !in t.nodes
    ensures forall x | x in t.nodes :: !Below(t, a, x) && !Reaches(t, a, x, true)
  {
    forall x, n: nat, only | x in t.nodes && Climbs(t, x, a, n, only)
      ensures false {
      ForgetPending(t, x, a, n, only);
      TopIsANode(t, x, a, n);
    }
  }

  lemma ParentSurvives(t: Tree, a: string)
    requires WellFormed(t) && a in t.nodes && ParentOf(t, a).Some?
    ensures ParentOf(t, a).value in t.nodes && !Below(t, a, ParentOf(t, a).value)
  {
    var p := ParentOf(t, a).value;
    if Below(t, a, p) {
      var n: nat :| Climbs(t, p, a, n, false);
      assert Climbs(t, a, a, n + 1, false);
      NoCycle(t, a, n + 1, false);
    }
  }

  lemma {:induction false} PrunedClimb(t: Tree, a: string, u: Tree, x: string, n: nat)
    requires WellFormed(t) && IsPruned(t, a, u) && x in u.nodes && Climbs(t, x, t.rootId, n, false)
    ensures Climbs(u, x, t.rootId, n, false)
    decreases n
  {
    if n > 0 {
      ParentStays(t, a, u, x);
      PrunedClimb(t, a, u, t.nodes[x].parent.value, n - 1);
    }
  }

  /** A node outside the removed subtree has its parent outside too. */
  lemma ParentStays(t: Tree, a: string, u: Tree, x: string)
    requires WellFormed(t) && IsPruned(t, a, u) && x in u.nodes && t.nodes[x].parent.Some?
    ensures u.nodes[x].parent == t.nodes[x].parent && t.nodes[x].parent.value in u.nodes
  {
    var p := t.nodes[x].parent.value;
    assert ParentKnows(t, x);
    if Below(t, a, p) {
      var n: nat :| Climbs(t, p, a, n, false);
      assert Climbs(t, x, a, n + 1, false);
    }
  }

  /** The child lists that survive name only survivors. */
  lemma ChildStays(t: Tree, a: string, u: Tree, x: string, c: string)
    requires Rooted(t) && ChildrenKnow(t) && a in t.nodes && IsPruned(t, a, u) && x in u.nodes && c in u.nodes[x].children
    ensures c in u.nodes && u.nodes[c].parent == Some(x) && c in t.nodes[x].children
  {
    assert c in t.nodes[x].children && t.nodes[c].parent == Some(x);
    if Below(t, a, c) {
      var n: nat :| Climbs(t, c, a, n, false);
      assert n == 0 || Climbs(t, x, a, n - 1, false);
    }
  }

  lemma PruningKeepsParents(t: Tree, a: string, u: Tree)
    requires WellFormed(t) && a in t.nodes && IsPruned(t, a, u)
    ensures ParentsKnow(u)
  {
    assert Climbs(t, a, a, 0, false);
    assert a !in u.nodes;
    forall x | x in u.nodes
      ensures ParentKnows(u, x) {
      assert ParentKnows(t, x);
      if x != t.rootId {
        ParentStays(t, a, u, x);
      }
    }
  }

  lemma PruningKeepsChildren(t: Tree, a: string, u: Tree)
    requires Rooted(t) && ChildrenKnow(t) && a in t.nodes && IsPruned(t, a, u)
    ensures ChildrenKnow(u)
  {
    forall x, c | x in u.nodes && c in u.nodes[x].children
      ensures c in u.nodes && u.nodes[c].parent == Some(x) {
      ChildStays(t, a, u, x, c);
    }
  }

  lemma PruningKeepsReach(t: Tree, a: string, u: Tree)
    requires WellFormed(t) && a in t.nodes && IsPruned(t, a, u)
    ensures Reachable(u)
  {
    forall x | x in u.nodes
      ensures Below(u, u.rootId, x) {
      assert Below(t, t.rootId, x);
      var n: nat :| Climbs(t, x, t.rootId, n, false);
      PrunedClimb(t, a, u, x, n);
    }
  }

  lemma RootIsOnTop(t: Tree, a: string)
    requires Rooted(t)
    ensures Below(t, a, t.rootId) <==> a == t.rootId
  {
    assert Climbs(t, t.rootId, t.rootId, 0, false);
  }

  /** Removing a branch keeps the shape of the tree exactly when the branch is not the whole tree. */
  lemma PruningKeepsShape(t: Tree, a: string, u: Tree)
    requires WellFormed(t) && a in t.nodes && IsPruned(t, a, u)
    ensures WellFormed(u) <==> a != t.rootId
  {
    RootIsOnTop(t, a);
    PruningKeepsParents(t, a, u);
    PruningKeepsChildren(t, a, u);
    PruningKeepsReach(t, a, u);
    PruningKeepsTables(t, a, u);
  }

  lemma PruningKeepsTables(t: Tree, a: string, u: Tree)
    requires Rooted(t) && NoTwins(t) && Indexed(t) && IsPruned(t, a, u)
    ensures NoTwins(u) && Indexed(u) && (t.rootId in u.nodes ==> Rooted(u))
  {
  }

  lemma AddingIsReachable(t: Tree, id: string, status: string, parent: string)
    requires WellFormed(t) && parent in t.nodes && id !in t.nodes
    ensures Reachable(Added(t, id, status, parent))
  {
    var u := Added(t, id, status, parent);
    forall x | x in u.nodes
      ensures Below(u, u.rootId, x) {
      var y := if x == id then parent else x;
      assert Below(t, t.rootId, y);
      var n: nat :| Climbs(t, y, t.rootId, n, false);
      SameClimb(t, u, y, t.rootId, n);
      assert x == id ==> Climbs(u, x, t.rootId, n + 1, false);
    }
  }

  lemma AddingKeepsParents(t: Tree, id: string, status: string, parent: string)
    requires ParentsKnow(t) && parent in t.nodes && id !in t.nodes
    ensures ParentsKnow(Added(t, id, status, parent))
  {
    var u := Added(t, id, status, parent);
    forall x | x in u.nodes
      ensures ParentKnows(u, x) {
      assert x in t.nodes ==> ParentKnows(t, x);
    }
  }

  lemma AddingKeepsChildren(t: Tree, id: string, status: string, parent: string)
    requires ChildrenKnow(t) && NoTwins(t) && parent in t.nodes && id !in t.nodes
    ensures var u := Added(t, id, status, parent); ChildrenKnow(u) && NoTwins(u)
  {
    var u := Added(t, id, status, parent);
    var kids := t.nodes[parent].children;
    assert id !in kids;
    DistinctAppend(kids, [id]);
    forall x, c | x in u.nodes && c in u.nodes[x].children
      ensures c in u.nodes && u.nodes[c].parent == Some(x) {
      assert if x == id then false else c in t.nodes[x].children || (x == parent && c == id);
    }
  }

  lemma AddingAFreshNode(t: Tree, id: string, status: string, parent: string)
    requires WellFormed(t) && parent in t.nodes && id !in t.nodes && status !in t.statuses && id != ""
    ensures WellFormed(Added(t, id, status, parent))
  {
    AddingIsReachable(t, id, status, parent);
    AddingKeepsParents(t, id, status, parent);
    AddingKeepsChildren(t, id, status, parent);
  }

  /** Reusing an id breaks the links, whoever had it. */
  lemma AddingAKnownNode(t: Tree, id: string, status: string, parent: string)
    requires WellFormed(t) && parent in t.nodes && id in t.nodes
    ensures !WellFormed(Added(t, id, status, parent))
  {
    var u := Added(t, id, status, parent);
    if id != t.rootId {
      assert ParentKnows(t, id);
      var before := t.nodes[id].parent.value;
      if before == id {
        assert Climbs(t, id, id, 0, false);
        assert Climbs(t, id, id, 1, false);
        NoCycle(t, id, 1, false);
      } else if before == parent {
        var kids := t.nodes[parent].children;
        assert u.nodes[parent].children == kids + [id];
        var i :| 0 <= i < |kids| && kids[i] == id;
        assert (kids + [id])[i] == (kids + [id])[|kids|];
      } else {
        assert id in u.nodes[before].children && u.nodes[id].parent == Some(parent);
      }
    }
  }

  /** A node that is added is pending, has no children and is found by its status; its parent lists it last;
      no other node changes. */
  lemma AddedMeaning(t: Tree, id: string, status: string, parent: string)
    requires parent in t.nodes && id != parent
    ensures var u := Added(t, id, status, parent);
            && u.rootId == t.rootId && u.nodes.Keys == t.nodes.Keys + {id} && u.statuses.Keys == t.statuses.Keys + {status}
            && u.nodes[id].id == id && u.nodes[id].status == status && u.nodes[id].parent == Some(parent)
            && u.nodes[id].state == Pending && u.nodes[id].children == [] && u.nodes[id].error == ""
            && u.statuses[status] == id && (forall s | s in t.statuses && s != status :: u.statuses[s] == t.statuses[s])
            && u.nodes[parent] == t.nodes[parent].(children := u.nodes[parent].children)
            && u.nodes[parent].children == t.nodes[parent].children + [id]
            && (forall x | x in t.nodes && x != id && x != parent :: u.nodes[x] == t.nodes[x])
  {
  }

  /** Adding below a known parent keeps the shape of the tree exactly when id and status are new. */
  lemma AddingKeepsShape(t: Tree, id: string, status: string, parent: string)
    requires WellFormed(t) && parent in t.nodes
    ensures WellFormed(Added(t, id, status, parent)) <==> id !in t.nodes && status !in t.statuses && id != ""
  {
    var u := Added(t, id, status, parent);
    if id in t.nodes {
      AddingAKnownNode(t, id, status, parent);
    } else if status in t.statuses {
      var other := t.statuses[status];
      assert u.nodes[other].status == status && u.statuses[status] == id;
    } else if id != "" {
      AddingAFreshNode(t, id, status, parent);
    }
  }
}
