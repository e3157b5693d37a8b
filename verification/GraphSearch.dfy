/**
  The depth-first searches of src/pgm.cpp: whether a graph is acyclic (2850-2918) and whether a node is an
  ancestor of another (2777-2839). The sets that the recursion shares are fields.
 */
module GraphSearch {
  import opened Base

  datatype Edge = Edge(producer: nat, consumer: nat, backedge: bool)

  /** `ins` and `outs` are indices of edges. */
  datatype Node = Node(name: string, ins: seq<nat>, outs: seq<nat>)

  datatype Graph = Graph(nodes: seq<Node>, edges: seq<Edge>)

  /** The edge tables of the nodes list exactly the edges of the graph. */
  predicate GraphOk(g: Graph) {
    && (forall e :: 0 <= e < |g.edges| ==>
          && g.edges[e].producer < |g.nodes| && g.edges[e].consumer < |g.nodes|
          && e in g.nodes[g.edges[e].producer].outs && e in g.nodes[g.edges[e].consumer].ins)
    && (forall n, i :: 0 <= n < |g.nodes| && 0 <= i < |g.nodes[n].outs| ==>
          g.nodes[n].outs[i] < |g.edges| && g.edges[g.nodes[n].outs[i]].producer == n)
    && (forall n, i :: 0 <= n < |g.nodes| && 0 <= i < |g.nodes[n].ins| ==>
          g.nodes[n].ins[i] < |g.edges| && g.edges[g.nodes[n].ins[i]].consumer == n)
  }

  predicate NamesDiffer(g: Graph) {
    forall n, m :: 0 <= n < m < |g.nodes| ==> g.nodes[n].name != g.nodes[m].name
  }

  /** An edge leads from a to b; backedges count only if `backedges` is set. */
  ghost predicate Arc(g: Graph, backedges: bool, a: nat, b: nat) {
    exists e ::
      && 0 <= e < |g.edges| && g.edges[e].producer == a && g.edges[e].consumer == b
      && (backedges || !g.edges[e].backedge)
  }

  ghost predicate IsPath(g: Graph, backedges: bool, p: seq<nat>) {
    && |p| > 0
    && (forall i :: 0 <= i < |p| ==> p[i] < |g.nodes|)
    && forall i :: 0 <= i < |p| - 1 ==> Arc(g, backedges, p[i], p[i + 1])
  }

  ghost predicate HasCycle(g: Graph, backedges: bool) {
    exists p :: IsPath(g, backedges, p) && |p| > 1 && p[0] == p[|p| - 1]
  }

  ghost predicate Reaches(g: Graph, backedges: bool, a: nat, b: nat) {
    exists p :: IsPath(g, backedges, p) && p[0] == a && p[|p| - 1] == b
  }

  // ------------------------------------------------------------------ acyclicity

  /** A path between two nodes of one name; with different names, a cycle. */
  ghost predicate HasNameCycle(g: Graph, backedges: bool) {
    exists p :: IsPath(g, backedges, p) && |p| > 1 && g.nodes[p[0]].name == g.nodes[p[|p| - 1]].name
  }

  /** One of the nodes has the name. */
  predicate Among(g: Graph, name: string, list: seq<nat>) {
    exists i :: 0 <= i < |list| && list[i] < |g.nodes| && g.nodes[list[i]].name == name
  }

  /** No node with a smaller index has the same name. */
  predicate First(g: Graph, n: nat) {
    n < |g.nodes| && forall m :: 0 <= m < n ==> g.nodes[m].name != g.nodes[n].name
  }

  predicate DifferentNames(g: Graph, done: seq<nat>) {
    && (forall i :: 0 <= i < |done| ==> done[i] < |g.nodes|)
    && (forall i, j :: 0 <= i < j < |done| ==> g.nodes[done[i]].name != g.nodes[done[j]].name)
  }

  /** Every arc out of a node of the sequence leads to the name of an earlier one: an inverse topological order. */
  ghost predicate Ordered(g: Graph, backedges: bool, done: seq<nat>) {
    forall k, b: nat :: 0 <= k < |done| && b < |g.nodes| && Arc(g, backedges, done[k], b) ==>
      Among(g, g.nodes[b].name, done[..k])
  }

  /** A node of the sequence is the first of its name, or an arc from a later one or from the stack led to it. */
  ghost predicate Entered(g: Graph, backedges: bool, done: seq<nat>, stack: seq<nat>, k: nat)
    requires k < |done|
  {
    || First(g, done[k])
    || (exists l :: k < l < |done| && Arc(g, backedges, done[l], done[k]))
    || (exists l :: 0 <= l < |stack| && Arc(g, backedges, stack[l], done[k]))
  }

  /**
    What a search that finds nothing leaves: one node for every name, in inverse topological order, each entered in
    its turn.
   */
  ghost predicate Representatives(g: Graph, backedges: bool, done: seq<nat>) {
    && (forall n :: 0 <= n < |g.nodes| ==> Among(g, g.nodes[n].name, done))
    && DifferentNames(g, done) && Ordered(g, backedges, done)
    && (forall k :: 0 <= k < |done| ==> Entered(g, backedges, done, [], k))
  }

  ghost predicate HasRepresentatives(g: Graph, backedges: bool) {
    exists done :: Representatives(g, backedges, done)
  }

  /** With different names the representative of a name is its one node. */
  lemma AmongIsIn(g: Graph, n: nat, list: seq<nat>)
    requires NamesDiffer(g) && n < |g.nodes| && Among(g, g.nodes[n].name, list)
    ensures n in list
  {
  }

  /** Along a path through ordered nodes positions go down, so it cannot come back. */
  lemma {:induction false} PositionsFall(g: Graph, backedges: bool, done: seq<nat>, p: seq<nat>, k: nat)
    returns (j: nat)
    requires NamesDiffer(g) && Ordered(g, backedges, done) && IsPath(g, backedges, p) && k < |done| && done[k] == p[0]
    ensures j <= k && done[j] == p[|p| - 1] && (|p| > 1 ==> j < k)
    decreases |p|
  {
    j := k;
    if |p| > 1 {
      assert Arc(g, backedges, p[0], p[0 + 1]);
      AmongIsIn(g, p[1], done[..k]);
      var i :| 0 <= i < k && done[..k][i] == p[1];
      var rest := p[1..];
      forall i | 0 <= i < |rest| - 1 ensures Arc(g, backedges, rest[i], rest[i + 1]) {
        assert Arc(g, backedges, p[i + 1], p[i + 1 + 1]);
      }
      j := PositionsFall(g, backedges, done, rest, i);
    }
  }

  /** With different names, representatives exclude cycles. */
  lemma OrderedIsAcyclic(g: Graph, backedges: bool, done: seq<nat>)
    requires NamesDiffer(g) && Representatives(g, backedges, done)
    ensures !HasCycle(g, backedges)
  {
    forall p | IsPath(g, backedges, p) && |p| > 1 ensures p[0] != p[|p| - 1] {
      AmongIsIn(g, p[0], done);
      var k :| 0 <= k < |done| && done[k] == p[0];
      var j := PositionsFall(g, backedges, done, p, k);
      assert done[j] == p[0] ==> j == k;
    }
  }

  lemma NameCycleIsCycle(g: Graph, backedges: bool)
    requires NamesDiffer(g) && HasNameCycle(g, backedges)
    ensures HasCycle(g, backedges)
  {
    var p :| IsPath(g, backedges, p) && |p| > 1 && g.nodes[p[0]].name == g.nodes[p[|p| - 1]].name;
    assert p[0] == p[|p| - 1];
  }

  /** An arc back to a name on the path closes a cycle of names. */
  lemma ClosesCycle(g: Graph, backedges: bool, p: seq<nat>, b: nat)
    requires IsPath(g, backedges, p) && b < |g.nodes|
    requires Among(g, g.nodes[b].name, p) && Arc(g, backedges, p[|p| - 1], b)
    ensures HasNameCycle(g, backedges)
  {
    var i :| 0 <= i < |p| && p[i] < |g.nodes| && g.nodes[p[i]].name == g.nodes[b].name;
    var c := p[i..] + [b];
    forall k | 0 <= k < |c| - 1 ensures Arc(g, backedges, c[k], c[k + 1]) {
      if k < |p| - i - 1 { assert Arc(g, backedges, p[i + k], p[i + k + 1]); }
    }
    assert IsPath(g, backedges, c) && g.nodes[c[0]].name == g.nodes[c[|c| - 1]].name;
  }

  /**
    The visited names are those of the nodes left, which are ordered and closed under arcs, and of those on the path.
   */
  ghost predicate SearchOk(g: Graph, backedges: bool, visited: set<string>, path: set<string>,
                           done: seq<nat>, stack: seq<nat>)
  {
    && (forall x :: x in visited <==> Among(g, x, done) || Among(g, x, stack))
    && (forall x :: x in path <==> Among(g, x, stack))
    && (forall n :: n in stack ==> n < |g.nodes|)
    && DifferentNames(g, done) && Ordered(g, backedges, done)
    && (forall i :: 0 <= i < |done| ==> !Among(g, g.nodes[done[i]].name, stack))
    && (forall k :: 0 <= k < |done| ==> Entered(g, backedges, done, stack, k))
  }

  lemma AmongPlus(g: Graph, x: string, list: seq<nat>, n: nat)
    requires n < |g.nodes|
    ensures Among(g, x, list + [n]) <==> Among(g, x, list) || g.nodes[n].name == x
  {
    var longer := list + [n];
    if Among(g, x, list) {
      var i :| 0 <= i < |list| && list[i] < |g.nodes| && g.nodes[list[i]].name == x;
      assert longer[i] == list[i];
    }
    if g.nodes[n].name == x { assert longer[|list|] == n; }
  }

  lemma EnterKeeps(g: Graph, backedges: bool, visited: set<string>, path: set<string>, done: seq<nat>,
                   stack: seq<nat>, n: nat)
    requires SearchOk(g, backedges, visited, path, done, stack) && n < |g.nodes| && g.nodes[n].name !in visited
    ensures SearchOk(g, backedges, visited + {g.nodes[n].name}, path + {g.nodes[n].name}, done, stack + [n])
  {
    var here := stack + [n];
    forall x ensures Among(g, x, here) <==> Among(g, x, stack) || g.nodes[n].name == x { AmongPlus(g, x, stack, n); }
    forall i | 0 <= i < |done| ensures g.nodes[done[i]].name != g.nodes[n].name {
      assert Among(g, g.nodes[done[i]].name, done);
    }
    forall k | 0 <= k < |done| ensures Entered(g, backedges, done, here, k) {
      assert Entered(g, backedges, done, stack, k);
      if l :| 0 <= l < |stack| && Arc(g, backedges, stack[l], done[k]) { assert Arc(g, backedges, here[l], done[k]); }
    }
  }

  /** A node is left when all its successors have been, and it was entered from the path or as the first of its name. */
  lemma LeaveKeeps(g: Graph, backedges: bool, visited: set<string>, path: set<string>, done: seq<nat>,
                   stack: seq<nat>, n: nat)
    requires SearchOk(g, backedges, visited, path, done, stack + [n])
    requires n < |g.nodes| && !Among(g, g.nodes[n].name, stack)
    requires if stack == [] then First(g, n) else Arc(g, backedges, stack[|stack| - 1], n)
    requires forall b: nat :: b < |g.nodes| && Arc(g, backedges, n, b) ==> Among(g, g.nodes[b].name, done)
    ensures SearchOk(g, backedges, visited, path - {g.nodes[n].name}, done + [n], stack)
  {
    var longer, here := done + [n], stack + [n];
    forall x ensures Among(g, x, here) <==> Among(g, x, stack) || g.nodes[n].name == x { AmongPlus(g, x, stack, n); }
    forall x ensures Among(g, x, longer) <==> Among(g, x, done) || g.nodes[n].name == x { AmongPlus(g, x, done, n); }
    assert Among(g, g.nodes[n].name, here);
    assert forall m :: m in stack ==> m in here;
    forall k, b: nat | 0 <= k < |longer| && b < |g.nodes| && Arc(g, backedges, longer[k], b)
      ensures Among(g, g.nodes[b].name, longer[..k])
    {
      if k < |done| {
        assert longer[..k] == done[..k] && Arc(g, backedges, done[k], b);
      } else {
        assert longer[..k] == done;
      }
    }
    forall k | 0 <= k < |longer| ensures Entered(g, backedges, longer, stack, k) {
      if k < |done| { LeaveEntered(g, backedges, done, stack, n, k); }
    }
  }

  lemma LeaveEntered(g: Graph, backedges: bool, done: seq<nat>, stack: seq<nat>, n: nat, k: nat)
    requires k < |done| && Entered(g, backedges, done, stack + [n], k)
    ensures Entered(g, backedges, done + [n], stack, k)
  {
    var longer, here := done + [n], stack + [n];
    if l :| k < l < |done| && Arc(g, backedges, done[l], done[k]) {
      assert Arc(g, backedges, longer[l], longer[k]);
    } else if l :| 0 <= l < |here| && Arc(g, backedges, here[l], done[k]) {
      if l < |stack| {
        assert Arc(g, backedges, stack[l], longer[k]);
      } else {
        assert Arc(g, backedges, longer[|done|], longer[k]);
      }
    }
  }

  lemma Longer(g: Graph, backedges: bool, p: seq<nat>, b: nat)
    requires IsPath(g, backedges, p) && b < |g.nodes| && Arc(g, backedges, p[|p| - 1], b)
    ensures IsPath(g, backedges, p + [b])
  {
    var q := p + [b];
    forall i | 0 <= i < |q| - 1 ensures Arc(g, backedges, q[i], q[i + 1]) {
      if i < |p| - 1 { assert Arc(g, backedges, p[i], p[i + 1]); }
    }
  }

  /** The names of the first i successors are among those left. */
  predicate SuccessorsIn(g: Graph, backedges: bool, n: nat, i: nat, done: seq<nat>)
    requires GraphOk(g) && n < |g.nodes| && i <= |g.nodes[n].outs|
  {
    forall j :: 0 <= j < i && Counts(g, backedges, g.nodes[n].outs[j]) ==>
      Among(g, g.nodes[g.edges[g.nodes[n].outs[j]].consumer].name, done)
  }

  lemma SuccessorsStay(g: Graph, backedges: bool, n: nat, i: nat, done: seq<nat>, longer: seq<nat>)
    requires GraphOk(g) && n < |g.nodes| && i <= |g.nodes[n].outs|
    requires SuccessorsIn(g, backedges, n, i, done) && done <= longer
    ensures SuccessorsIn(g, backedges, n, i, longer)
  {
    forall j | 0 <= j < i && Counts(g, backedges, g.nodes[n].outs[j])
      ensures Among(g, g.nodes[g.edges[g.nodes[n].outs[j]].consumer].name, longer)
    {
      AmongMore(g, g.nodes[g.edges[g.nodes[n].outs[j]].consumer].name, done, longer);
    }
  }

  /** The successors listed at a node are all there are. */
  lemma ListedArcs(g: Graph, backedges: bool, n: nat, done: seq<nat>)
    requires GraphOk(g) && n < |g.nodes| && SuccessorsIn(g, backedges, n, |g.nodes[n].outs|, done)
    ensures forall b: nat :: b < |g.nodes| && Arc(g, backedges, n, b) ==> Among(g, g.nodes[b].name, done)
  {
    forall b: nat | b < |g.nodes| && Arc(g, backedges, n, b) ensures Among(g, g.nodes[b].name, done) {
      var e :| 0 <= e < |g.edges| && g.edges[e].producer == n && g.edges[e].consumer == b
            && (backedges || !g.edges[e].backedge);
      var j :| 0 <= j < |g.nodes[n].outs| && g.nodes[n].outs[j] == e;
      assert Counts(g, backedges, g.nodes[n].outs[j]);
    }
  }

  predicate Counts(g: Graph, backedges: bool, e: nat) {
    e < |g.edges| && (backedges || !g.edges[e].backedge)
  }

  lemma AmongMore(g: Graph, x: string, list: seq<nat>, longer: seq<nat>)
    requires Among(g, x, list) && list <= longer
    ensures Among(g, x, longer)
  {
    var i :| 0 <= i < |list| && list[i] < |g.nodes| && g.nodes[list[i]].name == x;
    assert longer[i] == list[i];
  }

  /** `done` is history: the nodes in the order in which they were left. */
  class DagSearch {
    const g: Graph
    const backedges: bool
    var visited: set<string>
    var path: set<string>
    ghost var done: seq<nat>

    constructor (g: Graph, ignoreExplicitBackedges: bool)
      requires GraphOk(g)
      ensures this.g == g && backedges == !ignoreExplicitBackedges
      ensures Valid([]) && visited == {} && done == []
    {
      this.g, backedges := g, !ignoreExplicitBackedges;
      visited, path, done := {}, {}, [];
    }

    ghost predicate Valid(stack: seq<nat>)
      reads this
    {
      GraphOk(g) && SearchOk(g, backedges, visited, path, done, stack)
    }

    /** The nodes whose names have not been visited; they become fewer on the way down. */
    ghost function Left(): set<nat>
      reads this
    {
      set n: nat | n < |g.nodes| && g.nodes[n].name !in visited
    }

    method DagVisit(n: nat, ghost stack: seq<nat>) returns (ok: bool)
      requires Valid(stack) && n < |g.nodes| && g.nodes[n].name !in path && IsPath(g, backedges, stack + [n])
      requires stack == [] && g.nodes[n].name !in visited ==> First(g, n)
      modifies this
      ensures ok ==> Valid(stack) && Among(g, g.nodes[n].name, done) && old(done) <= done
      ensures !ok ==> HasNameCycle(g, backedges)
      ensures old(visited) <= visited
      decreases Left()
    {
      var name := g.nodes[n].name;
      if name !in visited {
        ghost var here := stack + [n];
        EnterKeeps(g, backedges, visited, path, done, stack, n);
        visited := visited + {name};
        path := path + {name};
        assert n in old(Left()) && n !in Left();

        var i := 0;
        while i < |g.nodes[n].outs|
          invariant i <= |g.nodes[n].outs|
          invariant Valid(here) && old(done) <= done && old(visited) + {name} <= visited
          invariant SuccessorsIn(g, backedges, n, i, done)
        {
          var e := g.edges[g.nodes[n].outs[i]];
          if backedges || !e.backedge {
            assert Arc(g, backedges, n, e.consumer);
            if g.nodes[e.consumer].name in path {
              ClosesCycle(g, backedges, here, e.consumer);
              return false;
            }
            Longer(g, backedges, here, e.consumer);
            ghost var was := done;
            var visit := DagVisit(e.consumer, here);
            if !visit { return false; }
            SuccessorsStay(g, backedges, n, i, was, done);
          }
          i := i + 1;
        }

        ListedArcs(g, backedges, n, done);
        EnteredFrom(g, backedges, stack, n);
        LeaveKeeps(g, backedges, visited, path, done, stack, n);
        path := path - {name};
        AmongPlus(g, name, done, n);
        done := done + [n];
      }
      return true;
    }
  }

  lemma EnteredFrom(g: Graph, backedges: bool, stack: seq<nat>, n: nat)
    requires IsPath(g, backedges, stack + [n])
    ensures stack != [] ==> Arc(g, backedges, stack[|stack| - 1], n)
  {
    var here := stack + [n];
    if stack != [] { assert Arc(g, backedges, here[|stack| - 1], here[|stack| - 1 + 1]); }
  }

  /**
    The answer on every graph, given by a valid handle. Yes means representatives of all names in inverse topological
    order, no means a path between two nodes of one name; so with different names it is yes exactly
    if there is no cycle.
   */
  method IsDag(graph: Option<Graph>, ignoreExplicitBackedges: bool) returns (isDag: bool)
    requires graph.Some? ==> GraphOk(graph.value)
    ensures isDag ==> graph.Some? && HasRepresentatives(graph.value, !ignoreExplicitBackedges)
    ensures !isDag ==> graph.None? || HasNameCycle(graph.value, !ignoreExplicitBackedges)
    ensures graph.Some? && NamesDiffer(graph.value) ==> (isDag <==> !HasCycle(graph.value, !ignoreExplicitBackedges))
  {
    isDag := true;
    if graph.None? {
      isDag := false;
    } else {
      var g := graph.value;
      var search := new DagSearch(g, ignoreExplicitBackedges);
      var i := 0;
      while i < |g.nodes| && isDag
        invariant i <= |g.nodes| && search.g == g && search.backedges == !ignoreExplicitBackedges
        invariant isDag ==> search.Valid([]) && forall n :: 0 <= n < i ==> Among(g, g.nodes[n].name, search.done)
        invariant !isDag ==> HasNameCycle(g, !ignoreExplicitBackedges)
      {
        if g.nodes[i].name !in search.visited {
          search.path := {};
          ghost var was := search.done;
          isDag := search.DagVisit(i, []);
          if isDag {
            forall n | 0 <= n < i ensures Among(g, g.nodes[n].name, search.done) {
              AmongMore(g, g.nodes[n].name, was, search.done);
            }
          }
        }
        i := i + 1;
      }
      if isDag {
        assert Representatives(g, !ignoreExplicitBackedges, search.done);
        if NamesDiffer(g) { OrderedIsAcyclic(g, !ignoreExplicitBackedges, search.done); }
      } else if NamesDiffer(g) {
        NameCycleIsCycle(g, !ignoreExplicitBackedges);
      }
    }
  }

  // ----------------------------------------------------------------- equal names

  /** One edge, from the first node of a name to another node of that name. */
  function Namesakes(names: seq<string>, i: nat, j: nat): Graph
    requires i < j < |names|
  {
    Graph(seq(|names|, n requires 0 <= n < |names| =>
                         Node(names[n], if n == j then [0] else [], if n == i then [0] else [])),
          [Edge(i, j, false)])
  }

  lemma NamesakesAcyclic(names: seq<string>, i: nat, j: nat)
    requires i < j < |names|
    ensures GraphOk(Namesakes(names, i, j)) && !HasCycle(Namesakes(names, i, j), true)
  {
    var g := Namesakes(names, i, j);
    forall p | IsPath(g, true, p) && |p| > 1 ensures p[0] != p[|p| - 1] {
      assert Arc(g, true, p[0], p[0 + 1]) && (|p| > 2 ==> Arc(g, true, p[1], p[1 + 1]));
    }
  }

  lemma NotEarlier(g: Graph, done: seq<nat>, k: nat)
    requires DifferentNames(g, done) && k < |done|
    ensures !Among(g, g.nodes[done[k]].name, done[..k])
  {
  }

  lemma NamesakesHaveNone(names: seq<string>, i: nat, j: nat, done: seq<nat>)
    requires i < j < |names| && names[i] == names[j] && forall m :: 0 <= m < i ==> names[m] != names[i]
    ensures !Representatives(Namesakes(names, i, j), true, done)
  {
    var g := Namesakes(names, i, j);
    assert g.nodes[i].name == names[i] == names[j] == g.nodes[j].name;
    if Representatives(g, true, done) {
      assert Among(g, g.nodes[i].name, done);
      var k :| 0 <= k < |done| && done[k] < |g.nodes| && g.nodes[done[k]].name == g.nodes[i].name;
      assert Entered(g, true, done, [], k);
      if done[k] == i {
        NotEarlier(g, done, k);
        assert g.edges[0].producer == i && Arc(g, true, done[k], j);
      }
    }
  }

  /**
    Different names are exactly what the search needs: if two names are equal, it takes some acyclic graph for a
    cyclic one.
   */
  method MistakenWithout(names: seq<string>) returns (g: Graph, isDag: bool)
    requires exists i, j :: 0 <= i < j < |names| && names[i] == names[j]
    ensures |g.nodes| == |names| && forall n :: 0 <= n < |names| ==> g.nodes[n].name == names[n]
    ensures GraphOk(g) && !HasCycle(g, true) && !isDag
  {
    var i := 0;
    while names[i] !in names[i + 1..]
      invariant i < |names| && forall m, n :: 0 <= m < i && m < n < |names| ==> names[m] != names[n]
      decreases |names| - i
    {
      assert exists a, b :: i < a < b < |names| && names[a] == names[b];
      i := i + 1;
    }
    var j :| i < j < |names| && names[i] == names[j];
    g := Namesakes(names, i, j);
    NamesakesAcyclic(names, i, j);
    isDag := IsDag(Some(g), false);
    if isDag {
      ghost var done :| Representatives(g, true, done);
      NamesakesHaveNone(names, i, j, done);
    }
  }

  // ------------------------------------------------------------------- ancestors

  /** All nodes from which a forward edge leads into v are in the set. */
  ghost predicate ParentsIn(g: Graph, v: nat, visited: set<nat>) {
    forall a: nat :: Arc(g, false, a, v) ==> a in visited
  }

  /** A path that ends in a set closed under parents began in it. */
  lemma {:induction false} StaysInside(g: Graph, closed: set<nat>, p: seq<nat>)
    requires forall v: nat :: v in closed ==> ParentsIn(g, v, closed)
    requires IsPath(g, false, p) && p[|p| - 1] in closed
    ensures p[0] in closed
    decreases |p|
  {
    if |p| > 1 {
      var last := |p| - 2;
      assert Arc(g, false, p[last], p[last + 1]);
      assert ParentsIn(g, p[|p| - 1], closed);
      var init := p[..|p| - 1];
      forall i | 0 <= i < |init| - 1 ensures Arc(g, false, init[i], init[i + 1]) {
        assert Arc(g, false, p[i], p[i + 1]);
      }
      StaysInside(g, closed, init);
    }
  }

  lemma ReachesFurther(g: Graph, q: nat, a: nat, n: nat)
    requires GraphOk(g) && Reaches(g, false, q, a) && Arc(g, false, a, n)
    ensures Reaches(g, false, q, n)
  {
    var p :| IsPath(g, false, p) && p[0] == q && p[|p| - 1] == a;
    Longer(g, false, p, n);
    assert (p + [n])[0] == q;
  }

  /** The forward edges listed at a node are all that lead into it. */
  lemma ListedParents(g: Graph, n: nat, visited: set<nat>)
    requires GraphOk(g) && n < |g.nodes|
    requires forall j :: 0 <= j < |g.nodes[n].ins| && Counts(g, false, g.nodes[n].ins[j]) ==>
               g.edges[g.nodes[n].ins[j]].producer in visited
    ensures ParentsIn(g, n, visited)
  {
    forall a: nat | Arc(g, false, a, n) ensures a in visited {
      var e :| 0 <= e < |g.edges| && g.edges[e].producer == a && g.edges[e].consumer == n && !g.edges[e].backedge;
      var j :| 0 <= j < |g.nodes[n].ins| && g.nodes[n].ins[j] == e;
      assert Counts(g, false, g.nodes[n].ins[j]);
    }
  }

  class AncestorSearch {
    const g: Graph
    var visited: set<nat>

    constructor (g: Graph)
      ensures this.g == g && visited == {}
    {
      this.g, visited := g, {};
    }

    ghost function Left(): set<nat>
      reads this
    {
      set n: nat | n < |g.nodes| && n !in visited
    }

    /**
      Without success, the node and all nodes newly visited have their parents visited, and the query is not among
      them.
     */
    method Search(n: nat, q: nat) returns (found: bool)
      requires GraphOk(g) && n < |g.nodes| && q < |g.nodes|
      modifies this
      ensures old(visited) <= visited
      ensures found ==> Reaches(g, false, q, n)
      ensures !found ==> forall v: nat :: v == n || (v in visited && v !in old(visited)) ==>
                v != q && ParentsIn(g, v, visited)
      decreases Left()
    {
      if n == q {
        assert IsPath(g, false, [n]);
        return true;
      }
      found := false;
      var i := 0;
      while i < |g.nodes[n].ins| && !found
        invariant i <= |g.nodes[n].ins| && old(visited) <= visited
        invariant found ==> Reaches(g, false, q, n)
        invariant !found ==> forall v: nat :: v in visited && v !in old(visited) ==> v != q && ParentsIn(g, v, visited)
        invariant !found ==> forall j :: 0 <= j < i && Counts(g, false, g.nodes[n].ins[j]) ==>
                    g.edges[g.nodes[n].ins[j]].producer in visited
      {
        var e := g.edges[g.nodes[n].ins[i]];
        if !e.backedge && e.producer !in visited {
          ghost var before := visited;
          visited := visited + {e.producer};
          assert e.producer in old(Left()) && e.producer !in Left();
          found := Search(e.producer, q);
          forall v: nat | v in visited && v !in old(visited) && !found ensures v != q && ParentsIn(g, v, visited) {
            if v in before { assert ParentsIn(g, v, before); }
          }
          assert Arc(g, false, e.producer, n);
          if found { ReachesFurther(g, q, e.producer, n); }
        }
        i := i + 1;
      }
      if !found { ListedParents(g, n, visited); }
    }
  }

  /** A node of a graph: the graph's handle and the node's index. */
  datatype Handle = Handle(graph: int, node: nat)

  /**
    For two nodes of one graph the answer is 1 exactly if a path of forward edges leads from the query to the node and
    they differ.
   */
  method IsAncestor(graphs: map<int, Graph>, node: Handle, query: Handle) returns (ret: int)
    requires node.graph in graphs ==> GraphOk(graphs[node.graph]) && node.node < |graphs[node.graph].nodes|
    requires query.graph in graphs ==> query.node < |graphs[query.graph].nodes|
    ensures ret == -1 <==> node.graph != query.graph || node.graph !in graphs
    ensures ret == 1 <==> node.graph == query.graph && node.graph in graphs && node.node != query.node
                          && Reaches(graphs[node.graph], false, query.node, node.node)
    ensures -1 <= ret <= 1
  {
    if node.graph != query.graph || node.graph !in graphs { return -1; }
    if node.node == query.node { return 0; }
    var g := graphs[node.graph];
    var search := new AncestorSearch(g);
    var found := search.Search(node.node, query.node);
    if !found {
      ghost var closed := search.visited + {node.node};
      assert query.node !in closed;
      forall p | IsPath(g, false, p) && p[|p| - 1] == node.node ensures p[0] != query.node {
        forall v: nat | v in closed ensures ParentsIn(g, v, closed) { assert ParentsIn(g, v, search.visited); }
        StaysInside(g, closed, p);
      }
    }
    ret := if found then 1 else 0;
  }
}
