// The edges of a class or property hierarchy above one term.
module TransitivePath {
  import opened Rdf

  // A walk from one node to another along edges of the predicate whose
  // targets are resources.
  ghost predicate Walk(graph: set<Triple>, p: Node, nodes: seq<Node>) {
    && nodes != []
    && forall i :: 0 <= i < |nodes| - 1 ==> Edge(graph, p, nodes[i], nodes[i + 1])
  }

  predicate Edge(graph: set<Triple>, p: Node, child: Node, parent: Node) {
    Triple(child, p, parent) in graph && IsResource(parent)
  }

  ghost predicate Reachable(graph: set<Triple>, p: Node, leaf: Node, n: Node) {
    exists nodes :: Walk(graph, p, nodes) && nodes[0] == leaf && nodes[|nodes| - 1] == n
  }

  lemma ReachableStart(graph: set<Triple>, p: Node, leaf: Node)
    ensures Reachable(graph, p, leaf, leaf)
  {
    assert Walk(graph, p, [leaf]);
  }

  lemma ReachableStep(graph: set<Triple>, p: Node, leaf: Node, child: Node, parent: Node)
    requires Reachable(graph, p, leaf, child) && Edge(graph, p, child, parent)
    ensures Reachable(graph, p, leaf, parent)
  {
    var nodes :| Walk(graph, p, nodes) && nodes[0] == leaf && nodes[|nodes| - 1] == child;
    assert Walk(graph, p, nodes + [parent]);
  }

  // A set of nodes that contains the leaf and the parents of its members
  // contains everything reachable.
  lemma {:induction false} ReachableIn(graph: set<Triple>, p: Node, nodes: seq<Node>, closed: set<Node>)
    requires Walk(graph, p, nodes) && nodes[0] in closed
    requires forall child, parent :: child in closed && Edge(graph, p, child, parent) ==> parent in closed
    ensures nodes[|nodes| - 1] in closed
    decreases |nodes|
  {
    if |nodes| > 1 {
      assert Edge(graph, p, nodes[0], nodes[1]);
      assert Walk(graph, p, nodes[1..]) by {
        forall i | 0 <= i < |nodes[1..]| - 1 ensures Edge(graph, p, nodes[1..][i], nodes[1..][i + 1]) {
          assert Edge(graph, p, nodes[i + 1], nodes[i + 2]);
        }
      }
      ReachableIn(graph, p, nodes[1..], closed);
    }
  }

  // The edges above one node.
  function EdgesFrom(graph: set<Triple>, p: Node, n: Node): set<Triple> {
    set t | t in graph && t.s == n && t.p == p && IsResource(t.o)
  }

  // An edge worth collecting.
  ghost predicate Above(graph: set<Triple>, p: Node, leaf: Node, t: Triple) {
    t in graph && t.p == p && IsResource(t.o) && Reachable(graph, p, leaf, t.s)
  }

  // The node is the leaf or the target of a collected edge.
  ghost predicate Met(hierarchy: set<Triple>, leaf: Node, n: Node) {
    n == leaf || exists t :: t in hierarchy && t.o == n
  }

  // The worklist: cyclic hierarchies terminate because an edge is followed
  // only when it is new.
  method GetTransitivePath(graph: set<Triple>, leaf: Node, p: Node) returns (hierarchy: set<Triple>)
    ensures forall t :: t in hierarchy <==> Above(graph, p, leaf, t)
  {
    hide Reachable, Above;
    hierarchy := {};
    var current := [leaf];
    ReachableStart(graph, p, leaf);
    while current != []
      invariant hierarchy <= graph && forall t :: t in hierarchy ==> Above(graph, p, leaf, t)
      invariant forall n :: n in current ==> Reachable(graph, p, leaf, n)
      invariant forall n :: Met(hierarchy, leaf, n) ==> n in current || EdgesFrom(graph, p, n) <= hierarchy
      decreases |graph - hierarchy|, |current|
    {
      var next := [];
      ghost var before := hierarchy;
      for i := 0 to |current|
        invariant before <= hierarchy <= graph
        invariant hierarchy == before <==> next == []
        invariant forall t :: t in hierarchy ==> Above(graph, p, leaf, t)
        invariant forall n :: n in next ==> Reachable(graph, p, leaf, n)
        invariant forall n :: Met(hierarchy, leaf, n) ==>
          n in current[i..] || n in next || EdgesFrom(graph, p, n) <= hierarchy
      {
        assert current[i..] == [current[i]] + current[i + 1..];
        ghost var known, queued := hierarchy, next;
        hierarchy, next := Expand(graph, p, current[i], hierarchy, next);
        ExpandedReachable(graph, p, leaf, current[i], known, hierarchy);
        forall n | n in next ensures Reachable(graph, p, leaf, n) {
          if n !in queued {
            var t :| t in hierarchy - known && t.o == n;
          }
        }
        forall n | Met(hierarchy, leaf, n)
          ensures n in current[i + 1..] || n in next || EdgesFrom(graph, p, n) <= hierarchy
        {
          if !Met(known, leaf, n) {
            var t :| t in hierarchy && t.o == n;
          }
        }
      }
      if next != [] {
        Fewer(graph, before, hierarchy);
      }
      current := next;
    }
    AllCollected(graph, p, leaf, hierarchy);
  }

  // Collect the edges above one node, and queue the targets of the new ones.
  method Expand(graph: set<Triple>, p: Node, node: Node, hierarchy: set<Triple>, next: seq<Node>)
    returns (hierarchy': set<Triple>, next': seq<Node>)
    ensures hierarchy' == hierarchy + EdgesFrom(graph, p, node)
    ensures forall n :: n in next' <==> n in next || exists t :: t in hierarchy' - hierarchy && t.o == n
    ensures |next'| >= |next| && (hierarchy' == hierarchy ==> next' == next)
    ensures hierarchy' != hierarchy ==> next' != []
  {
    hierarchy', next' := hierarchy, next;
    var edges := EdgesFrom(graph, p, node);
    while edges != {}
      invariant edges <= EdgesFrom(graph, p, node)
      invariant hierarchy' == hierarchy + (EdgesFrom(graph, p, node) - edges)
      invariant forall n :: n in next' <==> n in next || exists t :: t in hierarchy' - hierarchy && t.o == n
      invariant |next'| >= |next| && (hierarchy' == hierarchy ==> next' == next)
      invariant hierarchy' != hierarchy ==> next' != []
    {
      var t :| t in edges;
      edges := edges - {t};
      if t !in hierarchy' {
        hierarchy' := hierarchy' + {t};
        next' := next' + [t.o];
      }
    }
  }

  lemma ExpandedReachable(graph: set<Triple>, p: Node, leaf: Node, node: Node, before: set<Triple>, after: set<Triple>)
    requires Reachable(graph, p, leaf, node) && after == before + EdgesFrom(graph, p, node)
    requires forall t :: t in before ==> Above(graph, p, leaf, t)
    ensures forall t :: t in after ==> Above(graph, p, leaf, t)
    ensures forall t :: t in after - before ==> Reachable(graph, p, leaf, t.o)
  {
    forall t | t in after - before ensures Reachable(graph, p, leaf, t.o) {
      assert t == Triple(node, p, t.o);
      ReachableStep(graph, p, leaf, node, t.o);
    }
  }

  // Once everything that was met has been expanded, nothing is missing.
  lemma AllCollected(graph: set<Triple>, p: Node, leaf: Node, hierarchy: set<Triple>)
    requires forall n :: Met(hierarchy, leaf, n) ==> EdgesFrom(graph, p, n) <= hierarchy
    ensures forall t :: Above(graph, p, leaf, t) ==> t in hierarchy
  {
    var met := {leaf} + set e | e in hierarchy :: e.o;
    forall t | Above(graph, p, leaf, t) ensures t in hierarchy {
      var nodes :| Walk(graph, p, nodes) && nodes[0] == leaf && nodes[|nodes| - 1] == t.s;
      forall child, parent | child in met && Edge(graph, p, child, parent) ensures parent in met {
        assert Met(hierarchy, leaf, child);
        assert Triple(child, p, parent) in EdgesFrom(graph, p, child);
      }
      ReachableIn(graph, p, nodes, met);
      assert Met(hierarchy, leaf, t.s);
      assert t in EdgesFrom(graph, p, t.s);
    }
  }

  lemma Fewer(graph: set<Triple>, before: set<Triple>, after: set<Triple>)
    requires before <= after <= graph && before != after
    ensures |graph - after| < |graph - before|
  {
    assert graph - before == (graph - after) + (after - before);
    assert after - before != {};
  }
}
