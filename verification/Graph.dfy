/** The property graph of one validated generation, its scope filters, and paths in it. */
module Graph {
  import opened Options

  type NodeId = int
  type EdgeId = int

  datatype Node = Node(partition: int, kind: int, occurredAt: Option<int>)
  datatype Edge = Edge(partition: int, source: NodeId, target: NodeId, relation: int, occurredAt: Option<int>)

  datatype Snapshot = Snapshot(nodes: map<NodeId, Node>, edges: map<EdgeId, Edge>)

  /** The type and time window every node and edge of a traversal must lie in. */
  datatype Scope = Scope(partition: int, nodeKinds: set<int>, edgeKinds: set<int>, start: int, end: int,
                         includeTimeless: bool)

  predicate TimeInScope(t: Option<int>, scope: Scope) {
    if t.None? then scope.includeTimeless else scope.start <= t.value <= scope.end
  }

  predicate NodeInScope(n: Node, scope: Scope) {
    n.kind in scope.nodeKinds && TimeInScope(n.occurredAt, scope)
  }

  /** The edge survives the scope filter: its relation, its time and both of its endpoints do. */
  predicate EdgeInScope(g: Snapshot, scope: Scope, e: EdgeId) {
    && e in g.edges && g.edges[e].partition == scope.partition
    && g.edges[e].relation in scope.edgeKinds
    && g.edges[e].source in g.nodes && g.edges[e].target in g.nodes
    && NodeInScope(g.nodes[g.edges[e].source], scope) && NodeInScope(g.nodes[g.edges[e].target], scope)
    && TimeInScope(g.edges[e].occurredAt, scope)
  }

  /** Edge `e` can be followed from `u` to `v`. */
  predicate Arc(g: Snapshot, scope: Scope, directed: bool, u: NodeId, e: EdgeId, v: NodeId) {
    && EdgeInScope(g, scope, e)
    && ((g.edges[e].source == u && g.edges[e].target == v)
        || (!directed && g.edges[e].target == u && g.edges[e].source == v))
  }

  datatype Path = Path(nodes: seq<NodeId>, edges: seq<EdgeId>)

  ghost predicate IsPath(g: Snapshot, scope: Scope, directed: bool, p: Path, s: NodeId, t: NodeId) {
    && |p.nodes| == |p.edges| + 1
    && p.nodes[0] == s && p.nodes[|p.edges|] == t
    && (forall i :: 0 <= i < |p.edges| ==> Arc(g, scope, directed, p.nodes[i], p.edges[i], p.nodes[i + 1]))
  }

  ghost predicate IsSimple(p: Path) {
    forall i, j :: 0 <= i < j < |p.nodes| ==> p.nodes[i] != p.nodes[j]
  }

  /** No path from `s` to `t` has fewer edges. */
  ghost predicate IsShortest(g: Snapshot, scope: Scope, directed: bool, p: Path, s: NodeId, t: NodeId) {
    && IsPath(g, scope, directed, p, s, t)
    && (forall q :: IsPath(g, scope, directed, q, s, t) ==> |p.edges| <= |q.edges|)
  }

  /** Some path from `s` to `t` has at most `k` edges. */
  ghost predicate Within(g: Snapshot, scope: Scope, directed: bool, s: NodeId, t: NodeId, k: nat) {
    exists p :: IsPath(g, scope, directed, p, s, t) && |p.edges| <= k
  }

  /** The nodes at distance `k` or less. */
  ghost function Ball(g: Snapshot, scope: Scope, directed: bool, s: NodeId, k: nat): set<NodeId> {
    set x | x in g.nodes && Within(g, scope, directed, s, x, k)
  }

  lemma {:induction false} Cardinality<T>(a: set<T>, b: set<T>)
    requires a <= b
    ensures |a| <= |b|
  {
    if a != {} {
      var x :| x in a;
      Cardinality(a - {x}, b - {x});
    }
  }

  method Pick<T(==)>(s: set<T>) returns (x: T)
    requires s != {}
    ensures x in s
  {
    x :| x in s;
  }

  /** The elements of a set in ascending order. */
  method Sorted(s: set<int>) returns (r: seq<int>)
    ensures forall x :: x in r <==> x in s
    ensures forall i, j :: 0 <= i < j < |r| ==> r[i] < r[j]
  {
    r := [];
    var rest := s;
    while rest != {}
      invariant rest <= s
      invariant forall x :: x in s <==> x in r || x in rest
      invariant forall i, j :: 0 <= i < j < |r| ==> r[i] < r[j]
      invariant forall i, x :: 0 <= i < |r| && x in rest ==> r[i] < x
      decreases |rest|
    {
      var m := Pick(rest);
      var seen := {m};
      while seen != rest
        invariant m in seen && seen <= rest
        invariant forall x :: x in seen ==> m <= x
        decreases |rest - seen|
      {
        assert rest - seen != {};
        var x := Pick(rest - seen);
        assert rest - (seen + {x}) == rest - seen - {x};
        seen := seen + {x};
        if x < m {
          m := x;
        }
      }
      r := r + [m];
      rest := rest - {m};
    }
  }
}
