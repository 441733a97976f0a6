/** Directed graphs of files, their paths, and who reaches whom. */
module Graphs {
  // File identifiers; the algorithm only ever compares them for equality.
  type Node(==, !new)

  // Adjacency by source file; a file that is only ever imported has no entry of its own.
  type Graph = map<Node, set<Node>>

  function Neighbors(g: Graph, x: Node): set<Node> {
    if x in g then g[x] else {}
  }

  ghost predicate Edge(g: Graph, x: Node, y: Node) {
    y in Neighbors(g, x)
  }

  function AllNodes(g: Graph): set<Node> {
    g.Keys + set x, y | x in g && y in g[x] :: y
  }

  ghost predicate IsPath(g: Graph, p: seq<Node>) {
    |p| > 0 && (|p| > 1 ==> Edge(g, p[0], p[1]) && IsPath(g, p[1..]))
  }

  ghost predicate PathFromTo(g: Graph, p: seq<Node>, x: Node, y: Node) {
    IsPath(g, p) && p[0] == x && p[|p| - 1] == y
  }

  // `y` can be reached from `x` along imports, in zero or more steps.
  ghost predicate Reach(g: Graph, x: Node, y: Node) {
    exists p :: PathFromTo(g, p, x, y)
  }

  ghost predicate Mutual(g: Graph, x: Node, y: Node) {
    Reach(g, x, y) && Reach(g, y, x)
  }

  lemma {:induction false} ReachRefl(g: Graph, x: Node)
    ensures Reach(g, x, x)
  {
    assert PathFromTo(g, [x], x, x);
  }

  lemma {:induction false} ReachEdge(g: Graph, x: Node, y: Node)
    requires Edge(g, x, y)
    ensures Reach(g, x, y)
  {
    assert PathFromTo(g, [x, y], x, y);
  }

  lemma {:induction false} PathConcat(g: Graph, p: seq<Node>, q: seq<Node>)
    requires IsPath(g, p) && IsPath(g, q) && p[|p| - 1] == q[0]
    ensures IsPath(g, p + q[1..])
  {
    if |p| == 1 {
      assert p + q[1..] == q;
    } else {
      PathConcat(g, p[1..], q);
      assert (p + q[1..])[1..] == p[1..] + q[1..];
    }
  }

  lemma {:induction false} ReachTrans(g: Graph, x: Node, y: Node, z: Node)
    requires Reach(g, x, y) && Reach(g, y, z)
    ensures Reach(g, x, z)
  {
    var p :| PathFromTo(g, p, x, y);
    var q :| PathFromTo(g, q, y, z);
    PathConcat(g, p, q);
    assert PathFromTo(g, p + q[1..], x, z);
  }

  // A path that starts in `s` and ends outside it leaves `s` along some edge.
  lemma {:induction false} PathLeaves(g: Graph, p: seq<Node>, s: set<Node>) returns (u: Node, v: Node)
    requires IsPath(g, p) && p[0] in s && p[|p| - 1] !in s
    ensures u in s && v !in s && Edge(g, u, v)
  {
    if p[1] in s {
      u, v := PathLeaves(g, p[1..], s);
    } else {
      u, v := p[0], p[1];
    }
  }

  ghost predicate Closed(g: Graph, s: set<Node>) {
    forall x, y {:trigger Edge(g, x, y)} :: x in s && Edge(g, x, y) ==> y in s
  }

  lemma {:induction false} ClosedReach(g: Graph, s: set<Node>, x: Node, y: Node)
    requires Closed(g, s) && x in s && Reach(g, x, y)
    ensures y in s
  {
    var p :| PathFromTo(g, p, x, y);
    if y !in s {
      var u, v := PathLeaves(g, p, s);
      assert false;
    }
  }
}
