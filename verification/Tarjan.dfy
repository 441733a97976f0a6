/** Strongly connected components of the import graph. */
module Tarjan {
  // Components come from Tarjan's algorithm, import cycles from the components.  `SccFinder.Visit` is
  // the recursive visit with its index counter, explicit stack, on-stack set and lowlinks.
  // Neighbours are taken from a set in an order the proof knows nothing about, so every result holds
  // for every neighbour order.

  import opened Graphs

  // What the visit knows, as a value: discovery indices, the nodes on the stack, the nodes whose
  // visit is still running (`gray`) and the union of the components already emitted (`done`).
  datatype View = View(indices: map<Node, nat>, onStack: set<Node>, gray: set<Node>, done: set<Node>)

  type Relation = (Node, Node) -> bool

  // The proof runs over reachability as a relation value; only the lemmas named `Rel...` look at
  // the paths behind it.
  ghost predicate IsReach(g: Graph, reach: Relation) {
    forall x, y {:trigger Reach(g, x, y)} :: reach(x, y) <==> Reach(g, x, y)
  }

  lemma {:induction false} RelRefl(g: Graph, reach: Relation, x: Node)
    requires IsReach(g, reach)
    ensures reach(x, x)
  {
    ReachRefl(g, x);
  }

  lemma {:induction false} RelEdge(g: Graph, reach: Relation, x: Node, y: Node)
    requires IsReach(g, reach) && Edge(g, x, y)
    ensures reach(x, y)
  {
    ReachEdge(g, x, y);
  }

  lemma {:induction false} RelTrans(g: Graph, reach: Relation, x: Node, y: Node, z: Node)
    requires IsReach(g, reach) && reach(x, y) && reach(y, z)
    ensures reach(x, z)
  {
    assert Reach(g, x, y) && Reach(g, y, z);
    ReachTrans(g, x, y, z);
  }

  lemma {:induction false} RelClosed(g: Graph, reach: Relation, s: set<Node>, x: Node, y: Node)
    requires IsReach(g, reach) && Closed(g, s) && x in s && reach(x, y)
    ensures y in s
  {
    assert Reach(g, x, y);
    ClosedReach(g, s, x, y);
  }

  ghost function Elems(s: seq<Node>): set<Node> {
    set x | x in s
  }

  ghost predicate ReachesGray(g: Graph, reach: Relation, indices: map<Node, nat>, gray: set<Node>, y: Node)
    requires y in indices && gray <= indices.Keys
  {
    exists x {:trigger reach(y, x)} :: x in gray && indices[x] <= indices[y] && reach(y, x)
  }

  // Lower stack nodes reach higher ones.
  ghost predicate Ordered(g: Graph, reach: Relation, indices: map<Node, nat>, onStack: set<Node>)
    requires onStack <= indices.Keys
  {
    forall x, y {:trigger reach(x, y)} :: x in onStack && y in onStack && indices[x] <= indices[y] ==> reach(x, y)
  }

  // Every stack node reaches a gray one at or below it.
  ghost predicate Grounded(g: Graph, reach: Relation, indices: map<Node, nat>, onStack: set<Node>, gray: set<Node>)
    requires gray <= onStack <= indices.Keys
  {
    forall y {:trigger ReachesGray(g, reach, indices, gray, y)} :: y in onStack ==>
        ReachesGray(g, reach, indices, gray, y)
  }

  // A finished node has no undiscovered neighbour.
  ghost predicate Explored(g: Graph, discovered: set<Node>, gray: set<Node>) {
    forall x, y {:trigger Edge(g, x, y)} :: x in discovered && x !in gray && Edge(g, x, y) ==> y in discovered
  }

  ghost predicate Inv(g: Graph, reach: Relation, v: View) {
    && IsReach(g, reach)
    && v.indices.Keys == v.onStack + v.done
    && v.onStack !! v.done
    && v.gray <= v.onStack
    && Ordered(g, reach, v.indices, v.onStack)
    && Grounded(g, reach, v.indices, v.onStack, v.gray)
    && Explored(g, v.indices.Keys, v.gray)
    && Closed(g, v.done)
  }

  // The nodes pushed at or after `node`.
  ghost function Above(v: View, node: Node): set<Node>
    requires node in v.indices && v.onStack <= v.indices.Keys
  {
    set x | x in v.onStack && v.indices[x] >= v.indices[node]
  }

  // The lowlink is the index of a stack node reachable from `node`, and bounds from below every
  // edge from the stack above `node` to the stack below it; `rem` are neighbours still to come.
  ghost predicate LowOk(g: Graph, reach: Relation, v: View, node: Node, low: nat, rem: set<Node>)
    requires node in v.indices && v.onStack <= v.indices.Keys
  {
    && (exists z {:trigger reach(node, z)} :: z in v.onStack && v.indices[z] == low && reach(node, z))
    && (forall x, y {:trigger Edge(g, x, y)} ::
          (x in v.onStack && y in v.onStack && v.indices[y] < v.indices[node] <= v.indices[x]
          && Edge(g, x, y) && !(x == node && y in rem)) ==> low <= v.indices[y])
  }

  // A component as emitted: its members are distinct and are exactly one class of mutual
  // reachability.
  ghost predicate IsScc(g: Graph, c: seq<Node>) {
    && |c| > 0
    && (forall i, j :: 0 <= i < j < |c| ==> c[i] != c[j])
    && (forall x, y {:trigger Mutual(g, x, y)} :: x in c ==> (y in c <==> Mutual(g, x, y)))
  }

  ghost function Union(cs: seq<seq<Node>>): set<Node> {
    if cs == [] then {} else Union(cs[..|cs| - 1]) + Elems(cs[|cs| - 1])
  }

  ghost predicate ComponentsOk(g: Graph, cs: seq<seq<Node>>) {
    cs != [] ==>
      && IsScc(g, cs[|cs| - 1])
      && Elems(cs[|cs| - 1]) !! Union(cs[..|cs| - 1])
      && ComponentsOk(g, cs[..|cs| - 1])
  }

  lemma {:induction false} UnionContains(cs: seq<seq<Node>>, i: nat)
    requires i < |cs|
    ensures Elems(cs[i]) <= Union(cs)
  {
    if i < |cs| - 1 {
      UnionContains(cs[..|cs| - 1], i);
    }
  }

  lemma {:induction false} UnionMember(cs: seq<seq<Node>>, x: Node) returns (i: nat)
    requires x in Union(cs)
    ensures i < |cs| && x in cs[i]
  {
    if x in Elems(cs[|cs| - 1]) {
      i := |cs| - 1;
    } else {
      i := UnionMember(cs[..|cs| - 1], x);
    }
  }

  // Each lemma below is one transition of the visit.

  lemma {:induction false} Push(g: Graph, reach: Relation, v: View, node: Node, index: nat) returns (w: View)
    requires Inv(g, reach, v) && node !in v.indices
    requires forall x :: x in v.indices ==> v.indices[x] < index
    requires AllReach(reach, v.gray, node)
    ensures w == View(v.indices[node := index], v.onStack + {node}, v.gray + {node}, v.done)
    ensures Inv(g, reach, w)
    ensures LowOk(g, reach, w, node, index, Neighbors(g, node))
  {
    w := View(v.indices[node := index], v.onStack + {node}, v.gray + {node}, v.done);
    RelRefl(g, reach, node);
    forall y | y in v.onStack
      ensures ReachesGray(g, reach, w.indices, w.gray, y) && reach(y, node)
    {
      assert ReachesGray(g, reach, v.indices, v.gray, y);
      var x :| x in v.gray && v.indices[x] <= v.indices[y] && reach(y, x);
      assert x in w.gray && w.indices[x] <= w.indices[y] && reach(y, x);
      RelTrans(g, reach, y, x, node);
    }
    assert node in w.gray && w.indices[node] <= w.indices[node] && reach(node, node);
    assert ReachesGray(g, reach, w.indices, w.gray, node);
    assert node in w.onStack && w.indices[node] == index && reach(node, node);
  }

  // With the lowlink equal to the node's own index, no edge leads from the stack above `node`
  // back into the stack below it.
  lemma {:induction false} NoEscape(g: Graph, reach: Relation, v: View, node: Node, x: Node, y: Node)
    requires Inv(g, reach, v) && node in v.onStack
    requires forall x :: x in v.gray && x != node ==> v.indices[x] < v.indices[node]
    requires LowOk(g, reach, v, node, v.indices[node], {})
    requires forall y :: Edge(g, node, y) ==> y in v.indices
    requires x in Above(v, node) && Edge(g, x, y)
    ensures y in Above(v, node) || y in v.done
  {
    assert y in v.indices;
  }

  lemma {:induction false} AboveIsMutual(g: Graph, reach: Relation, v: View, node: Node, x: Node)
    requires Inv(g, reach, v) && node in v.gray
    requires forall x :: x in v.gray && x != node ==> v.indices[x] < v.indices[node]
    requires Closed(g, v.done + Above(v, node))
    requires x in Above(v, node)
    ensures reach(node, x) && reach(x, node)
  {
    assert reach(node, x);
    assert ReachesGray(g, reach, v.indices, v.gray, x);
    var r :| r in v.gray && v.indices[r] <= v.indices[x] && reach(x, r);
    if r != node {
      RelClosed(g, reach, v.done + Above(v, node), x, r);
      assert false;
    }
  }

  // In that case everything from `node` up is one whole class of mutual reachability.
  lemma {:induction false} PopComponent(g: Graph, reach: Relation, v: View, node: Node)
    requires Inv(g, reach, v) && node in v.gray
    requires forall x :: x in v.gray && x != node ==> v.indices[x] < v.indices[node]
    requires LowOk(g, reach, v, node, v.indices[node], {})
    requires forall y :: Edge(g, node, y) ==> y in v.indices
    ensures Inv(g, reach, View(v.indices, v.onStack - Above(v, node), v.gray - {node}, v.done + Above(v, node)))
    ensures forall x, y {:trigger reach(x, y)} :: x in Above(v, node) ==>
              (y in Above(v, node) <==> reach(x, y) && reach(y, x))
  {
    var s := Above(v, node);
    forall x, y | x in v.done + s && Edge(g, x, y)
      ensures y in v.done + s
    {
      if x in s { NoEscape(g, reach, v, node, x, y); }
    }
    forall x, y | x in s
      ensures y in s <==> reach(x, y) && reach(y, x)
    {
      AboveIsMutual(g, reach, v, node, x);
      if y in s {
        AboveIsMutual(g, reach, v, node, y);
        RelTrans(g, reach, x, node, y);
        RelTrans(g, reach, y, node, x);
      } else if reach(x, y) && reach(y, x) {
        RelClosed(g, reach, v.done + s, x, y);
        RelClosed(g, reach, v.done, y, x);
        assert false;
      }
    }
    var w := View(v.indices, v.onStack - s, v.gray - {node}, v.done + s);
    forall y | y in w.onStack
      ensures ReachesGray(g, reach, w.indices, w.gray, y)
    {
      assert ReachesGray(g, reach, v.indices, v.gray, y);
      var x :| x in v.gray && v.indices[x] <= v.indices[y] && reach(y, x);
      assert x in w.gray && w.indices[x] <= w.indices[y] && reach(y, x);
    }
  }

  lemma {:induction false} GrayBelow(g: Graph, reach: Relation, v: View, node: Node, r: Node, y: Node)
    requires Inv(g, reach, v) && node in v.gray && y in v.onStack
    requires r in v.gray && r != node && v.indices[r] <= v.indices[node] && reach(node, r)
    ensures ReachesGray(g, reach, v.indices, v.gray - {node}, y)
  {
    var w := View(v.indices, v.onStack, v.gray - {node}, v.done);
    assert ReachesGray(g, reach, v.indices, v.gray, y);
    var x :| x in v.gray && v.indices[x] <= v.indices[y] && reach(y, x);
    if x == node {
      RelTrans(g, reach, y, node, r);
      assert r in w.gray && w.indices[r] <= w.indices[y] && reach(y, r);
    } else {
      assert x in w.gray && w.indices[x] <= w.indices[y] && reach(y, x);
    }
  }

  // With a smaller lowlink, `node` reaches a gray node below itself,
  lemma {:induction false} LowReachesGray(g: Graph, reach: Relation, v: View, node: Node, low: nat) returns (r: Node)
    requires Inv(g, reach, v) && node in v.gray
    requires LowOk(g, reach, v, node, low, {}) && low < v.indices[node]
    ensures r in v.gray && r != node && v.indices[r] <= v.indices[node] && reach(node, r)
  {
    var z :| z in v.onStack && v.indices[z] == low && reach(node, z);
    assert ReachesGray(g, reach, v.indices, v.gray, z);
    r :| r in v.gray && v.indices[r] <= v.indices[z] && reach(z, r);
    RelTrans(g, reach, node, z, r);
  }

  // so it stays on the stack and merely stops being gray.
  lemma {:induction false} Finish(g: Graph, reach: Relation, v: View, node: Node, low: nat)
    requires Inv(g, reach, v) && node in v.gray
    requires LowOk(g, reach, v, node, low, {}) && low < v.indices[node]
    requires forall y :: Edge(g, node, y) ==> y in v.indices
    ensures Inv(g, reach, View(v.indices, v.onStack, v.gray - {node}, v.done))
  {
    var r := LowReachesGray(g, reach, v, node, low);
    forall y | y in v.onStack
      ensures ReachesGray(g, reach, v.indices, v.gray - {node}, y)
    {
      GrayBelow(g, reach, v, node, r, y);
    }
  }

  // What a visit of `child` promises its caller: old nodes keep their indices, whatever it
  // leaves on the stack is new, and its lowlink is right for the stack it found.
  ghost predicate Visited(g: Graph, reach: Relation, v: View, w: View, child: Node, low: nat) {
    && child !in v.indices && child in w.indices && low <= w.indices[child]
    && v.onStack <= w.onStack <= w.indices.Keys
    && (forall x {:trigger x in v.indices} :: x in v.indices ==>
         x in w.indices && w.indices[x] == v.indices[x] && w.indices[x] < w.indices[child])
    && (forall x {:trigger w.indices[x]} :: x in w.indices && x !in v.indices ==> w.indices[x] >= w.indices[child])
    && (forall x {:trigger x in w.onStack} :: x in w.onStack && x !in v.onStack ==> x !in v.indices)
    && (low == w.indices[child] ==> w.onStack == v.onStack)
    && (low < w.indices[child] ==>
          exists z {:trigger reach(child, z)} :: z in v.onStack && w.indices[z] == low && reach(child, z))
    && (forall x, y {:trigger Edge(g, x, y)} ::
          x in w.onStack && x !in v.onStack && y in v.onStack && Edge(g, x, y) ==> low <= w.indices[y])
  }

  // A visited child passes its lowlink up.
  lemma {:induction false} AbsorbChild(g: Graph, reach: Relation, v: View, w: View, node: Node, child: Node, low: nat,
        childLow: nat, rem: set<Node>)
    requires Inv(g, reach, v) && Inv(g, reach, w) && node in v.onStack
    requires LowOk(g, reach, v, node, low, rem) && low <= v.indices[node]
    requires Edge(g, node, child) && Visited(g, reach, v, w, child, childLow)
    ensures LowOk(g, reach, w, node, Min(low, childLow), rem - {child})
  {
    var m := Min(low, childLow);
    if m == low {
      var z :| z in v.onStack && v.indices[z] == low && reach(node, z);
      assert z in w.onStack && w.indices[z] == m && reach(node, z);
    } else {
      var z :| z in v.onStack && w.indices[z] == childLow && reach(child, z);
      RelEdge(g, reach, node, child);
      RelTrans(g, reach, node, child, z);
      assert z in w.onStack && w.indices[z] == m && reach(node, z);
    }
    forall x, y | x in w.onStack && y in w.onStack && w.indices[y] < w.indices[node] <= w.indices[x]
                  && Edge(g, x, y) && !(x == node && y in rem - {child})
      ensures m <= w.indices[y]
    {
      assert y in v.onStack;
    }
  }

  // A neighbour found on the stack contributes its own index.
  lemma {:induction false} AbsorbStackNeighbor(g: Graph, reach: Relation, v: View, node: Node, other: Node, low: nat,
        rem: set<Node>)
    requires Inv(g, reach, v) && node in v.onStack
    requires LowOk(g, reach, v, node, low, rem)
    requires other in v.onStack && Edge(g, node, other)
    ensures LowOk(g, reach, v, node, Min(low, v.indices[other]), rem - {other})
  {
    var m := Min(low, v.indices[other]);
    if m == low {
      var z :| z in v.onStack && v.indices[z] == low && reach(node, z);
      assert z in v.onStack && v.indices[z] == m && reach(node, z);
    } else {
      RelEdge(g, reach, node, other);
      assert other in v.onStack && v.indices[other] == m && reach(node, other);
    }
  }

  ghost predicate AllReach(reach: Relation, from: set<Node>, node: Node) {
    forall x {:trigger x in from} :: x in from ==> reach(x, node)
  }

  // The visit of `node`, begun in `start`, has reached `v`.
  ghost predicate Running(start: View, v: View, node: Node) {
    && node !in start.indices && node in v.indices
    && v.gray == start.gray + {node}
    && start.onStack + {node} <= v.onStack
    && (forall x {:trigger x in start.indices} :: x in start.indices ==>
         x in v.indices && v.indices[x] == start.indices[x] && v.indices[x] < v.indices[node])
    && (forall x {:trigger v.indices[x]} :: x in v.indices && x !in start.indices ==> v.indices[x] >= v.indices[node])
    && (forall x {:trigger x in v.onStack} :: x in v.onStack && x !in start.onStack ==> x !in start.indices)
  }

  // As `Running`, with lowlink `low` and the neighbours in `rem` still to come.
  ghost predicate Midway(g: Graph, reach: Relation, start: View, v: View, node: Node, low: nat, rem: set<Node>) {
    && Inv(g, reach, start) && Inv(g, reach, v) && Running(start, v, node)
    && low <= v.indices[node] && LowOk(g, reach, v, node, low, rem)
    && rem <= Neighbors(g, node) && Neighbors(g, node) - rem <= v.indices.Keys
  }

  lemma {:induction false} MidwayAfterChild(g: Graph, reach: Relation, start: View, v: View, w: View, node: Node,
        child: Node, low: nat, childLow: nat, rem: set<Node>)
    requires Midway(g, reach, start, v, node, low, rem) && child in rem
    requires Inv(g, reach, w) && Visited(g, reach, v, w, child, childLow) && w.gray == v.gray
    ensures Midway(g, reach, start, w, node, Min(low, childLow), rem - {child})
    ensures v.indices.Keys <= w.indices.Keys
  {
    assert Edge(g, node, child);
    AbsorbChild(g, reach, v, w, node, child, low, childLow, rem);
  }

  lemma {:induction false} MidwayAfterStackNeighbor(g: Graph, reach: Relation, start: View, v: View, node: Node,
        other: Node, low: nat, rem: set<Node>)
    requires Midway(g, reach, start, v, node, low, rem) && other in rem && other in v.onStack
    ensures Midway(g, reach, start, v, node, Min(low, v.indices[other]), rem - {other})
  {
    assert Edge(g, node, other);
    AbsorbStackNeighbor(g, reach, v, node, other, low, rem);
  }

  lemma {:induction false} MidwayAfterDoneNeighbor(g: Graph, reach: Relation, start: View, v: View, node: Node,
        other: Node, low: nat, rem: set<Node>)
    requires Midway(g, reach, start, v, node, low, rem) && other in rem && other in v.done
    ensures Midway(g, reach, start, v, node, low, rem - {other})
  {
  }

  lemma {:induction false} MidwayToFinish(g: Graph, reach: Relation, start: View, v: View, node: Node, low: nat)
    requires Midway(g, reach, start, v, node, low, {}) && low < v.indices[node]
    ensures Inv(g, reach, View(v.indices, v.onStack, start.gray, v.done))
    ensures Visited(g, reach, start, View(v.indices, v.onStack, start.gray, v.done), node, low)
  {
    assert forall y :: Edge(g, node, y) ==> y in v.indices;
    Finish(g, reach, v, node, low);
    assert v.gray - {node} == start.gray;
    VisitedByFinish(g, reach, start, v, node, low);
  }

  lemma {:induction false} MidwayToPop(g: Graph, reach: Relation, start: View, v: View, node: Node)
    requires node in v.indices && Midway(g, reach, start, v, node, v.indices[node], {})
    ensures var w := View(v.indices, start.onStack, start.gray, v.done + Above(v, node));
            Inv(g, reach, w) && Visited(g, reach, start, w, node, v.indices[node])
    ensures start.onStack == v.onStack - Above(v, node)
    ensures forall x, y {:trigger reach(x, y)} :: x in Above(v, node) ==>
              (y in Above(v, node) <==> reach(x, y) && reach(y, x))
  {
    assert forall y :: Edge(g, node, y) ==> y in v.indices;
    PopComponent(g, reach, v, node);
    AboveIsNew(g, reach, start, v, node);
    assert v.gray - {node} == start.gray;
    VisitedByPop(g, reach, start, v, node);
  }

  lemma {:induction false} ChildIsReached(g: Graph, reach: Relation, start: View, v: View, node: Node, child: Node,
        low: nat, rem: set<Node>, nodes: set<Node>)
    requires Midway(g, reach, start, v, node, low, rem) && child in rem
    requires Explored(g, nodes, {}) && v.indices.Keys <= nodes
    ensures child in nodes && AllReach(reach, v.gray, child)
  {
    assert Edge(g, node, child);
    GrayReachNeighbor(g, reach, v, start, node, child);
  }

  lemma {:induction false} AboveIsNew(g: Graph, reach: Relation, start: View, v: View, node: Node)
    requires Inv(g, reach, start) && Inv(g, reach, v) && Running(start, v, node)
    ensures Above(v, node) == v.onStack - start.onStack
  {
  }

  lemma {:induction false} VisitedByPop(g: Graph, reach: Relation, start: View, v: View, node: Node)
    requires Inv(g, reach, start) && Inv(g, reach, v) && Running(start, v, node)
    ensures Visited(g, reach, start, View(v.indices, start.onStack, start.gray, v.done + Above(v, node)), node,
              v.indices[node])
  {
  }

  lemma {:induction false} VisitedByFinish(g: Graph, reach: Relation, start: View, v: View, node: Node, low: nat)
    requires Inv(g, reach, start) && Inv(g, reach, v) && Running(start, v, node)
    requires LowOk(g, reach, v, node, low, {}) && low < v.indices[node]
    ensures Visited(g, reach, start, View(v.indices, v.onStack, start.gray, v.done), node, low)
  {
    var z :| z in v.onStack && v.indices[z] == low && reach(node, z);
    assert z in start.onStack;
  }

  lemma {:induction false} AddComponent(g: Graph, reach: Relation, cs: seq<seq<Node>>, c: seq<Node>)
    requires IsReach(g, reach) && ComponentsOk(g, cs)
    requires |c| > 0 && forall i, j :: 0 <= i < j < |c| ==> c[i] != c[j]
    requires forall x, y {:trigger reach(x, y)} :: x in Elems(c) ==> (y in Elems(c) <==> reach(x, y) && reach(y, x))
    requires Elems(c) !! Union(cs)
    ensures ComponentsOk(g, cs + [c]) && Union(cs + [c]) == Union(cs) + Elems(c)
  {
    forall x, y | x in c
      ensures y in c <==> Mutual(g, x, y)
    {
      assert x in Elems(c);
      assert y in Elems(c) <==> reach(x, y) && reach(y, x);
      assert reach(x, y) == Reach(g, x, y) && reach(y, x) == Reach(g, y, x);
    }
    assert (cs + [c])[..|cs|] == cs;
  }

  lemma {:induction false} GrayReachNeighbor(g: Graph, reach: Relation, v: View, start: View, node: Node,
        neighbor: Node)
    requires Inv(g, reach, v) && Running(start, v, node) && Edge(g, node, neighbor)
    requires start.gray <= start.indices.Keys
    ensures forall x :: x in v.gray ==> reach(x, neighbor)
  {
    RelEdge(g, reach, node, neighbor);
    forall x | x in v.gray
      ensures reach(x, neighbor)
    {
      assert v.indices[x] <= v.indices[node] ==> reach(x, node);
      RelTrans(g, reach, x, node, neighbor);
    }
  }

  function Min(a: nat, b: nat): nat {
    if a < b then a else b
  }

  // The stack lists the on-stack nodes, each once, in the order of their indices.
  ghost predicate StackOrder(indices: map<Node, nat>, onStack: set<Node>, stack: seq<Node>)
    requires onStack <= indices.Keys
  {
    if stack == [] then onStack == {}
    else
      var top := stack[|stack| - 1];
      && top in onStack
      && (forall x :: x in onStack && x != top ==> indices[x] < indices[top])
      && StackOrder(indices, onStack - {top}, stack[..|stack| - 1])
  }

  lemma {:induction false} StackSame(before: map<Node, nat>, after: map<Node, nat>, onStack: set<Node>,
        stack: seq<Node>)
    requires onStack <= before.Keys && Kept(before, after) && StackOrder(before, onStack, stack)
    ensures StackOrder(after, onStack, stack)
  {
    if stack != [] {
      StackSame(before, after, onStack - {stack[|stack| - 1]}, stack[..|stack| - 1]);
    }
  }

  lemma {:induction false} StackMember(indices: map<Node, nat>, onStack: set<Node>, stack: seq<Node>, i: nat)
    requires onStack <= indices.Keys && StackOrder(indices, onStack, stack) && i < |stack|
    ensures stack[i] in onStack && (i < |stack| - 1 ==> stack[i] != stack[|stack| - 1])
  {
    if i < |stack| - 1 {
      StackMember(indices, onStack - {stack[|stack| - 1]}, stack[..|stack| - 1], i);
    }
  }

  // `component` has been popped off, leaving `rest` on the stack.
  ghost predicate Popped(v: View, rest: set<Node>, stack: seq<Node>, component: seq<Node>) {
    && rest <= v.onStack <= v.indices.Keys && StackOrder(v.indices, rest, stack)
    && Elems(component) == v.onStack - rest
    && (forall x, y {:trigger x in component, y in rest} :: x in component && y in rest ==>
         x in v.indices && v.indices[x] > v.indices[y])
    && (forall i, j :: 0 <= i < j < |component| ==> component[i] != component[j])
  }

  lemma {:induction false} PopStep(v: View, rest: set<Node>, stack: seq<Node>, component: seq<Node>)
    requires Popped(v, rest, stack, component) && stack != []
    ensures var top := stack[|stack| - 1];
            Popped(v, rest - {top}, stack[..|stack| - 1], component + [top])
  {
    var top := stack[|stack| - 1];
    assert Elems(component + [top]) == Elems(component) + {top};
    forall i, j | 0 <= i < j < |component + [top]|
      ensures (component + [top])[i] != (component + [top])[j]
    {
      assert component != [] ==> component[if i < |component| then i else 0] in Elems(component);
    }
  }

  lemma {:induction false} LastPop(v: View, rest: set<Node>, stack: seq<Node>, component: seq<Node>)
    requires Popped(v, rest, stack, component) && stack != []
    ensures var top := stack[|stack| - 1];
            && top in v.indices && Elems(component + [top]) == Above(v, top)
            && rest - {top} == v.onStack - Above(v, top)
  {
    var top := stack[|stack| - 1];
    assert Elems(component + [top]) == Elems(component) + {top};
    forall x
      ensures x in Above(v, top) <==> x in Elems(component) + {top}
    {
      if x in component { assert v.indices[x] > v.indices[top]; }
    }
  }

  ghost predicate Bounded(indices: map<Node, nat>, index: nat) {
    forall x {:trigger x in indices} :: x in indices ==> indices[x] < index
  }

  lemma {:induction false} StackPush(indices: map<Node, nat>, onStack: set<Node>, stack: seq<Node>, node: Node,
        index: nat)
    requires onStack <= indices.Keys && StackOrder(indices, onStack, stack) && Bounded(indices, index)
               && node !in indices
    ensures StackOrder(indices[node := index], onStack + {node}, stack + [node])
    ensures Bounded(indices[node := index], index + 1)
  {
    StackSame(indices, indices[node := index], onStack, stack);
    assert (stack + [node])[..|stack|] == stack;
    assert onStack + {node} - {node} == onStack;
  }

  // Marks below `node` are untouched by a visit of it.
  ghost predicate Kept(before: map<Node, nat>, after: map<Node, nat>) {
    forall x {:trigger x in before} :: x in before ==> x in after && after[x] == before[x]
  }

  // A new node enters the maps and the stack in step.
  lemma {:induction false} Discovered(g: Graph, reach: Relation, v: View, w: View, lowlinks: map<Node, nat>,
        node: Node, index: nat, nodes: set<Node>)
    requires Inv(g, reach, v) && node !in v.indices && AllReach(reach, v.gray, node)
    requires Bounded(v.indices, index) && lowlinks.Keys == v.indices.Keys && v.indices.Keys <= nodes && node in nodes
    requires w == View(v.indices[node := index], v.onStack + {node}, v.gray + {node}, v.done)
    ensures Inv(g, reach, w) && Midway(g, reach, v, w, node, index, Neighbors(g, node))
    ensures lowlinks[node := index].Keys == w.indices.Keys <= nodes
    ensures Kept(lowlinks, lowlinks[node := index])
  {
    var _ := Push(g, reach, v, node, index);
    assert Running(v, w, node);
  }

  lemma {:induction false} KeptThrough(marks: map<Node, nat>, before: map<Node, nat>, after: map<Node, nat>,
        node: Node, low: nat)
    requires Kept(marks, before) && Kept(before, after) && node !in marks && node in before
    ensures Kept(marks, after[node := low]) && after[node := low].Keys == after.Keys
  {
  }

  class SccFinder {
    const graph: Graph
    ghost const reach: Relation
    ghost const nodes: set<Node>
    var index: nat
    var stack: seq<Node>
    var onStack: set<Node>
    var indices: map<Node, nat>
    var lowlinks: map<Node, nat>
    var components: seq<seq<Node>>
    ghost var view: View

    ghost predicate Valid()
      reads this
    {
      && Inv(graph, reach, view) && view.indices == indices && view.onStack == onStack
      && Explored(graph, nodes, {}) && indices.Keys <= nodes
      && ComponentsOk(graph, components) && view.done == Union(components)
      && StackOrder(indices, onStack, stack) && Bounded(indices, index)
      && lowlinks.Keys == indices.Keys
    }

    constructor (graph: Graph)
      ensures this.graph == graph && nodes == AllNodes(graph)
      ensures Valid() && view == View(map[], {}, {}, {}) && components == []
    {
      this.graph := graph;
      nodes := AllNodes(graph);
      reach := (x, y) => Reach(graph, x, y);
      index, stack, onStack := 0, [], {};
      indices, lowlinks, components := map[], map[], [];
      view := View(map[], {}, {}, {});
    }

    // The visit of one undiscovered node; `view.gray` is the chain of running visits above it.
    method Visit(node: Node)
      requires Valid() && node in nodes && node !in indices
      requires AllReach(reach, view.gray, node)
      modifies this
      ensures Valid() && view.gray == old(view).gray
      ensures node in lowlinks && Visited(graph, reach, old(view), view, node, lowlinks[node])
      ensures Kept(old(lowlinks), lowlinks)
      ensures old(stack) <= stack
      decreases nodes - indices.Keys, 0
    {
      ghost var start, marks, base := view, lowlinks, |stack|;
      hide AllReach, Midway, Visited, Kept;
      Discover(node);
      FollowAll(node, start, marks);
      if lowlinks[node] == indices[node] {
        Emit(node, start, base);
      } else {
        Retire(node, start);
      }
    }

    // The node belongs to a component rooted further down: it stays on the stack.
    ghost method Retire(node: Node, start: View)
      requires Valid() && node in indices && lowlinks[node] < indices[node]
      requires Midway(graph, reach, start, view, node, lowlinks[node], {})
      modifies this`view
      ensures Valid() && view.gray == start.gray
      ensures Visited(graph, reach, start, view, node, lowlinks[node])
    {
      MidwayToFinish(graph, reach, start, view, node, lowlinks[node]);
      view := View(view.indices, view.onStack, start.gray, view.done);
    }

    // The node gets the next index and goes on the stack.
    method Discover(node: Node)
      requires Valid() && node in nodes && node !in indices
      requires AllReach(reach, view.gray, node)
      modifies this
      ensures Valid() && Midway(graph, reach, old(view), view, node, old(index), Neighbors(graph, node))
      ensures node in indices && indices.Keys == old(indices.Keys) + {node}
      ensures node in lowlinks && lowlinks[node] == old(index) && Kept(old(lowlinks), lowlinks)
      ensures stack == old(stack) + [node]
    {
      ghost var pushed := View(indices[node := index], onStack + {node}, view.gray + {node}, view.done);
      Discovered(graph, reach, view, pushed, lowlinks, node, index, nodes);
      StackPush(indices, onStack, stack, node, index);
      indices := indices[node := index];
      lowlinks := lowlinks[node := index];
      index := index + 1;
      stack := stack + [node];
      onStack := onStack + {node};
      view := pushed;
    }

    // The neighbours of a node being visited, in any order.
    method FollowAll(node: Node, ghost start: View, ghost marks: map<Node, nat>)
      requires Valid() && node in indices && node !in marks && Kept(marks, lowlinks)
      requires Midway(graph, reach, start, view, node, lowlinks[node], Neighbors(graph, node))
      modifies this
      ensures Valid() && node in indices && Kept(marks, lowlinks)
      ensures Midway(graph, reach, start, view, node, lowlinks[node], {})
      ensures old(stack) <= stack
      decreases nodes - indices.Keys, 3
    {
      var rem := Neighbors(graph, node);
      while rem != {}
        invariant Valid() && node in indices && Kept(marks, lowlinks)
        invariant Midway(graph, reach, start, view, node, lowlinks[node], rem)
        invariant old(indices.Keys) <= indices.Keys
        invariant old(stack) <= stack
      {
        var neighbor :| neighbor in rem;
        Follow(node, neighbor, start, rem, marks);
        rem := rem - {neighbor};
      }
    }

    // One neighbour of a node being visited.
    method Follow(node: Node, neighbor: Node, ghost start: View, ghost rem: set<Node>, ghost marks: map<Node, nat>)
      requires Valid() && node in indices && neighbor in rem && node !in marks && Kept(marks, lowlinks)
      requires Midway(graph, reach, start, view, node, lowlinks[node], rem)
      modifies this
      ensures Valid() && node in indices && old(indices.Keys) <= indices.Keys && Kept(marks, lowlinks)
      ensures Midway(graph, reach, start, view, node, lowlinks[node], rem - {neighbor})
      ensures old(stack) <= stack
      decreases nodes - indices.Keys, 2
    {
      ghost var low := lowlinks[node];
      if neighbor !in indices {
        VisitChild(node, neighbor, start, rem, marks);
      } else if neighbor in onStack {
        MidwayAfterStackNeighbor(graph, reach, start, view, node, neighbor, low, rem);
        lowlinks := lowlinks[node := Min(lowlinks[node], indices[neighbor])];
      } else {
        MidwayAfterDoneNeighbor(graph, reach, start, view, node, neighbor, low, rem);
      }
    }

    method VisitChild(node: Node, child: Node, ghost start: View, ghost rem: set<Node>, ghost marks: map<Node, nat>)
      requires Valid() && node in indices && child in rem && child !in indices && node !in marks
                 && Kept(marks, lowlinks)
      requires Midway(graph, reach, start, view, node, lowlinks[node], rem)
      modifies this
      ensures Valid() && node in indices && old(indices.Keys) <= indices.Keys && Kept(marks, lowlinks)
      ensures Midway(graph, reach, start, view, node, lowlinks[node], rem - {child})
      ensures old(stack) <= stack
      decreases nodes - indices.Keys, 1
    {
      ghost var before := view;
      var low := lowlinks[node];
      ghost var kept := lowlinks;
      ChildIsReached(graph, reach, start, view, node, child, low, rem, nodes);
      Visit(child);
      MidwayAfterChild(graph, reach, start, before, view, node, child, low, lowlinks[child], rem);
      KeptThrough(marks, kept, lowlinks, node, Min(low, lowlinks[child]));
      lowlinks := lowlinks[node := Min(low, lowlinks[child])];
    }

    // The node is the root of a component, which is the stack from the node up.
    method Emit(node: Node, ghost start: View, ghost base: nat)
      requires Valid() && node in indices
      requires Midway(graph, reach, start, view, node, indices[node], {})
      requires base < |stack| && stack[base] == node
      modifies this`stack, this`onStack, this`components, this`view
      ensures Valid() && view.gray == start.gray && stack == old(stack)[..base]
      ensures Visited(graph, reach, start, view, node, indices[node])
    {
      MidwayToPop(graph, reach, start, view, node);
      var component := PopTo(node, base);
      AddComponent(graph, reach, components, component);
      components := components + [component];
      view := View(view.indices, start.onStack, start.gray, view.done + Above(view, node));
    }

    method PopTo(node: Node, ghost base: nat) returns (component: seq<Node>)
      requires onStack <= indices.Keys && StackOrder(indices, onStack, stack)
      requires view.indices == indices && view.onStack == onStack
      requires base < |stack| && stack[base] == node
      modifies this`stack, this`onStack
      ensures stack == old(stack)[..base] && node in indices && onStack == old(onStack) - Above(view, node)
      ensures StackOrder(indices, onStack, stack)
      ensures Elems(component) == Above(view, node) && |component| > 0
      ensures forall i, j :: 0 <= i < j < |component| ==> component[i] != component[j]
    {
      ghost var full := stack;
      component := [];
      while true
        invariant base < |stack| <= |full| && stack == full[..|stack|]
        invariant Popped(view, onStack, stack, component)
        decreases |stack|
      {
        PopStep(view, onStack, stack, component);
        LastPop(view, onStack, stack, component);
        StackMember(indices, onStack, stack, base);
        var current := stack[|stack| - 1];
        stack := stack[..|stack| - 1];
        onStack := onStack - {current};
        component := component + [current];
        if current == node { break; }
      }
    }
  }

  // Components partition `nodes`, and each is one class of mutual reachability.
  ghost predicate IsSccPartition(g: Graph, nodes: set<Node>, cs: seq<seq<Node>>) {
    && (forall i {:trigger cs[i]} :: 0 <= i < |cs| ==> IsScc(g, cs[i]))
    && Disjoint(cs)
    && (forall x :: x in nodes <==> exists i :: 0 <= i < |cs| && x in cs[i])
  }

  lemma {:induction false} ComponentsAreSccs(g: Graph, cs: seq<seq<Node>>, i: nat, j: nat, x: Node)
    requires ComponentsOk(g, cs) && i < |cs| && j < |cs| && x in cs[i]
    ensures IsScc(g, cs[i]) && (x in cs[j] ==> i == j)
    decreases |cs|
  {
    var last := |cs| - 1;
    if i < last && j < last {
      ComponentsAreSccs(g, cs[..last], i, j, x);
    } else if i < last {
      UnionContains(cs[..last], i);
      assert x in Elems(cs[..last][i]);
      ComponentsAreSccs(g, cs[..last], i, i, x);
    } else if j < last {
      UnionContains(cs[..last], j);
      assert x in cs[j] ==> x in Elems(cs[..last][j]);
    }
  }

  lemma {:induction false} ComponentsNonempty(g: Graph, cs: seq<seq<Node>>, i: nat)
    requires ComponentsOk(g, cs) && i < |cs|
    ensures IsScc(g, cs[i])
    decreases |cs|
  {
    if i < |cs| - 1 {
      ComponentsNonempty(g, cs[..|cs| - 1], i);
    }
  }

  lemma {:induction false} UnionIsMembers(cs: seq<seq<Node>>, x: Node)
    ensures x in Union(cs) <==> exists i :: 0 <= i < |cs| && x in cs[i]
  {
    if x in Union(cs) {
      var i := UnionMember(cs, x);
    }
    forall i | 0 <= i < |cs| && x in cs[i]
      ensures x in Union(cs)
    {
      UnionContains(cs, i);
      assert x in Elems(cs[i]);
    }
  }

  lemma {:induction false} PartitionOf(g: Graph, nodes: set<Node>, cs: seq<seq<Node>>)
    requires ComponentsOk(g, cs) && Union(cs) == nodes
    ensures IsSccPartition(g, nodes, cs)
  {
    forall i | 0 <= i < |cs|
      ensures IsScc(g, cs[i])
    {
      ComponentsNonempty(g, cs, i);
    }
    forall i, j, x | 0 <= i < |cs| && 0 <= j < |cs| && x in cs[i] && x in cs[j]
      ensures i == j
    {
      ComponentsAreSccs(g, cs, i, j, x);
    }
    forall x
      ensures x in nodes <==> exists i :: 0 <= i < |cs| && x in cs[i]
    {
      UnionIsMembers(cs, x);
    }
  }

  // With no visit running, nothing is left on the stack.
  lemma {:induction false} IdleStackIsEmpty(g: Graph, reach: Relation, v: View)
    requires Inv(g, reach, v) && v.gray == {}
    ensures v.onStack == {} && v.indices.Keys == v.done
  {
    assert forall y :: y in v.onStack ==> ReachesGray(g, reach, v.indices, v.gray, y);
  }

  method StronglyConnectedComponents(graph: Graph) returns (components: seq<seq<Node>>)
    ensures IsSccPartition(graph, AllNodes(graph), components)
  {
    var finder := new SccFinder(graph);
    var todo := AllNodes(graph);
    while todo != {}
      invariant finder.Valid() && finder.graph == graph && finder.view.gray == {} && fresh(finder)
      invariant finder.nodes == AllNodes(graph)
      invariant todo <= AllNodes(graph) && AllNodes(graph) - todo <= finder.indices.Keys
    {
      var node :| node in todo;
      todo := todo - {node};
      if node !in finder.indices {
        finder.Visit(node);
      }
    }
    IdleStackIsEmpty(graph, finder.reach, finder.view);
    components := finder.components;
    PartitionOf(graph, AllNodes(graph), components);
  }

  datatype KnowledgeEdge = KnowledgeEdge(isImport: bool, source: Node, target: Node)

  predicate IsFileImport(e: KnowledgeEdge, isFile: Node -> bool) {
    e.isImport && isFile(e.source) && isFile(e.target)
  }

  // The import graph: one adjacency set per importing file.
  method ImportGraph(edges: seq<KnowledgeEdge>, isFile: Node -> bool) returns (graph: Graph)
    ensures forall x, y :: Edge(graph, x, y) <==>
              exists e :: e in edges && IsFileImport(e, isFile) && e.source == x && e.target == y
    ensures forall x :: x in graph ==> graph[x] != {}
  {
    graph := map[];
    for i := 0 to |edges|
      invariant forall x, y :: Edge(graph, x, y) <==>
                  exists e :: e in edges[..i] && IsFileImport(e, isFile) && e.source == x && e.target == y
      invariant forall x :: x in graph ==> graph[x] != {}
    {
      var e := edges[i];
      assert forall d :: d in edges[..i + 1] <==> d in edges[..i] || d == e;
      if IsFileImport(e, isFile) {
        ghost var before := graph;
        graph := graph[e.source := Neighbors(graph, e.source) + {e.target}];
        assert forall x, y :: Edge(graph, x, y) <==> Edge(before, x, y) || (x == e.source && y == e.target);
      }
    }
    assert edges[..|edges|] == edges;
  }

  const MAX_CYCLES := 50

  ghost predicate OnMultiFileCycle(g: Graph, x: Node) {
    exists y :: y != x && Mutual(g, x, y)
  }

  // The components of two files or more, in order.
  function MultiFile(cs: seq<seq<Node>>): seq<seq<Node>> {
    if cs == [] then []
    else
      var last := cs[|cs| - 1];
      MultiFile(cs[..|cs| - 1]) + if |last| >= 2 then [last] else []
  }

  lemma {:induction false} MultiFilePrefix(cs: seq<seq<Node>>, k: nat)
    requires k <= |cs|
    ensures MultiFile(cs[..k]) <= MultiFile(cs)
    decreases |cs| - k
  {
    if k < |cs| {
      assert cs[..k + 1][..k] == cs[..k];
      MultiFilePrefix(cs, k + 1);
    } else {
      assert cs[..k] == cs;
    }
  }

  lemma {:induction false} MultiFileMember(cs: seq<seq<Node>>, i: nat) returns (m: nat)
    requires i < |MultiFile(cs)|
    ensures m < |cs| && cs[m] == MultiFile(cs)[i] && |cs[m]| >= 2
  {
    if i < |MultiFile(cs[..|cs| - 1])| {
      m := MultiFileMember(cs[..|cs| - 1], i);
    } else {
      m := |cs| - 1;
    }
  }

  lemma {:induction false} MultiFileHas(cs: seq<seq<Node>>, m: nat) returns (i: nat)
    requires m < |cs| && |cs[m]| >= 2
    ensures i < |MultiFile(cs)| && MultiFile(cs)[i] == cs[m]
  {
    if m < |cs| - 1 {
      i := MultiFileHas(cs[..|cs| - 1], m);
    } else {
      i := |MultiFile(cs)| - 1;
    }
  }

  ghost predicate Disjoint(cs: seq<seq<Node>>) {
    forall i, j, x :: 0 <= i < |cs| && 0 <= j < |cs| && x in cs[i] && x in cs[j] ==> i == j
  }

  lemma {:induction false} MultiFileDisjoint(cs: seq<seq<Node>>)
    requires Disjoint(cs)
    ensures Disjoint(MultiFile(cs))
  {
    if cs != [] {
      var init, last := cs[..|cs| - 1], cs[|cs| - 1];
      MultiFileDisjoint(init);
      forall i, x | 0 <= i < |MultiFile(init)| && x in MultiFile(init)[i]
        ensures x !in last
      {
        var m := MultiFileMember(init, i);
        assert x in cs[m];
      }
    }
  }

  // The first fifty of them.
  method FirstCycles(components: seq<seq<Node>>) returns (cycles: seq<seq<Node>>)
    ensures cycles == if |MultiFile(components)| <= MAX_CYCLES then MultiFile(components)
              else MultiFile(components)[..MAX_CYCLES]
  {
    cycles := [];
    for k := 0 to |components|
      invariant cycles == MultiFile(components[..k]) && |cycles| < MAX_CYCLES
    {
      assert components[..k + 1][..k] == components[..k];
      MultiFilePrefix(components, k + 1);
      if |components[k]| >= 2 {
        cycles := cycles + [components[k]];
        if |cycles| >= MAX_CYCLES { return; }
      }
    }
    assert components[..|components|] == components;
  }

  // The import cycles reported for the graph's edges.
  method KnowledgeGraphCycles(edges: seq<KnowledgeEdge>, isFile: Node -> bool)
    returns (cycles: seq<seq<Node>>, ghost graph: Graph)
    ensures forall x, y :: Edge(graph, x, y) <==>
              exists e :: e in edges && IsFileImport(e, isFile) && e.source == x && e.target == y
    ensures |cycles| <= MAX_CYCLES && Disjoint(cycles)
    ensures forall i {:trigger cycles[i]} :: 0 <= i < |cycles| ==> |cycles[i]| >= 2 && IsScc(graph, cycles[i])
    ensures |cycles| < MAX_CYCLES ==>
              forall x :: OnMultiFileCycle(graph, x) <==> exists i :: 0 <= i < |cycles| && x in cycles[i]
  {
    var g := ImportGraph(edges, isFile);
    graph := g;
    var components := StronglyConnectedComponents(g);
    cycles := FirstCycles(components);
    MultiFileDisjoint(components);
    forall i | 0 <= i < |cycles|
      ensures |cycles[i]| >= 2 && IsScc(g, cycles[i])
    {
      var m := MultiFileMember(components, i);
    }
    if |cycles| < MAX_CYCLES {
      forall x
        ensures OnMultiFileCycle(g, x) <==> exists i :: 0 <= i < |cycles| && x in cycles[i]
      {
        CycleMembers(g, components, x);
      }
    }
  }

  // A node that reaches another one has an edge, so it is one of the nodes.
  lemma {:induction false} MutualIsNode(g: Graph, x: Node, y: Node)
    requires x != y && Reach(g, x, y)
    ensures x in AllNodes(g)
  {
    var p :| PathFromTo(g, p, x, y);
    assert Edge(g, p[0], p[1]);
  }

  // A file is on a cycle of several files exactly when it is in a multi-file component.
  lemma {:induction false} CycleMembers(g: Graph, components: seq<seq<Node>>, x: Node)
    requires IsSccPartition(g, AllNodes(g), components)
    ensures OnMultiFileCycle(g, x) <==> exists i :: 0 <= i < |MultiFile(components)| && x in MultiFile(components)[i]
  {
    if OnMultiFileCycle(g, x) {
      var y :| y != x && Mutual(g, x, y);
      MutualIsNode(g, x, y);
      var m :| 0 <= m < |components| && x in components[m];
      assert IsScc(g, components[m]) && y in components[m];
      var i := MultiFileHas(components, m);
    }
    if i :| 0 <= i < |MultiFile(components)| && x in MultiFile(components)[i] {
      var m := MultiFileMember(components, i);
      var c := components[m];
      assert IsScc(g, c) && c[0] != c[1];
      var y := if c[0] == x then c[1] else c[0];
      assert y in c && Mutual(g, x, y);
    }
  }
}
