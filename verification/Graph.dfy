// Nodes, routes and transitions of an agent graph, and the walks they allow
// (agent-core/src/graph/id.rs, node.rs).
module Graphs {
  import opened Wrappers

  type NodeId = string
  type RouteKey = string

  const MAX_ID_BYTES := 64

  predicate IdCharacter(c: char) {
    'a' <= c <= 'z' || 'A' <= c <= 'Z' || '0' <= c <= '9' || c == '.' || c == '_' || c == '-'
  }

  /** Identifiers are 1 to 64 ASCII letters, digits, dots, underscores or hyphens. */
  predicate ValidId(value: string) {
    && 0 < |value| <= MAX_ID_BYTES
    && forall i :: 0 <= i < |value| ==> IdCharacter(value[i])
  }

  /** A router is application code; tag says which code, known is the list of
      routes it declares. */
  datatype Router = Router(tag: int, known: seq<RouteKey>)

  datatype Transition =
    | Goto(target: NodeId)
    | Branch(router: Router, targets: map<RouteKey, NodeId>)
    | End

  /** A node is application code (tag) under its own id, or a mounted node: an
      inner node answering under a namespaced id. */
  datatype Node = Task(id: NodeId, tag: int) | Namespaced(id: NodeId, inner: Node)

  /** Executing a mounted node is executing the node inside it. */
  function Behaviour(n: Node): int {
    match n
    case Task(_, tag) => tag
    case Namespaced(_, inner) => Behaviour(inner)
  }

  function Targets(t: Transition): set<NodeId> {
    match t
    case Goto(target) => {target}
    case Branch(_, targets) => targets.Values
    case End => {}
  }

  predicate Edge(ts: map<NodeId, Transition>, a: NodeId, b: NodeId) {
    a in ts && b in Targets(ts[a])
  }

  /** A walk visits at least one node and follows an edge at every step. */
  predicate IsWalk(ts: map<NodeId, Transition>, w: seq<NodeId>) {
    && w != []
    && forall i :: 0 <= i < |w| - 1 ==> Edge(ts, w[i], w[i + 1])
  }

  predicate WalkBetween(ts: map<NodeId, Transition>, w: seq<NodeId>, a: NodeId, b: NodeId) {
    IsWalk(ts, w) && w[0] == a && w[|w| - 1] == b
  }

  ghost predicate Reaches(ts: map<NodeId, Transition>, a: NodeId, b: NodeId) {
    exists w :: WalkBetween(ts, w, a, b)
  }

  ghost predicate CanEnd(ts: map<NodeId, Transition>, a: NodeId) {
    exists b :: b in ts && ts[b].End? && Reaches(ts, a, b)
  }

  predicate NoDuplicates<T(==)>(s: seq<T>) {
    forall i, j :: 0 <= i < j < |s| ==> s[i] != s[j]
  }

  lemma ReachesSelf(ts: map<NodeId, Transition>, a: NodeId)
    ensures Reaches(ts, a, a)
  {
    assert WalkBetween(ts, [a], a, a);
  }

  lemma ReachesThenEdge(ts: map<NodeId, Transition>, a: NodeId, b: NodeId, c: NodeId)
    requires Reaches(ts, a, b) && Edge(ts, b, c)
    ensures Reaches(ts, a, c)
  {
    var w :| WalkBetween(ts, w, a, b);
    assert WalkBetween(ts, w + [c], a, c);
  }

  lemma EdgeThenReaches(ts: map<NodeId, Transition>, a: NodeId, b: NodeId, c: NodeId)
    requires Edge(ts, a, b) && Reaches(ts, b, c)
    ensures Reaches(ts, a, c)
  {
    var w :| WalkBetween(ts, w, b, c);
    assert WalkBetween(ts, [a] + w, a, c);
  }

  /** A set that every edge leads back into holds all of a walk that starts in it. */
  lemma {:induction false} ClosedSetHoldsWalks(ts: map<NodeId, Transition>, closed: set<NodeId>, w: seq<NodeId>)
    requires forall a, b :: a in closed && Edge(ts, a, b) ==> b in closed
    requires IsWalk(ts, w) && w[0] in closed
    ensures w[|w| - 1] in closed
  {
    if |w| > 1 {
      var front := w[..|w| - 1];
      assert front[0] == w[0];
      ClosedSetHoldsWalks(ts, closed, front);
      assert Edge(ts, w[|w| - 2], w[|w| - 1]);
    }
  }

  /** Dually, a set that contains the source of every edge into it holds the start
      of every walk that ends in it. */
  lemma {:induction false} BackwardClosedSetHoldsWalks(ts: map<NodeId, Transition>, closed: set<NodeId>, w: seq<NodeId>)
    requires forall a, b :: b in closed && Edge(ts, a, b) ==> a in closed
    requires IsWalk(ts, w) && w[|w| - 1] in closed
    ensures w[0] in closed
  {
    if |w| > 1 {
      var back := w[1..];
      assert IsWalk(ts, back) by {
        forall i | 0 <= i < |back| - 1 ensures Edge(ts, back[i], back[i + 1]) {
          assert Edge(ts, w[i + 1], w[i + 2]);
        }
      }
      BackwardClosedSetHoldsWalks(ts, closed, back);
      assert Edge(ts, w[0], w[1]);
    }
  }
}
