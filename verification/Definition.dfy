// The graph under construction and its compiler (agent-core/src/graph/definition.rs).
module Definitions {
  import opened Wrappers
  import opened Integers
  import opened Sets
  import opened Graphs

  /** Identity of a fragment exit: namespace and name kept apart. */
  datatype ExitKey = ExitKey(ns: string, name: string)

  datatype OpenRoute = OpenRoute(source: NodeId, route: RouteKey)

  /** The value of a definition. */
  datatype Draft = Draft(
    nodes: map<NodeId, Node>,
    entry: Option<NodeId>,
    transitions: map<NodeId, Transition>,
    namespaces: set<string>,
    unresolved: map<ExitKey, OpenRoute>)

  datatype CompiledGraph = CompiledGraph(
    id: string,
    version: NonZeroU32,
    nodes: map<NodeId, Node>,
    entry: NodeId,
    transitions: map<NodeId, Transition>,
    maxSteps: NonZeroU32)

  datatype CompileError =
    | UnresolvedFragmentExit(exit: ExitKey)
    | MissingEntry
    | EntryNodeMissing(node: NodeId)
    | MissingTransition(node: NodeId)
    | DanglingTarget(from: NodeId, target: NodeId)
    | EmptyBranch(node: NodeId)
    | DuplicateKnownRoute(node: NodeId, route: RouteKey)
    | MissingRouteTarget(node: NodeId, route: RouteKey)
    | UnknownRouteTarget(node: NodeId, route: RouteKey)
    | UnreachableNode(node: NodeId)
    | NoTerminalPath
    | NodeCannotReachEnd(node: NodeId)

  datatype BuildError =
    | DuplicateNode(node: NodeId)
    | UnknownTransitionSource(node: NodeId)
    | DuplicateTransition(node: NodeId)

  // ---- What a definition must satisfy ----

  predicate BranchComplete(nodes: map<NodeId, Node>, router: Router, targets: map<RouteKey, NodeId>) {
    && targets.Keys != {}
    && NoDuplicates(router.known)
    && targets.Keys == (set r | r in router.known)
    && targets.Values <= nodes.Keys
  }

  predicate TransitionOk(nodes: map<NodeId, Node>, t: Transition) {
    match t
    case Goto(target) => target in nodes
    case Branch(router, targets) => BranchComplete(nodes, router, targets)
    case End => true
  }

  predicate TransitionsOk(nodes: map<NodeId, Node>, ts: map<NodeId, Transition>) {
    forall n :: n in ts ==> TransitionOk(nodes, ts[n])
  }

  ghost predicate Compilable(d: Draft) {
    && d.unresolved.Keys == {}
    && d.entry.Some? && d.entry.value in d.nodes
    && d.nodes.Keys <= d.transitions.Keys
    && TransitionsOk(d.nodes, d.transitions)
    && (forall n :: n in d.nodes ==> Reaches(d.transitions, d.entry.value, n))
    && (forall n :: n in d.nodes ==> CanEnd(d.transitions, n))
  }

  /** What a compile error asserts about the definition. */
  ghost predicate Faulty(d: Draft, e: CompileError) {
    match e
    case UnresolvedFragmentExit(exit) => exit in d.unresolved
    case MissingEntry => d.entry.None?
    case EntryNodeMissing(node) => d.entry == Some(node) && node !in d.nodes
    case MissingTransition(node) => node in d.nodes && node !in d.transitions
    case DanglingTarget(from, target) => Edge(d.transitions, from, target) && target !in d.nodes
    case EmptyBranch(node) =>
      node in d.transitions && d.transitions[node].Branch? && d.transitions[node].targets.Keys == {}
    case DuplicateKnownRoute(node, route) =>
      && node in d.transitions && d.transitions[node].Branch?
      && var known := d.transitions[node].router.known;
         exists i, j :: 0 <= i < j < |known| && known[i] == route && known[j] == route
    case MissingRouteTarget(node, route) =>
      && node in d.transitions && d.transitions[node].Branch?
      && route in d.transitions[node].router.known && route !in d.transitions[node].targets
    case UnknownRouteTarget(node, route) =>
      && node in d.transitions && d.transitions[node].Branch?
      && route in d.transitions[node].targets && route !in d.transitions[node].router.known
    case UnreachableNode(node) =>
      && node in d.nodes && d.entry.Some? && !Reaches(d.transitions, d.entry.value, node)
    case NoTerminalPath => forall n :: n in d.transitions ==> !d.transitions[n].End?
    case NodeCannotReachEnd(node) => node in d.nodes && !CanEnd(d.transitions, node)
  }

  /** The compiler checks in stages and reports the first stage that fails. */
  function Stage(e: CompileError): nat {
    match e
    case UnresolvedFragmentExit(_) => 0
    case MissingEntry => 1
    case EntryNodeMissing(_) => 2
    case MissingTransition(_) => 3
    case UnreachableNode(_) => 5
    case NoTerminalPath => 6
    case NodeCannotReachEnd(_) => 6
    case _ => 4
  }

  ghost predicate PassesStagesBelow(d: Draft, stage: nat) {
    && (stage > 0 ==> d.unresolved.Keys == {})
    && (stage > 1 ==> d.entry.Some?)
    && (stage > 2 ==> d.entry.value in d.nodes)
    && (stage > 3 ==> d.nodes.Keys <= d.transitions.Keys)
    && (stage > 4 ==> TransitionsOk(d.nodes, d.transitions))
    && (stage > 5 ==> forall n :: n in d.nodes ==> Reaches(d.transitions, d.entry.value, n))
  }

  // ---- The compiler's passes ----

  method ValidateTarget(nodes: map<NodeId, Node>, source: NodeId, target: NodeId)
    returns (error: Option<CompileError>)
    ensures error == if target in nodes then None else Some(DanglingTarget(source, target))
  {
    if target in nodes {
      return None;
    }
    return Some(DanglingTarget(source, target));
  }

  method ValidateBranch(nodes: map<NodeId, Node>, source: NodeId, router: Router, targets: map<RouteKey, NodeId>)
    returns (error: Option<CompileError>)
    ensures error == None <==> BranchComplete(nodes, router, targets)
    ensures error.Some? ==> Stage(error.value) == 4
    ensures forall d: Draft ::
              && d.nodes == nodes && error.Some?
              && source in d.transitions && d.transitions[source] == Branch(router, targets)
              ==> Faulty(d, error.value)
  {
    if targets.Keys == {} {
      return Some(EmptyBranch(source));
    }
    var unique: set<RouteKey> := {};
    var i := 0;
    while i < |router.known|
      invariant 0 <= i <= |router.known|
      invariant unique == set r | r in router.known[..i]
      invariant NoDuplicates(router.known[..i])
    {
      var route := router.known[i];
      if route in unique {
        assert exists j :: 0 <= j < i && router.known[j] == route;
        return Some(DuplicateKnownRoute(source, route));
      }
      unique := unique + {route};
      assert router.known[..i + 1] == router.known[..i] + [route];
      i := i + 1;
    }
    assert router.known[..i] == router.known;
    var pending := unique;
    while pending != {}
      invariant pending <= unique
      invariant unique - pending <= targets.Keys
    {
      var route :| route in pending;
      if route !in targets {
        return Some(MissingRouteTarget(source, route));
      }
      pending := pending - {route};
    }
    var rest := targets.Keys;
    while rest != {}
      invariant rest <= targets.Keys
      invariant forall r :: r in targets.Keys - rest ==> r in unique && targets[r] in nodes
    {
      var route :| route in rest;
      if route !in unique {
        return Some(UnknownRouteTarget(source, route));
      }
      var dangling := ValidateTarget(nodes, source, targets[route]);
      if dangling.Some? {
        return dangling;
      }
      rest := rest - {route};
    }
    return None;
  }

  method ValidateTransitions(nodes: map<NodeId, Node>, ts: map<NodeId, Transition>)
    returns (error: Option<CompileError>)
    ensures error == None <==> TransitionsOk(nodes, ts)
    ensures error.Some? ==> Stage(error.value) == 4
    ensures forall d: Draft ::
              d.nodes == nodes && d.transitions == ts && error.Some? ==> Faulty(d, error.value)
  {
    var rest := ts.Keys;
    while rest != {}
      invariant rest <= ts.Keys
      invariant forall n :: n in ts.Keys - rest ==> TransitionOk(nodes, ts[n])
    {
      var source :| source in rest;
      match ts[source] {
        case Goto(target) =>
          var dangling := ValidateTarget(nodes, source, target);
          if dangling.Some? {
            assert Edge(ts, source, target);
            return dangling;
          }
        case Branch(router, targets) =>
          var bad := ValidateBranch(nodes, source, router, targets);
          if bad.Some? {
            return bad;
          }
        case End =>
      }
      rest := rest - {source};
    }
    return None;
  }

  /** The targets of a transition, in some order. */
  method TransitionTargets(t: Transition) returns (out: seq<NodeId>)
    ensures forall n :: n in out <==> n in Targets(t)
  {
    match t {
      case Goto(target) => out := [target];
      case Branch(_, targets) =>
        out := [];
        var rest := targets.Keys;
        while rest != {}
          invariant rest <= targets.Keys
          invariant forall n :: n in out <==> exists r :: r in targets.Keys - rest && targets[r] == n
        {
          var route :| route in rest;
          out := out + [targets[route]];
          rest := rest - {route};
        }
      case End => out := [];
    }
  }

  method ValidateReachability(entry: NodeId, nodes: map<NodeId, Node>, ts: map<NodeId, Transition>)
    returns (error: Option<CompileError>)
    requires entry in nodes && nodes.Keys <= ts.Keys && TransitionsOk(nodes, ts)
    ensures error == None <==> forall n :: n in nodes ==> Reaches(ts, entry, n)
    ensures error.Some? ==> error.value.UnreachableNode? && error.value.node in nodes
                            && !Reaches(ts, entry, error.value.node)
  {
    var reachable: set<NodeId> := {};
    var queue := [entry];
    ReachesSelf(ts, entry);
    while queue != []
      invariant reachable <= nodes.Keys
      invariant forall n :: n in queue ==> n in nodes && Reaches(ts, entry, n)
      invariant forall n :: n in reachable ==> Reaches(ts, entry, n)
      invariant entry in reachable || entry in queue
      invariant forall a, b :: a in reachable && Edge(ts, a, b) ==> b in reachable || b in queue
      decreases |nodes.Keys - reachable|, |queue|
    {
      var node := queue[0];
      ghost var before := queue;
      queue := queue[1..];
      assert forall n :: n in before ==> n == node || n in queue;
      if node in reachable {
        continue;
      }
      LessRemains(nodes.Keys, reachable, node);
      reachable := reachable + {node};
      var targets := TransitionTargets(ts[node]);
      forall t | t in targets ensures t in nodes && Reaches(ts, entry, t) {
        assert t in Targets(ts[node]) && TransitionOk(nodes, ts[node]);
        ReachesThenEdge(ts, entry, node, t);
      }
      queue := queue + targets;
    }
    forall n | n in nodes && Reaches(ts, entry, n) ensures n in reachable {
      var w :| WalkBetween(ts, w, entry, n);
      ClosedSetHoldsWalks(ts, reachable, w);
    }
    if missing :| missing in nodes.Keys - reachable {
      return Some(UnreachableNode(missing));
    }
    return None;
  }

  method Predecessors(ts: map<NodeId, Transition>) returns (previous: map<NodeId, seq<NodeId>>)
    ensures forall b :: b in previous ==> forall a :: a in previous[b] <==> Edge(ts, a, b)
    ensures forall a, b :: Edge(ts, a, b) ==> b in previous
  {
    previous := map[];
    var rest := ts.Keys;
    while rest != {}
      invariant rest <= ts.Keys
      invariant forall b :: b in previous ==> forall a :: a in previous[b] <==> a !in rest && Edge(ts, a, b)
      invariant forall a, b :: a !in rest && Edge(ts, a, b) ==> b in previous
    {
      var source :| source in rest;
      var targets := TransitionTargets(ts[source]);
      ghost var handled := ts.Keys - rest;
      var i := 0;
      while i < |targets|
        invariant 0 <= i <= |targets|
        invariant forall b :: b in previous ==> forall a ::
                    a in previous[b] <==> (a in handled && Edge(ts, a, b)) || (a == source && b in targets[..i])
        invariant forall a, b :: a in handled && Edge(ts, a, b) ==> b in previous
        invariant forall b :: b in targets[..i] ==> b in previous
      {
        var target := targets[i];
        var known := if target in previous then previous[target] else [];
        previous := previous[target := known + [source]];
        assert targets[..i + 1] == targets[..i] + [target];
        i := i + 1;
      }
      assert targets[..i] == targets;
      assert forall b :: b in targets <==> b in Targets(ts[source]);
      rest := rest - {source};
    }
  }

  method TerminalNodes(ts: map<NodeId, Transition>) returns (terminals: seq<NodeId>)
    ensures forall n :: n in terminals <==> n in ts && ts[n].End?
  {
    terminals := [];
    var rest := ts.Keys;
    while rest != {}
      invariant rest <= ts.Keys
      invariant forall n :: n in terminals <==> n in ts.Keys - rest && ts[n].End?
    {
      var node :| node in rest;
      if ts[node].End? {
        terminals := terminals + [node];
      }
      rest := rest - {node};
    }
  }

  lemma PredecessorsCanEnd(ts: map<NodeId, Transition>, node: NodeId, sources: seq<NodeId>)
    requires CanEnd(ts, node)
    requires forall a :: a in sources ==> Edge(ts, a, node)
    ensures forall a :: a in sources ==> a in ts && CanEnd(ts, a)
  {
    var end :| end in ts && ts[end].End? && Reaches(ts, node, end);
    forall a | a in sources ensures CanEnd(ts, a) {
      EdgeThenReaches(ts, a, node, end);
    }
  }

  lemma BackwardClosedSetIsComplete(ts: map<NodeId, Transition>, canEnd: set<NodeId>)
    requires forall n :: n in ts && ts[n].End? ==> n in canEnd
    requires forall a, b :: b in canEnd && Edge(ts, a, b) ==> a in canEnd
    ensures forall n :: CanEnd(ts, n) ==> n in canEnd
  {
    forall n | CanEnd(ts, n) ensures n in canEnd {
      var end :| end in ts && ts[end].End? && Reaches(ts, n, end);
      var w :| WalkBetween(ts, w, n, end);
      BackwardClosedSetHoldsWalks(ts, canEnd, w);
    }
  }

  /** Progress of the backward search: what is done or queued can end, every End
      node is done or queued, and so is every source of an edge into a done node. */
  ghost predicate BackwardSearch(ts: map<NodeId, Transition>, done: set<NodeId>, queue: seq<NodeId>) {
    && (forall n :: n in queue || n in done ==> n in ts && CanEnd(ts, n))
    && (forall n :: n in ts && ts[n].End? ==> n in done || n in queue)
    && (forall a, b :: b in done && Edge(ts, a, b) ==> a in done || a in queue)
  }

  lemma BackwardSearchStep(ts: map<NodeId, Transition>, done: set<NodeId>, queue: seq<NodeId>, sources: seq<NodeId>)
    requires queue != [] && BackwardSearch(ts, done, queue)
    requires forall a :: a in sources <==> Edge(ts, a, queue[0])
    ensures BackwardSearch(ts, done + {queue[0]}, queue[1..] + sources)
    ensures queue[0] in done ==> BackwardSearch(ts, done, queue[1..])
  {
    PredecessorsCanEnd(ts, queue[0], sources);
    assert forall n :: n in queue <==> n == queue[0] || n in queue[1..];
  }

  /** The backward worklist: exactly the nodes with a path to an End. */
  method NodesThatCanEnd(ts: map<NodeId, Transition>, terminals: seq<NodeId>) returns (canEnd: set<NodeId>)
    requires forall n :: n in terminals <==> n in ts && ts[n].End?
    ensures forall n :: n in canEnd <==> CanEnd(ts, n)
  {
    var previous := Predecessors(ts);
    canEnd := {};
    var queue := terminals;
    forall n | n in queue ensures CanEnd(ts, n) {
      ReachesSelf(ts, n);
    }
    while queue != []
      invariant BackwardSearch(ts, canEnd, queue)
      decreases |ts.Keys - canEnd|, |queue|
    {
      var node := queue[0];
      var sources := if node in previous then previous[node] else [];
      BackwardSearchStep(ts, canEnd, queue, sources);
      queue := queue[1..];
      if node in canEnd {
        continue;
      }
      LessRemains(ts.Keys, canEnd, node);
      canEnd := canEnd + {node};
      queue := queue + sources;
    }
    BackwardClosedSetIsComplete(ts, canEnd);
  }

  method ValidateTerminalPaths(nodes: map<NodeId, Node>, ts: map<NodeId, Transition>)
    returns (error: Option<CompileError>)
    requires nodes.Keys != {}
    ensures error == None <==> forall n :: n in nodes ==> CanEnd(ts, n)
    ensures error.Some? ==> Stage(error.value) == 6
    ensures forall d: Draft ::
              d.nodes == nodes && d.transitions == ts && error.Some? ==> Faulty(d, error.value)
  {
    var terminals := TerminalNodes(ts);
    if terminals == [] {
      ghost var n :| n in nodes;
      assert !CanEnd(ts, n);
      return Some(NoTerminalPath);
    }
    var canEnd := NodesThatCanEnd(ts, terminals);
    if stuck :| stuck in nodes.Keys - canEnd {
      return Some(NodeCannotReachEnd(stuck));
    }
    assert forall n :: n in nodes ==> n in nodes.Keys - canEnd || n in canEnd;
    return None;
  }

  class GraphDefinition {
    const id: string
    const version: NonZeroU32
    var nodes: map<NodeId, Node>
    var entry: Option<NodeId>
    var transitions: map<NodeId, Transition>
    var namespaces: set<string>
    var unresolved: map<ExitKey, OpenRoute>

    function Value(): Draft
      reads this
    {
      Draft(nodes, entry, transitions, namespaces, unresolved)
    }

    constructor NewVersioned(id: string, version: NonZeroU32)
      ensures this.id == id && this.version == version
      ensures Value() == Draft(map[], None, map[], {}, map[])
    {
      this.id, this.version := id, version;
      nodes, entry, transitions := map[], None, map[];
      namespaces, unresolved := {}, map[];
    }

    method AddNode(node: Node) returns (error: Option<BuildError>)
      modifies this`nodes
      ensures error == if node.id in old(nodes) then Some(DuplicateNode(node.id)) else None
      ensures nodes == if error.Some? then old(nodes) else old(nodes)[node.id := node]
    {
      if node.id in nodes {
        return Some(DuplicateNode(node.id));
      }
      nodes := nodes[node.id := node];
      return None;
    }

    method SetEntry(entry: NodeId)
      modifies this`entry
      ensures this.entry == Some(entry)
    {
      this.entry := Some(entry);
    }

    method SetTransition(source: NodeId, transition: Transition) returns (error: Option<BuildError>)
      modifies this`transitions
      ensures error == if source !in nodes then Some(UnknownTransitionSource(source))
                       else if source in old(transitions) then Some(DuplicateTransition(source))
                       else None
      ensures transitions == if error.Some? then old(transitions) else old(transitions)[source := transition]
    {
      if source !in nodes {
        return Some(UnknownTransitionSource(source));
      }
      if source in transitions {
        return Some(DuplicateTransition(source));
      }
      transitions := transitions[source := transition];
      return None;
    }

    /** Compiles exactly the definitions that satisfy Compilable, and explains every
        refusal with a fault the definition really has. */
    method Compile(maxSteps: NonZeroU32) returns (r: Result<CompiledGraph, CompileError>)
      ensures r.Ok? <==> Compilable(Value())
      ensures r.Ok? ==> r.value == CompiledGraph(id, version, nodes, entry.value, transitions, maxSteps)
      ensures r.Err? ==> Faulty(Value(), r.error) && PassesStagesBelow(Value(), Stage(r.error))
    {
      if exit :| exit in unresolved {
        return Err(UnresolvedFragmentExit(exit));
      }
      if entry.None? {
        return Err(MissingEntry);
      }
      var start := entry.value;
      if start !in nodes {
        return Err(EntryNodeMissing(start));
      }
      if bare :| bare in nodes.Keys - transitions.Keys {
        return Err(MissingTransition(bare));
      }
      assert forall n :: n in nodes ==> n in nodes.Keys - transitions.Keys || n in transitions;
      var bad := ValidateTransitions(nodes, transitions);
      if bad.Some? {
        return Err(bad.value);
      }
      var unreachable := ValidateReachability(start, nodes, transitions);
      if unreachable.Some? {
        return Err(unreachable.value);
      }
      var stuck := ValidateTerminalPaths(nodes, transitions);
      if stuck.Some? {
        return Err(stuck.value);
      }
      return Ok(CompiledGraph(id, version, nodes, start, transitions, maxSteps));
    }
  }
}
