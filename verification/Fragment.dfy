// Reusable fragments and how a parent graph mounts and links them
// (agent-core/src/graph/fragment.rs).
module Fragments {
  import opened Wrappers
  import opened Graphs
  import opened Definitions

  datatype LocalExit = LocalExit(source: NodeId, route: RouteKey)

  /** The value of a fragment. */
  datatype Piece = Piece(
    nodes: map<NodeId, Node>,
    entry: Option<NodeId>,
    transitions: map<NodeId, Transition>,
    exits: map<string, LocalExit>)

  datatype FragmentExit = FragmentExit(key: ExitKey, name: string, source: NodeId, route: RouteKey)

  datatype MountedFragment = MountedFragment(ns: string, entry: NodeId, exits: map<string, FragmentExit>)

  datatype MountError =
    | InvalidNamespace(ns: string)
    | DuplicateNamespace(ns: string)
    | NamespaceCollision(ns: string, node: NodeId)
    | InvalidNamespacedNodeId(ns: string, local: NodeId)
    | FragmentMissingEntry
    | FragmentEntryMissing(node: NodeId)
    | FragmentMissingExit
    | FragmentMissingTransition(node: NodeId)
    | FragmentContainsEnd(node: NodeId)
    | FragmentDanglingTarget(from: NodeId, target: NodeId)
    | FragmentExitSourceMissing(name: string, node: NodeId)
    | InvalidFragmentExitRoute(name: string, node: NodeId, route: RouteKey)
    | UnresolvedFragmentRoute(node: NodeId, route: RouteKey)
    | DuplicateFragmentRoute(node: NodeId, route: RouteKey)
    | UnknownFragmentRouteTarget(node: NodeId, route: RouteKey)
    | UnknownFragmentExit(exit: string)
    | UnknownFragmentExitTarget(node: NodeId)
    | InvalidFragmentExitName(name: string)
    | DuplicateFragmentExit(name: string)
    | Local(error: BuildError)

  // ---- What a fragment must satisfy ----

  function KnownRoutes(router: Router): set<RouteKey> {
    set r | r in router.known
  }

  /** The routes declared as exits of one node. */
  function ExitRoutes(f: Piece, source: NodeId): set<RouteKey> {
    set name | name in f.exits && f.exits[name].source == source :: f.exits[name].route
  }

  /** The declared exits of a branch are exactly its known routes without a target. */
  predicate LocalTransitionOk(f: Piece, source: NodeId, t: Transition) {
    match t
    case Goto(target) => target in f.nodes && ExitRoutes(f, source) == {}
    case Branch(router, targets) =>
      && NoDuplicates(router.known)
      && targets.Keys <= KnownRoutes(router)
      && targets.Values <= f.nodes.Keys
      && ExitRoutes(f, source) == KnownRoutes(router) - targets.Keys
    case End => false
  }

  predicate ExitsDistinct(f: Piece) {
    forall a, b :: a in f.exits && b in f.exits && a != b ==> f.exits[a] != f.exits[b]
  }

  predicate PieceOk(f: Piece) {
    && f.entry.Some? && f.entry.value in f.nodes
    && f.exits.Keys != {}
    && f.nodes.Keys <= f.transitions.Keys
    && (forall name :: name in f.exits ==> f.exits[name].source in f.nodes)
    && ExitsDistinct(f)
    && (forall source :: source in f.transitions ==> LocalTransitionOk(f, source, f.transitions[source]))
  }

  class GraphFragment {
    var nodes: map<NodeId, Node>
    var entry: Option<NodeId>
    var transitions: map<NodeId, Transition>
    var exits: map<string, LocalExit>

    function Value(): Piece
      reads this
    {
      Piece(nodes, entry, transitions, exits)
    }

    predicate Valid()
      reads this
    {
      transitions.Keys <= nodes.Keys
    }

    constructor New()
      ensures Valid() && Value() == Piece(map[], None, map[], map[])
    {
      nodes, entry, transitions, exits := map[], None, map[], map[];
    }

    method AddNode(node: Node) returns (error: Option<BuildError>)
      requires Valid()
      modifies this`nodes
      ensures Valid()
      ensures error == if node.id in old(nodes) then Some(DuplicateNode(node.id)) else None
      ensures nodes == if error.Some? then old(nodes) else old(nodes)[node.id := node]
    {
      if node.id in nodes {
        return Some(DuplicateNode(node.id));
      }
      nodes := nodes[node.id := node];
      return None;
    }

    method SetEntry(entry: NodeId)
      requires Valid()
      modifies this`entry
      ensures Valid() && this.entry == Some(entry)
    {
      this.entry := Some(entry);
    }

    method SetTransition(source: NodeId, transition: Transition) returns (error: Option<BuildError>)
      requires Valid()
      modifies this`transitions
      ensures Valid()
      ensures error == if source !in nodes then Some(UnknownTransitionSource(source))
                       else if source in old(transitions) then Some(DuplicateTransition(source))
                       else None
      ensures transitions == if error.Some? then old(transitions) else old(transitions)[source := transition]
    {
      if source !in nodes {
        return Some(UnknownTransitionSource(source));
      }
      if source in transitions {
        return Some(DuplicateTransition(source));
      }
      transitions := transitions[source := transition];
      return None;
    }

    method DeclareExit(name: string, source: NodeId, route: RouteKey) returns (error: Option<MountError>)
      requires Valid()
      modifies this`exits
      ensures Valid()
      ensures error == if !ValidId(name) then Some(InvalidFragmentExitName(name))
                       else if name in old(exits) then Some(DuplicateFragmentExit(name))
                       else None
      ensures exits == if error.Some? then old(exits) else old(exits)[name := LocalExit(source, route)]
    {
      if !ValidId(name) {
        return Some(InvalidFragmentExitName(name));
      }
      if name in exits {
        return Some(DuplicateFragmentExit(name));
      }
      exits := exits[name := LocalExit(source, route)];
      return None;
    }
  }

  // ---- Validation ----

  /** Groups the declared exits by source, refusing an unknown source or a repeat. */
  method CollectExits(f: Piece) returns (error: Option<MountError>, bySource: map<NodeId, set<RouteKey>>)
    ensures error == None <==>
            (forall name :: name in f.exits ==> f.exits[name].source in f.nodes) && ExitsDistinct(f)
    ensures error == None ==> forall s :: ExitRoutes(f, s) == if s in bySource then bySource[s] else {}
  {
    bySource := map[];
    var rest := f.exits.Keys;
    ghost var seen: set<string> := {};
    while rest != {}
      invariant seen == f.exits.Keys - rest && rest <= f.exits.Keys
      invariant forall name :: name in seen ==> f.exits[name].source in f.nodes
      invariant forall a, b :: a in seen && b in seen && a != b ==> f.exits[a] != f.exits[b]
      invariant forall s, r :: (s in bySource && r in bySource[s]) <==>
                               exists name :: name in seen && f.exits[name] == LocalExit(s, r)
    {
      var name :| name in rest;
      var exit := f.exits[name];
      if exit.source !in f.nodes {
        return Some(FragmentExitSourceMissing(name, exit.source)), map[];
      }
      var routes := if exit.source in bySource then bySource[exit.source] else {};
      if exit.route in routes {
        assert exit.source in bySource && exit.route in bySource[exit.source];
        return Some(InvalidFragmentExitRoute(name, exit.source, exit.route)), map[];
      }
      assert forall b :: b in seen ==> f.exits[b] != LocalExit(exit.source, exit.route);
      bySource := bySource[exit.source := routes + {exit.route}];
      seen, rest := seen + {name}, rest - {name};
    }
    error := None;
    forall s ensures ExitRoutes(f, s) == if s in bySource then bySource[s] else {} {
      var routes := if s in bySource then bySource[s] else {};
      forall r ensures r in ExitRoutes(f, s) <==> r in routes {
        if r in ExitRoutes(f, s) {
          var name :| name in f.exits && f.exits[name].source == s && f.exits[name].route == r;
          assert f.exits[name] == LocalExit(s, r);
        }
      }
    }
  }

  method ValidateLocalBranch(f: Piece, source: NodeId, router: Router, targets: map<RouteKey, NodeId>,
                             exits: set<RouteKey>)
    returns (error: Option<MountError>)
    requires exits == ExitRoutes(f, source)
    ensures error == None <==> LocalTransitionOk(f, source, Branch(router, targets))
  {
    var known: set<RouteKey> := {};
    var i := 0;
    while i < |router.known|
      invariant 0 <= i <= |router.known|
      invariant known == set r | r in router.known[..i]
      invariant NoDuplicates(router.known[..i])
    {
      var route := router.known[i];
      if route in known {
        assert exists j :: 0 <= j < i && router.known[j] == route;
        return Some(DuplicateFragmentRoute(source, route));
      }
      known := known + {route};
      assert router.known[..i + 1] == router.known[..i] + [route];
      i := i + 1;
    }
    assert router.known[..i] == router.known;
    var rest := targets.Keys;
    while rest != {}
      invariant rest <= targets.Keys
      invariant forall r :: r in targets.Keys - rest ==> r in known && targets[r] in f.nodes
    {
      var route :| route in rest;
      if route !in known {
        return Some(UnknownFragmentRouteTarget(source, route));
      }
      if targets[route] !in f.nodes {
        return Some(FragmentDanglingTarget(source, targets[route]));
      }
      rest := rest - {route};
    }
    var open := known;
    while open != {}
      invariant open <= known
      invariant forall r :: r in known - open ==> r in targets || r in exits
    {
      var route :| route in open;
      if route !in targets && route !in exits {
        return Some(UnresolvedFragmentRoute(source, route));
      }
      open := open - {route};
    }
    var declared := exits;
    while declared != {}
      invariant declared <= exits
      invariant forall r :: r in exits - declared ==> r in known && r !in targets
    {
      var route :| route in declared;
      if route !in known || route in targets {
        var name :| name in f.exits && f.exits[name].source == source && f.exits[name].route == route;
        return Some(InvalidFragmentExitRoute(name, source, route));
      }
      declared := declared - {route};
    }
    assert exits == known - targets.Keys;
    return None;
  }

  /** Accepts exactly the fragments that satisfy PieceOk. */
  method ValidateFragment(f: Piece) returns (error: Option<MountError>)
    ensures error == None <==> PieceOk(f)
  {
    if f.entry.None? {
      return Some(FragmentMissingEntry);
    }
    if f.entry.value !in f.nodes {
      return Some(FragmentEntryMissing(f.entry.value));
    }
    if f.exits.Keys == {} {
      return Some(FragmentMissingExit);
    }
    if bare :| bare in f.nodes.Keys - f.transitions.Keys {
      return Some(FragmentMissingTransition(bare));
    }
    assert forall n :: n in f.nodes ==> n in f.nodes.Keys - f.transitions.Keys || n in f.transitions;
    var bad, bySource := CollectExits(f);
    if bad.Some? {
      return bad;
    }
    var rest := f.transitions.Keys;
    while rest != {}
      invariant rest <= f.transitions.Keys
      invariant forall s :: s in f.transitions.Keys - rest ==> LocalTransitionOk(f, s, f.transitions[s])
    {
      var source :| source in rest;
      var exits := if source in bySource then bySource[source] else {};
      assert exits == ExitRoutes(f, source);
      match f.transitions[source] {
        case Goto(target) =>
          if target !in f.nodes {
            return Some(FragmentDanglingTarget(source, target));
          }
          if route :| route in exits {
            var name :| name in f.exits && f.exits[name].source == source && f.exits[name].route == route;
            return Some(InvalidFragmentExitRoute(name, source, route));
          }
        case Branch(router, targets) =>
          var wrong := ValidateLocalBranch(f, source, router, targets, exits);
          if wrong.Some? {
            return wrong;
          }
        case End =>
          return Some(FragmentContainsEnd(source));
      }
      rest := rest - {source};
    }
    return None;
  }

  // ---- Mounting, as a function of the parent and the fragment ----

  function Qualify(ns: string, local: NodeId): NodeId {
    ns + "." + local
  }

  function Unqualify(ns: string, global: NodeId): NodeId {
    if |global| > |ns| then global[|ns| + 1..] else global
  }

  /** Namespacing loses nothing, so distinct local nodes stay distinct. */
  lemma UnqualifyInverts(ns: string, local: NodeId)
    ensures Unqualify(ns, Qualify(ns, local)) == local
  {
    assert Qualify(ns, local)[|ns| + 1..] == local;
  }

  lemma QualifyInjective(ns: string, a: NodeId, b: NodeId)
    ensures Qualify(ns, a) == Qualify(ns, b) <==> a == b
  {
    UnqualifyInverts(ns, a);
    UnqualifyInverts(ns, b);
  }

  function QualifyAll(ns: string, locals: set<NodeId>): set<NodeId> {
    set l | l in locals :: Qualify(ns, l)
  }

  lemma QualifiedMembers(ns: string, locals: set<NodeId>)
    ensures forall l :: l in locals <==> Qualify(ns, l) in QualifyAll(ns, locals)
    ensures forall g :: g in QualifyAll(ns, locals) ==> Unqualify(ns, g) in locals && Qualify(ns, Unqualify(ns, g)) == g
  {
    forall l ensures l in locals <==> Qualify(ns, l) in QualifyAll(ns, locals) {
      if Qualify(ns, l) in QualifyAll(ns, locals) {
        var m :| m in locals && Qualify(ns, m) == Qualify(ns, l);
        QualifyInjective(ns, l, m);
      }
    }
    forall g | g in QualifyAll(ns, locals)
      ensures Unqualify(ns, g) in locals && Qualify(ns, Unqualify(ns, g)) == g
    {
      var m :| m in locals && Qualify(ns, m) == g;
      UnqualifyInverts(ns, m);
    }
  }

  function RewriteTransition(ns: string, t: Transition): Transition {
    match t
    case Goto(target) => Goto(Qualify(ns, target))
    case Branch(router, targets) => Branch(router, map r | r in targets :: Qualify(ns, targets[r]))
    case End => End
  }

  /** A table of local nodes, keyed by namespaced id instead. */
  ghost function Rename<T>(ns: string, locals: map<NodeId, T>): map<NodeId, T> {
    map g | g in QualifyAll(ns, locals.Keys) && Unqualify(ns, g) in locals :: locals[Unqualify(ns, g)]
  }

  lemma RenameContents<T>(ns: string, locals: map<NodeId, T>)
    ensures Rename(ns, locals).Keys == QualifyAll(ns, locals.Keys)
    ensures forall l :: l in locals ==> Qualify(ns, l) in Rename(ns, locals)
    ensures forall l :: l in locals ==> Rename(ns, locals)[Qualify(ns, l)] == locals[l]
  {
    QualifiedMembers(ns, locals.Keys);
    forall l | l in locals
      ensures Qualify(ns, l) in Rename(ns, locals) && Rename(ns, locals)[Qualify(ns, l)] == locals[l]
    {
      UnqualifyInverts(ns, l);
    }
  }

  lemma RenameAdds<T>(ns: string, locals: map<NodeId, T>, l: NodeId, v: T)
    ensures Rename(ns, locals[l := v]) == Rename(ns, locals)[Qualify(ns, l) := v]
  {
    var more := locals[l := v];
    RenameContents(ns, locals);
    RenameContents(ns, more);
    QualifiedMembers(ns, locals.Keys);
    QualifiedMembers(ns, more.Keys);
    UnqualifyInverts(ns, l);
  }

  function WrappedNodes(ns: string, nodes: map<NodeId, Node>): map<NodeId, Node> {
    map l | l in nodes :: Namespaced(Qualify(ns, l), nodes[l])
  }

  function RewrittenTransitions(ns: string, ts: map<NodeId, Transition>): map<NodeId, Transition> {
    map l | l in ts :: RewriteTransition(ns, ts[l])
  }

  ghost function MountedNodes(ns: string, f: Piece): map<NodeId, Node> {
    Rename(ns, WrappedNodes(ns, f.nodes))
  }

  ghost function MountedTransitions(ns: string, f: Piece): map<NodeId, Transition> {
    Rename(ns, RewrittenTransitions(ns, f.transitions))
  }

  function MountedExits(ns: string, f: Piece): map<string, FragmentExit> {
    map name | name in f.exits
      :: FragmentExit(ExitKey(ns, name), name, Qualify(ns, f.exits[name].source), f.exits[name].route)
  }

  ghost function MountedOpenRoutes(ns: string, f: Piece): map<ExitKey, OpenRoute> {
    map key | key in (set name | name in f.exits :: ExitKey(ns, name)) && key.name in f.exits
      :: OpenRoute(Qualify(ns, f.exits[key.name].source), f.exits[key.name].route)
  }

  predicate Mountable(d: Draft, ns: string, f: Piece) {
    && ValidId(ns) && ns !in d.namespaces && PieceOk(f)
    && forall l :: l in f.nodes ==> ValidId(Qualify(ns, l)) && Qualify(ns, l) !in d.nodes
  }

  ghost function MountPiece(d: Draft, ns: string, f: Piece): Draft {
    Draft(d.nodes + MountedNodes(ns, f), d.entry, d.transitions + MountedTransitions(ns, f),
          d.namespaces + {ns}, d.unresolved + MountedOpenRoutes(ns, f))
  }

  // ---- Mounting, step by step ----

  /** The id map sends every local id to its namespaced id. */
  predicate Renames(ns: string, locals: set<NodeId>, ids: map<NodeId, NodeId>) {
    forall l :: l in locals ==> l in ids && ids[l] == Qualify(ns, l)
  }

  method GlobalIds(d: GraphDefinition, ns: string, f: Piece)
    returns (r: Result<map<NodeId, NodeId>, MountError>)
    ensures r.Ok? <==> forall l :: l in f.nodes ==> ValidId(Qualify(ns, l)) && Qualify(ns, l) !in d.nodes
    ensures r.Ok? ==> Renames(ns, f.nodes.Keys, r.value)
  {
    var ids: map<NodeId, NodeId> := map[];
    var rest := f.nodes.Keys;
    while rest != {}
      invariant rest <= f.nodes.Keys
      invariant Renames(ns, f.nodes.Keys - rest, ids)
      invariant forall l :: l in f.nodes.Keys - rest ==> ValidId(Qualify(ns, l)) && Qualify(ns, l) !in d.nodes
    {
      var local :| local in rest;
      var global := Qualify(ns, local);
      if !ValidId(global) {
        return Err(InvalidNamespacedNodeId(ns, local));
      }
      if global in d.nodes {
        return Err(NamespaceCollision(ns, global));
      }
      ids := ids[local := global];
      rest := rest - {local};
    }
    return Ok(ids);
  }

  /** rewrite_transition, which reads every target from the id map. */
  function RewriteWith(ids: map<NodeId, NodeId>, t: Transition): Transition
    requires Targets(t) <= ids.Keys
  {
    match t
    case Goto(target) => Goto(ids[target])
    case Branch(router, targets) =>
      Branch(router, map r | r in targets :: assert targets[r] in targets.Values; ids[targets[r]])
    case End => End
  }

  /** Inserts every row of a local table under its namespaced id. */
  method Relabel<T>(ns: string, ids: map<NodeId, NodeId>, locals: map<NodeId, T>)
    returns (mounted: map<NodeId, T>)
    requires Renames(ns, locals.Keys, ids)
    ensures mounted == Rename(ns, locals)
  {
    mounted := map[];
    var rest := locals.Keys;
    ghost var done: map<NodeId, T> := map[];
    while rest != {}
      invariant rest <= locals.Keys && done.Keys == locals.Keys - rest
      invariant forall l :: l in done ==> done[l] == locals[l]
      invariant mounted == Rename(ns, done)
    {
      var local :| local in rest;
      RenameAdds(ns, done, local, locals[local]);
      mounted := mounted[ids[local] := locals[local]];
      done := done[local := locals[local]];
      rest := rest - {local};
    }
    assert done == locals;
  }

  method WrapNodes(ns: string, f: Piece, ids: map<NodeId, NodeId>) returns (mounted: map<NodeId, Node>)
    requires Renames(ns, f.nodes.Keys, ids)
    ensures mounted == MountedNodes(ns, f)
  {
    var wrapped := map l | l in f.nodes :: Namespaced(ids[l], f.nodes[l]);
    assert wrapped == WrappedNodes(ns, f.nodes);
    mounted := Relabel(ns, ids, wrapped);
  }

  lemma RewriteAgrees(ns: string, locals: set<NodeId>, ids: map<NodeId, NodeId>, t: Transition)
    requires Renames(ns, locals, ids) && Targets(t) <= locals
    ensures Targets(t) <= ids.Keys && RewriteWith(ids, t) == RewriteTransition(ns, t)
  {
    if t.Branch? {
      forall r | r in t.targets ensures t.targets[r] in locals {
        assert t.targets[r] in t.targets.Values;
      }
    }
  }

  method RewriteTransitions(ns: string, f: Piece, ids: map<NodeId, NodeId>)
    returns (mounted: map<NodeId, Transition>)
    requires Renames(ns, f.nodes.Keys, ids)
    requires f.transitions.Keys <= f.nodes.Keys
    requires forall s :: s in f.transitions ==> Targets(f.transitions[s]) <= f.nodes.Keys
    ensures mounted == MountedTransitions(ns, f)
  {
    forall s | s in f.transitions
      ensures Targets(f.transitions[s]) <= ids.Keys
              && RewriteWith(ids, f.transitions[s]) == RewriteTransition(ns, f.transitions[s])
    {
      RewriteAgrees(ns, f.nodes.Keys, ids, f.transitions[s]);
    }
    var rewritten := map s | s in f.transitions :: RewriteWith(ids, f.transitions[s]);
    assert rewritten == RewrittenTransitions(ns, f.transitions);
    mounted := Relabel(ns, ids, rewritten);
  }

  method MountExits(ns: string, f: Piece, ids: map<NodeId, NodeId>) returns (exits: map<string, FragmentExit>)
    requires Renames(ns, f.nodes.Keys, ids)
    requires forall name :: name in f.exits ==> f.exits[name].source in f.nodes
    ensures exits == MountedExits(ns, f)
  {
    exits := map[];
    var rest := f.exits.Keys;
    while rest != {}
      invariant rest <= f.exits.Keys
      invariant exits.Keys == f.exits.Keys - rest
      invariant forall name :: name in exits ==> exits[name] == MountedExits(ns, f)[name]
    {
      var name :| name in rest;
      var exit := f.exits[name];
      exits := exits[name := FragmentExit(ExitKey(ns, name), name, ids[exit.source], exit.route)];
      rest := rest - {name};
    }
  }

  method RegisterExits(open: map<ExitKey, OpenRoute>, ns: string, f: Piece, exits: map<string, FragmentExit>)
    returns (all: map<ExitKey, OpenRoute>)
    requires exits == MountedExits(ns, f)
    ensures all == open + MountedOpenRoutes(ns, f)
  {
    all := open;
    var rest := exits.Keys;
    ghost var added := map[];
    while rest != {}
      invariant rest <= exits.Keys
      invariant all == open + added
      invariant forall key :: key in added ==>
                  key in MountedOpenRoutes(ns, f) && added[key] == MountedOpenRoutes(ns, f)[key]
      invariant forall name :: name in exits.Keys - rest ==> ExitKey(ns, name) in added
    {
      var name :| name in rest;
      var exit := exits[name];
      all := all[exit.key := OpenRoute(exit.source, exit.route)];
      added := added[exit.key := OpenRoute(exit.source, exit.route)];
      rest := rest - {name};
    }
    assert added == MountedOpenRoutes(ns, f);
  }

  lemma PieceTargetsInside(f: Piece)
    requires PieceOk(f)
    ensures forall s :: s in f.transitions ==> Targets(f.transitions[s]) <= f.nodes.Keys
  {
    forall s | s in f.transitions ensures Targets(f.transitions[s]) <= f.nodes.Keys {
      assert LocalTransitionOk(f, s, f.transitions[s]);
    }
  }

  /** Mounts a fragment, or changes nothing at all. */
  method Mount(d: GraphDefinition, ns: string, fragment: GraphFragment)
    returns (r: Result<MountedFragment, MountError>)
    requires fragment.Valid()
    modifies d
    ensures r.Ok? <==> Mountable(old(d.Value()), ns, fragment.Value())
    ensures d.Value() == if r.Ok? then MountPiece(old(d.Value()), ns, fragment.Value()) else old(d.Value())
    ensures r.Ok? ==> r.value == MountedFragment(ns, Qualify(ns, fragment.entry.value),
                                                 MountedExits(ns, fragment.Value()))
  {
    if !ValidId(ns) {
      return Err(InvalidNamespace(ns));
    }
    if ns in d.namespaces {
      return Err(DuplicateNamespace(ns));
    }
    var f := fragment.Value();
    var bad := ValidateFragment(f);
    if bad.Some? {
      return Err(bad.value);
    }
    var renaming := GlobalIds(d, ns, f);
    if renaming.Err? {
      return Err(renaming.error);
    }
    r := Install(d, ns, f, renaming.value);
  }

  /** The part of a mount that can no longer fail. */
  method Install(d: GraphDefinition, ns: string, f: Piece, ids: map<NodeId, NodeId>)
    returns (r: Result<MountedFragment, MountError>)
    requires PieceOk(f) && f.transitions.Keys <= f.nodes.Keys
    requires Renames(ns, f.nodes.Keys, ids)
    modifies d
    ensures d.Value() == MountPiece(old(d.Value()), ns, f)
    ensures r == Ok(MountedFragment(ns, Qualify(ns, f.entry.value), MountedExits(ns, f)))
  {
    PieceTargetsInside(f);
    var nodes := WrapNodes(ns, f, ids);
    var transitions := RewriteTransitions(ns, f, ids);
    var exits := MountExits(ns, f, ids);
    var unresolved := RegisterExits(d.unresolved, ns, f, exits);
    d.nodes := d.nodes + nodes;
    d.transitions := d.transitions + transitions;
    d.namespaces := d.namespaces + {ns};
    d.unresolved := unresolved;
    r := Ok(MountedFragment(ns, ids[f.entry.value], exits));
  }
}
