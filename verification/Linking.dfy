// Linking mounted fragments: open exits, their connection, and what a mount
// preserves (agent-core/src/graph/fragment.rs).
module Linking {
  import opened Wrappers
  import opened Graphs
  import opened Definitions
  import opened Fragments

  // ---- The invariant of every definition ----

  /** Only a mount wraps nodes, so the wrapper tells mounted nodes apart. */
  predicate IsMounted(d: Draft, n: NodeId) {
    n in d.nodes && d.nodes[n].Namespaced?
  }

  predicate MountedTransitionShape(d: Draft, t: Transition) {
    match t
    case Goto(target) => target in d.nodes
    case Branch(router, targets) =>
      NoDuplicates(router.known) && targets.Keys <= KnownRoutes(router) && targets.Values <= d.nodes.Keys
    case End => false
  }

  /** A known route of a mounted branch that has no target yet. */
  predicate MissingRoute(d: Draft, source: NodeId, route: RouteKey) {
    && IsMounted(d, source) && source in d.transitions && d.transitions[source].Branch?
    && route in d.transitions[source].router.known && route !in d.transitions[source].targets
  }

  /** The unresolved exits are exactly the missing routes, each named once. */
  ghost predicate Linked(d: Draft) {
    && d.transitions.Keys <= d.nodes.Keys
    && (forall n :: n in d.nodes ==> d.nodes[n].id == n)
    && (forall n :: IsMounted(d, n) ==> n in d.transitions && MountedTransitionShape(d, d.transitions[n]))
    && (forall k :: k in d.unresolved ==>
          k.ns in d.namespaces && MissingRoute(d, d.unresolved[k].source, d.unresolved[k].route))
    && (forall s, r :: MissingRoute(d, s, r) ==> OpenRoute(s, r) in d.unresolved.Values)
    && (forall j, k :: j in d.unresolved && k in d.unresolved && j != k ==> d.unresolved[j] != d.unresolved[k])
  }

  // ---- Connecting an exit ----

  predicate Connectable(d: Draft, exit: FragmentExit, target: NodeId) {
    && exit.key in d.unresolved && d.unresolved[exit.key] == OpenRoute(exit.source, exit.route)
    && target in d.nodes
  }

  function AddRoute(t: Transition, route: RouteKey, target: NodeId): Transition
    requires t.Branch?
  {
    t.(targets := t.targets[route := target])
  }

  ghost function Connect(d: Draft, exit: FragmentExit, target: NodeId): Draft
    requires Linked(d) && Connectable(d, exit, target)
  {
    assert MissingRoute(d, exit.source, exit.route);
    d.(transitions := d.transitions[exit.source := AddRoute(d.transitions[exit.source], exit.route, target)],
       unresolved := d.unresolved - {exit.key})
  }

  /** Fails only for an exit that is not open under this source and route, or for
      an unknown target; the other refusals in the Rust code cannot happen. */
  method ConnectExit(d: GraphDefinition, exit: FragmentExit, target: NodeId) returns (error: Option<MountError>)
    requires Linked(d.Value())
    modifies d`transitions, d`unresolved
    ensures error == None <==> Connectable(old(d.Value()), exit, target)
    ensures d.Value() == if error == None then Connect(old(d.Value()), exit, target) else old(d.Value())
    ensures error.Some? ==> error.value == if target !in d.nodes && d.unresolved.Keys >= {exit.key}
                                              && d.unresolved[exit.key] == OpenRoute(exit.source, exit.route)
                                           then UnknownFragmentExitTarget(target) else UnknownFragmentExit(exit.name)
  {
    if exit.key !in d.unresolved {
      return Some(UnknownFragmentExit(exit.name));
    }
    var open := d.unresolved[exit.key];
    if open.source != exit.source || open.route != exit.route {
      return Some(UnknownFragmentExit(exit.name));
    }
    if target !in d.nodes {
      return Some(UnknownFragmentExitTarget(target));
    }
    assert MissingRoute(d.Value(), exit.source, exit.route);
    var transition := d.transitions[exit.source];
    if !transition.Branch? {
      assert false;
    } else if exit.route in transition.targets {
      assert false;
    }
    d.transitions := d.transitions[exit.source := Branch(transition.router, transition.targets[exit.route := target])];
    d.unresolved := d.unresolved - {exit.key};
    return None;
  }

  /** Connecting an exit closes that missing route and no other. */
  lemma ConnectKeepsLinked(d: Draft, exit: FragmentExit, target: NodeId)
    requires Linked(d) && Connectable(d, exit, target)
    ensures Linked(Connect(d, exit, target))
    ensures forall s, r :: MissingRoute(Connect(d, exit, target), s, r) <==>
                           MissingRoute(d, s, r) && (s, r) != (exit.source, exit.route)
  {
    var e := Connect(d, exit, target);
    assert MissingRoute(d, exit.source, exit.route);
    assert MountedTransitionShape(d, d.transitions[exit.source]);
    forall n | IsMounted(e, n) ensures n in e.transitions && MountedTransitionShape(e, e.transitions[n]) {
      assert IsMounted(d, n);
    }
    forall s, r ensures MissingRoute(e, s, r) <==> MissingRoute(d, s, r) && (s, r) != (exit.source, exit.route) {
    }
    forall s, r | MissingRoute(e, s, r) ensures OpenRoute(s, r) in e.unresolved.Values {
      assert OpenRoute(s, r) in d.unresolved.Values;
      var k :| k in d.unresolved && d.unresolved[k] == OpenRoute(s, r);
      assert k in e.unresolved;
    }
  }

  // ---- Mounting keeps the invariant ----

  /** A fragment that AddNode, SetTransition and DeclareExit can build. */
  predicate WellBuilt(f: Piece) {
    f.transitions.Keys <= f.nodes.Keys
  }

  /** The rows a mount adds: each local node and its transition, namespaced. */
  lemma MountedRow(d: Draft, ns: string, f: Piece, l: NodeId)
    requires Mountable(d, ns, f) && WellBuilt(f) && l in f.nodes
    ensures l in f.transitions && LocalTransitionOk(f, l, f.transitions[l])
    ensures var e, g := MountPiece(d, ns, f), Qualify(ns, l);
            && g !in d.nodes
            && g in e.nodes && e.nodes[g] == Namespaced(g, f.nodes[l])
            && g in e.transitions && e.transitions[g] == RewriteTransition(ns, f.transitions[l])
  {
    var g := Qualify(ns, l);
    assert l in f.transitions.Keys;
    RenameContents(ns, WrappedNodes(ns, f.nodes));
    RenameContents(ns, RewrittenTransitions(ns, f.transitions));
    assert l in WrappedNodes(ns, f.nodes) && l in RewrittenTransitions(ns, f.transitions);
    assert g in MountedNodes(ns, f) && MountedNodes(ns, f)[g] == Namespaced(g, f.nodes[l]);
    assert g in MountedTransitions(ns, f) && MountedTransitions(ns, f)[g] == RewriteTransition(ns, f.transitions[l]);
  }

  /** Every other row is an old one, unchanged. */
  lemma UnmountedRow(d: Draft, ns: string, f: Piece, n: NodeId)
    requires Mountable(d, ns, f) && WellBuilt(f) && n !in QualifyAll(ns, f.nodes.Keys)
    ensures var e := MountPiece(d, ns, f);
            && (n in e.nodes <==> n in d.nodes) && (n in d.nodes ==> e.nodes[n] == d.nodes[n])
            && (n in e.transitions <==> n in d.transitions)
            && (n in d.transitions ==> e.transitions[n] == d.transitions[n])
  {
    RenameContents(ns, WrappedNodes(ns, f.nodes));
    RenameContents(ns, RewrittenTransitions(ns, f.transitions));
    assert WrappedNodes(ns, f.nodes).Keys == f.nodes.Keys;
    assert RewrittenTransitions(ns, f.transitions).Keys <= f.nodes.Keys;
    assert n !in MountedNodes(ns, f) && n !in MountedTransitions(ns, f);
  }

  /** Whether an id is one the mount adds. */
  lemma RowOrigin(d: Draft, ns: string, f: Piece, n: NodeId)
    requires Mountable(d, ns, f)
    ensures n in QualifyAll(ns, f.nodes.Keys) <==>
            Unqualify(ns, n) in f.nodes && Qualify(ns, Unqualify(ns, n)) == n
    ensures n in QualifyAll(ns, f.nodes.Keys) ==> n !in d.nodes
  {
    QualifiedMembers(ns, f.nodes.Keys);
  }

  /** Where the missing routes of the definition after a mount come from. */
  lemma MissingAfterMount(d: Draft, ns: string, f: Piece, s: NodeId, r: RouteKey)
    requires Linked(d) && Mountable(d, ns, f) && WellBuilt(f)
    ensures s in QualifyAll(ns, f.nodes.Keys) ==>
              !MissingRoute(d, s, r)
              && (MissingRoute(MountPiece(d, ns, f), s, r) <==> r in ExitRoutes(f, Unqualify(ns, s)))
    ensures s !in QualifyAll(ns, f.nodes.Keys) ==>
              (MissingRoute(MountPiece(d, ns, f), s, r) <==> MissingRoute(d, s, r))
  {
    RowOrigin(d, ns, f, s);
    if s in QualifyAll(ns, f.nodes.Keys) {
      MountedRow(d, ns, f, Unqualify(ns, s));
    } else {
      UnmountedRow(d, ns, f, s);
    }
  }

  lemma RewrittenTargets(ns: string, t: Transition)
    ensures Targets(RewriteTransition(ns, t)) == QualifyAll(ns, Targets(t))
  {
    var t' := RewriteTransition(ns, t);
    match t
    case Goto(target) =>
    case End =>
    case Branch(router, targets) =>
      forall g ensures g in Targets(t') <==> g in QualifyAll(ns, Targets(t)) {
        if g in Targets(t') {
          var r :| r in t'.targets && t'.targets[r] == g;
          assert targets[r] in targets.Values;
        }
        if g in QualifyAll(ns, Targets(t)) {
          var l :| l in Targets(t) && Qualify(ns, l) == g;
          var r :| r in targets && targets[r] == l;
          assert t'.targets[r] == g;
        }
      }
  }

  lemma MountedShapeHolds(d: Draft, ns: string, f: Piece, n: NodeId)
    requires Linked(d) && Mountable(d, ns, f) && WellBuilt(f)
    requires IsMounted(MountPiece(d, ns, f), n)
    ensures var e := MountPiece(d, ns, f);
            n in e.transitions && MountedTransitionShape(e, e.transitions[n])
  {
    RowOrigin(d, ns, f, n);
    if n in QualifyAll(ns, f.nodes.Keys) {
      var l := Unqualify(ns, n);
      MountedRow(d, ns, f, l);
      RewrittenTargets(ns, f.transitions[l]);
      MountedTargetsExist(d, ns, f, l);
    } else {
      UnmountedRow(d, ns, f, n);
      assert IsMounted(d, n) && MountedTransitionShape(d, d.transitions[n]);
      assert d.nodes.Keys <= MountPiece(d, ns, f).nodes.Keys;
    }
  }

  lemma MountedNodeExists(d: Draft, ns: string, f: Piece, l: NodeId)
    requires l in f.nodes
    ensures Qualify(ns, l) in MountPiece(d, ns, f).nodes
  {
    RenameContents(ns, WrappedNodes(ns, f.nodes));
    assert l in WrappedNodes(ns, f.nodes);
    assert Qualify(ns, l) in MountedNodes(ns, f);
  }

  lemma MountedTargetsExist(d: Draft, ns: string, f: Piece, l: NodeId)
    requires PieceOk(f) && WellBuilt(f) && l in f.nodes
    ensures l in f.transitions && Targets(f.transitions[l]) <= f.nodes.Keys
    ensures Targets(RewriteTransition(ns, f.transitions[l])) <= MountPiece(d, ns, f).nodes.Keys
  {
    PieceTargetsInside(f);
    assert l in f.transitions.Keys;
    RewrittenTargets(ns, f.transitions[l]);
    forall g | g in Targets(RewriteTransition(ns, f.transitions[l])) ensures g in MountPiece(d, ns, f).nodes {
      var target :| target in Targets(f.transitions[l]) && Qualify(ns, target) == g;
      MountedNodeExists(d, ns, f, target);
    }
  }

  /** The open routes a mount adds, one per declared exit. */
  lemma MountedOpenRoute(d: Draft, ns: string, f: Piece, k: ExitKey)
    requires Mountable(d, ns, f) && k in MountedOpenRoutes(ns, f)
    ensures k.ns == ns && k.name in f.exits && f.exits[k.name].source in f.nodes
    ensures MountedOpenRoutes(ns, f)[k] == OpenRoute(Qualify(ns, f.exits[k.name].source), f.exits[k.name].route)
    ensures MountedOpenRoutes(ns, f)[k].source in QualifyAll(ns, f.nodes.Keys)
    ensures Unqualify(ns, MountedOpenRoutes(ns, f)[k].source) == f.exits[k.name].source
  {
    UnqualifyInverts(ns, f.exits[k.name].source);
  }

  lemma OpenAfterMount(d: Draft, ns: string, f: Piece, k: ExitKey)
    requires Linked(d) && Mountable(d, ns, f) && WellBuilt(f)
    requires k in MountPiece(d, ns, f).unresolved
    ensures var e := MountPiece(d, ns, f);
            k.ns in e.namespaces && MissingRoute(e, e.unresolved[k].source, e.unresolved[k].route)
  {
    var e := MountPiece(d, ns, f);
    var open := e.unresolved[k];
    MissingAfterMount(d, ns, f, open.source, open.route);
    if k in MountedOpenRoutes(ns, f) {
      MountedOpenRoute(d, ns, f, k);
      assert f.exits[k.name].route in ExitRoutes(f, f.exits[k.name].source);
    } else {
      assert k in d.unresolved && open == d.unresolved[k];
      assert MissingRoute(d, open.source, open.route);
    }
  }

  lemma MissingIsOpenAfterMount(d: Draft, ns: string, f: Piece, s: NodeId, r: RouteKey)
    requires Linked(d) && Mountable(d, ns, f) && WellBuilt(f)
    requires MissingRoute(MountPiece(d, ns, f), s, r)
    ensures OpenRoute(s, r) in MountPiece(d, ns, f).unresolved.Values
  {
    var e := MountPiece(d, ns, f);
    MissingAfterMount(d, ns, f, s, r);
    RowOrigin(d, ns, f, s);
    if s in QualifyAll(ns, f.nodes.Keys) {
      var name :| name in f.exits && f.exits[name].source == Unqualify(ns, s) && f.exits[name].route == r;
      var k := ExitKey(ns, name);
      assert k in MountedOpenRoutes(ns, f) && MountedOpenRoutes(ns, f)[k] == OpenRoute(s, r);
      assert k in e.unresolved && e.unresolved[k] == OpenRoute(s, r);
    } else {
      assert OpenRoute(s, r) in d.unresolved.Values;
      var k :| k in d.unresolved && d.unresolved[k] == OpenRoute(s, r);
      assert k.ns in d.namespaces;
      assert k !in MountedOpenRoutes(ns, f);
      assert k in e.unresolved && e.unresolved[k] == OpenRoute(s, r);
    }
  }

  lemma MountedExitsStayDistinct(d: Draft, ns: string, f: Piece, j: ExitKey, k: ExitKey)
    requires Linked(d) && Mountable(d, ns, f) && WellBuilt(f)
    requires j in MountPiece(d, ns, f).unresolved && k in MountPiece(d, ns, f).unresolved && j != k
    ensures MountPiece(d, ns, f).unresolved[j] != MountPiece(d, ns, f).unresolved[k]
  {
    var e := MountPiece(d, ns, f);
    var added := MountedOpenRoutes(ns, f);
    if j in added {
      MountedOpenRoute(d, ns, f, j);
      RowOrigin(d, ns, f, added[j].source);
    }
    if k in added {
      MountedOpenRoute(d, ns, f, k);
      RowOrigin(d, ns, f, added[k].source);
    }
    if j in added && k in added {
      QualifyInjective(ns, f.exits[j.name].source, f.exits[k.name].source);
      assert f.exits[j.name] != f.exits[k.name];
    } else if j in added {
      assert MissingRoute(d, d.unresolved[k].source, d.unresolved[k].route);
    } else if k in added {
      assert MissingRoute(d, d.unresolved[j].source, d.unresolved[j].route);
    } else {
      assert j in d.unresolved && k in d.unresolved;
    }
  }

  lemma MountKeepsKeys(d: Draft, ns: string, f: Piece, n: NodeId)
    requires Linked(d) && Mountable(d, ns, f) && WellBuilt(f)
    ensures var e := MountPiece(d, ns, f);
            (n in e.transitions ==> n in e.nodes) && (n in e.nodes ==> e.nodes[n].id == n)
  {
    RowOrigin(d, ns, f, n);
    if n in QualifyAll(ns, f.nodes.Keys) {
      MountedRow(d, ns, f, Unqualify(ns, n));
    } else {
      UnmountedRow(d, ns, f, n);
    }
  }

  lemma MountKeepsLinked(d: Draft, ns: string, f: Piece)
    requires Linked(d) && Mountable(d, ns, f) && WellBuilt(f)
    ensures Linked(MountPiece(d, ns, f))
  {
    var e := MountPiece(d, ns, f);
    forall n ensures (n in e.transitions ==> n in e.nodes) && (n in e.nodes ==> e.nodes[n].id == n) {
      MountKeepsKeys(d, ns, f, n);
    }
    forall n | IsMounted(e, n) ensures n in e.transitions && MountedTransitionShape(e, e.transitions[n]) {
      MountedShapeHolds(d, ns, f, n);
    }
    forall k | k in e.unresolved
      ensures k.ns in e.namespaces && MissingRoute(e, e.unresolved[k].source, e.unresolved[k].route)
    {
      OpenAfterMount(d, ns, f, k);
    }
    forall s, r | MissingRoute(e, s, r) ensures OpenRoute(s, r) in e.unresolved.Values {
      MissingIsOpenAfterMount(d, ns, f, s, r);
    }
    forall j, k | j in e.unresolved && k in e.unresolved && j != k ensures e.unresolved[j] != e.unresolved[k] {
      MountedExitsStayDistinct(d, ns, f, j, k);
    }
  }

  lemma MountedExitIsOpen(ns: string, f: Piece, name: string)
    requires name in f.exits
    ensures var exit := MountedExits(ns, f)[name];
            && exit.name == name && exit.route == f.exits[name].route
            && exit.source == Qualify(ns, f.exits[name].source)
            && exit.key in MountedOpenRoutes(ns, f)
            && MountedOpenRoutes(ns, f)[exit.key] == OpenRoute(exit.source, exit.route)
  {
    assert ExitKey(ns, name) in MountedOpenRoutes(ns, f);
  }

  /** A mount leaves the entry and the other namespaces alone, and every exit it hands out can
      be connected to any node there is. */
  lemma MountedExitsConnect(d: Draft, ns: string, f: Piece, name: string, target: NodeId)
    requires name in f.exits && target in MountPiece(d, ns, f).nodes
    ensures var e := MountPiece(d, ns, f);
            && e.entry == d.entry && e.namespaces == d.namespaces + {ns}
            && Connectable(e, MountedExits(ns, f)[name], target)
  {
    MountedExitIsOpen(ns, f, name);
  }

  // ---- Every definition a caller can build ----

  /** A builder call; callers hand in plain nodes, since the wrapper is private. */
  datatype BuildStep =
    | AddNode(id: NodeId, tag: int)
    | SetEntry(entry: NodeId)
    | SetTransition(source: NodeId, transition: Transition)
    | MountFragment(ns: string, piece: Piece)
    | ConnectTo(exit: FragmentExit, target: NodeId)

  const EMPTY_DRAFT := Draft(map[], None, map[], {}, map[])

  /** A call's effect; a refused call changes nothing. */
  ghost function Build(d: Draft, step: BuildStep): Draft
    requires Linked(d)
  {
    match step
    case AddNode(id, tag) => if id in d.nodes then d else d.(nodes := d.nodes[id := Task(id, tag)])
    case SetEntry(entry) => d.(entry := Some(entry))
    case SetTransition(source, t) =>
      if source !in d.nodes || source in d.transitions then d else d.(transitions := d.transitions[source := t])
    case MountFragment(ns, f) =>
      if WellBuilt(f) && Mountable(d, ns, f) then MountPiece(d, ns, f) else d
    case ConnectTo(exit, target) => if Connectable(d, exit, target) then Connect(d, exit, target) else d
  }

  lemma BuildKeepsLinked(d: Draft, step: BuildStep)
    requires Linked(d)
    ensures Linked(Build(d, step))
  {
    match step
    case MountFragment(ns, f) =>
      if WellBuilt(f) && Mountable(d, ns, f) { MountKeepsLinked(d, ns, f); }
    case ConnectTo(exit, target) =>
      if Connectable(d, exit, target) { ConnectKeepsLinked(d, exit, target); }
    case AddNode(id, tag) =>
      var e := Build(d, step);
      assert forall n :: IsMounted(e, n) <==> IsMounted(d, n);
      assert forall s, r :: MissingRoute(e, s, r) <==> MissingRoute(d, s, r);
      assert forall n :: IsMounted(d, n) ==> MountedTransitionShape(d, d.transitions[n]);
    case SetEntry(entry) =>
      var e := Build(d, step);
      assert forall n :: IsMounted(e, n) <==> IsMounted(d, n);
      assert forall s, r :: MissingRoute(e, s, r) <==> MissingRoute(d, s, r);
      assert forall n :: IsMounted(d, n) ==> MountedTransitionShape(d, d.transitions[n]);
    case SetTransition(source, t) =>
      var e := Build(d, step);
      assert forall n :: IsMounted(e, n) <==> IsMounted(d, n);
      assert forall s, r :: MissingRoute(e, s, r) <==> MissingRoute(d, s, r);
      assert forall n :: IsMounted(d, n) ==> MountedTransitionShape(d, d.transitions[n]);
  }

  /** An exit stays connectable until it is connected, whatever else is built. */
  lemma ExitsStayConnectable(d: Draft, exit: FragmentExit, target: NodeId, step: BuildStep)
    requires Linked(d) && Connectable(d, exit, target)
    ensures Connectable(Build(d, step), exit, target) <==>
            !(step.ConnectTo? && step.exit.key == exit.key && Connectable(d, step.exit, step.target))
  {
    match step
    case MountFragment(ns, f) =>
      if WellBuilt(f) && Mountable(d, ns, f) {
        assert exit.key.ns in d.namespaces;
        assert exit.key !in MountedOpenRoutes(ns, f);
        RowOrigin(d, ns, f, target);
        UnmountedRow(d, ns, f, target);
      }
    case _ =>
  }

  /** Whatever a caller builds, from nothing and in whatever order, the unresolved exits
      are exactly the missing routes; so no call meets a definition it cannot handle. */
  ghost function BuildAll(steps: seq<BuildStep>): (d: Draft)
    ensures Linked(d)
    decreases |steps|
  {
    if steps == [] then EMPTY_DRAFT
    else
      var before, step := BuildAll(steps[..|steps| - 1]), steps[|steps| - 1];
      BuildKeepsLinked(before, step);
      Build(before, step)
  }

  /** With every exit connected, every known route of a mounted branch has a target. */
  lemma ConnectedBranchesAreFull(d: Draft, n: NodeId)
    requires Linked(d) && d.unresolved.Keys == {} && IsMounted(d, n) && d.transitions[n].Branch?
    ensures KnownRoutes(d.transitions[n].router) == d.transitions[n].targets.Keys
  {
    var router, targets := d.transitions[n].router, d.transitions[n].targets;
    assert MountedTransitionShape(d, d.transitions[n]);
    forall r | r in KnownRoutes(router) ensures r in targets {
      ConnectedMissNoRoute(d, n, r);
    }
  }

  lemma ConnectedMissNoRoute(d: Draft, s: NodeId, r: RouteKey)
    requires Linked(d) && d.unresolved.Keys == {}
    ensures !MissingRoute(d, s, r)
  {
    assert OpenRoute(s, r) !in d.unresolved.Values;
  }

  lemma NoKnownRoutes(router: Router)
    ensures KnownRoutes(router) == {} <==> router.known == []
  {
    if router.known != [] {
      assert router.known[0] in KnownRoutes(router);
    }
  }

  /** So it passes the compiler's transition check exactly when it is not a branch
      whose router knows no route at all. */
  lemma ConnectedMountsCompile(d: Draft, n: NodeId)
    requires Linked(d) && d.unresolved.Keys == {} && IsMounted(d, n)
    ensures TransitionOk(d.nodes, d.transitions[n]) <==>
            !(d.transitions[n].Branch? && d.transitions[n].router.known == [])
  {
    assert MountedTransitionShape(d, d.transitions[n]);
    if d.transitions[n].Branch? {
      ConnectedBranchesAreFull(d, n);
      NoKnownRoutes(d.transitions[n].router);
    }
  }

  /** And the only transition fault the compiler can find there is an empty branch. */
  lemma MountedFaultIsEmptyBranch(d: Draft, n: NodeId, e: CompileError)
    requires Linked(d) && d.unresolved.Keys == {} && IsMounted(d, n)
    requires Faulty(d, e) && Stage(e) == 4
    requires n == if e.DanglingTarget? then e.from else e.node
    ensures e == EmptyBranch(n) && d.transitions[n].router.known == []
  {
    assert MountedTransitionShape(d, d.transitions[n]);
    if d.transitions[n].Branch? {
      ConnectedBranchesAreFull(d, n);
      NoKnownRoutes(d.transitions[n].router);
    }
  }

  // ---- A mount is an embedding ----

  function QualifyWalk(ns: string, w: seq<NodeId>): seq<NodeId> {
    seq(|w|, i requires 0 <= i < |w| => Qualify(ns, w[i]))
  }

  /** From a namespaced node the mounted graph has the images of the fragment's
      edges and no other edge. */
  lemma MountEmbedsEdges(d: Draft, ns: string, f: Piece, a: NodeId, g: NodeId)
    requires Mountable(d, ns, f) && WellBuilt(f) && a in f.nodes
    ensures Edge(MountPiece(d, ns, f).transitions, Qualify(ns, a), g) <==>
            exists b :: g == Qualify(ns, b) && Edge(f.transitions, a, b)
  {
    MountedRow(d, ns, f, a);
    RewrittenTargets(ns, f.transitions[a]);
    if b :| g == Qualify(ns, b) && Edge(f.transitions, a, b) {
      assert Qualify(ns, b) in QualifyAll(ns, Targets(f.transitions[a]));
    }
  }

  /** The parent's own nodes keep exactly their edges. */
  lemma MountKeepsOldEdges(d: Draft, ns: string, f: Piece, a: NodeId, g: NodeId)
    requires Linked(d) && Mountable(d, ns, f) && WellBuilt(f) && a in d.nodes
    ensures MountPiece(d, ns, f).nodes.Keys >= {a} && MountPiece(d, ns, f).nodes[a] == d.nodes[a]
    ensures Edge(MountPiece(d, ns, f).transitions, a, g) <==> Edge(d.transitions, a, g)
  {
    RowOrigin(d, ns, f, a);
    UnmountedRow(d, ns, f, a);
  }

  lemma MountEmbedsLocalEdge(d: Draft, ns: string, f: Piece, a: NodeId, b: NodeId)
    requires Mountable(d, ns, f) && WellBuilt(f) && a in f.nodes
    ensures Edge(MountPiece(d, ns, f).transitions, Qualify(ns, a), Qualify(ns, b)) <==> Edge(f.transitions, a, b)
  {
    MountEmbedsEdges(d, ns, f, a, Qualify(ns, b));
    if c :| Qualify(ns, b) == Qualify(ns, c) && Edge(f.transitions, a, c) {
      QualifyInjective(ns, b, c);
    }
  }

  lemma ImageOfWalk(ts: map<NodeId, Transition>, us: map<NodeId, Transition>, ns: string, w: seq<NodeId>)
    requires forall i :: 0 <= i < |w| - 1 ==>
               (Edge(ts, w[i], w[i + 1]) <==> Edge(us, Qualify(ns, w[i]), Qualify(ns, w[i + 1])))
    ensures IsWalk(ts, w) <==> IsWalk(us, QualifyWalk(ns, w))
  {
    var image := QualifyWalk(ns, w);
    assert forall i :: 0 <= i < |w| ==> image[i] == Qualify(ns, w[i]);
    if IsWalk(us, image) {
      forall i | 0 <= i < |w| - 1 ensures Edge(ts, w[i], w[i + 1]) {
        assert Edge(us, image[i], image[i + 1]);
      }
    }
  }

  /** Hence a sequence of local nodes is a walk of the fragment exactly when its
      image is a walk of the mounted graph. */
  lemma MountEmbedsWalks(d: Draft, ns: string, f: Piece, w: seq<NodeId>)
    requires Mountable(d, ns, f) && WellBuilt(f)
    requires forall n :: n in w ==> n in f.nodes
    ensures IsWalk(f.transitions, w) <==> IsWalk(MountPiece(d, ns, f).transitions, QualifyWalk(ns, w))
  {
    var ts := MountPiece(d, ns, f).transitions;
    forall i | 0 <= i < |w| - 1
      ensures Edge(f.transitions, w[i], w[i + 1]) <==> Edge(ts, Qualify(ns, w[i]), Qualify(ns, w[i + 1]))
    {
      MountEmbedsLocalEdge(d, ns, f, w[i], w[i + 1]);
    }
    ImageOfWalk(f.transitions, ts, ns, w);
  }
}
