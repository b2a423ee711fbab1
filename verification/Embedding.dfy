// A mounted fragment runs inside its parent as it would run alone, until it leaves
// by an exit (agent-core/src/graph/fragment.rs, runtime.rs).
module Embedding {
  import opened Wrappers
  import opened Integers
  import opened AgentStates
  import opened Budgets
  import opened Graphs
  import opened Definitions
  import opened Fragments
  import opened Linking
  import opened Checkpoints
  import opened Runtime
  import opened RunTheorems

  // ---- The image of a run ----

  function QualifyEffect(ns: string, id: EffectId): EffectId {
    id.(node := Qualify(ns, id.node))
  }

  function QualifyEffects(ns: string, ids: seq<EffectId>): seq<EffectId> {
    seq(|ids|, i requires 0 <= i < |ids| => QualifyEffect(ns, ids[i]))
  }

  function QualifyReceipts(ns: string, receipts: seq<EffectReceipt>): seq<EffectReceipt> {
    seq(|receipts|, i requires 0 <= i < |receipts| => receipts[i].(id := QualifyEffect(ns, receipts[i].id)))
  }

  /** The same state and counters; node ids and effect ids are namespaced. */
  function QualifyConfig(ns: string, c: Config): Config {
    Config(c.state, c.usage, Qualify(ns, c.current), QualifyWalk(ns, c.visited),
           QualifyReceipts(ns, c.receipts), QualifyEffects(ns, c.log))
  }

  function QualifyError(ns: string, e: RunError): RunError {
    match e
    case MissingNode(n) => MissingNode(Qualify(ns, n))
    case NodeFailed(n, failure) => NodeFailed(Qualify(ns, n), failure)
    case UnexpectedSuspend(n) => UnexpectedSuspend(Qualify(ns, n))
    case NoTransition(n) => NoTransition(Qualify(ns, n))
    case SuspendAtEnd(n) => SuspendAtEnd(Qualify(ns, n))
    case StateUpdateFailed(n, state) => StateUpdateFailed(Qualify(ns, n), state)
    case MissingEffectExecutor(n) => MissingEffectExecutor(Qualify(ns, n))
    case EffectFailed(n, id, completed, effect) =>
      EffectFailed(Qualify(ns, n), QualifyEffect(ns, id), QualifyEffects(ns, completed), effect)
    case PostEffectStateUpdateFailed(n, id, state) =>
      PostEffectStateUpdateFailed(Qualify(ns, n), QualifyEffect(ns, id), state)
    case UnknownRoute(n, route) => UnknownRoute(Qualify(ns, n), route)
    case _ => e
  }

  function QualifyEffectsEnd(ns: string, end: EffectsEnd): EffectsEnd {
    match end
    case EffectsDone(candidate, usage, receipts, log) =>
      EffectsDone(candidate, usage, QualifyReceipts(ns, receipts), QualifyEffects(ns, log))
    case EffectsFailed(e, log) => EffectsFailed(QualifyError(ns, e), QualifyEffects(ns, log))
  }

  function QualifyNext(ns: string, next: Result<Option<NodeId>, RunError>): Result<Option<NodeId>, RunError> {
    match next
    case Err(e) => Err(QualifyError(ns, e))
    case Ok(None) => Ok(None)
    case Ok(Some(n)) => Ok(Some(Qualify(ns, n)))
  }

  function QualifyStep(ns: string, end: StepEnd): StepEnd {
    match end
    case Advance(next) => Advance(QualifyConfig(ns, next))
    case Finish(last) => Finish(QualifyConfig(ns, last))
    case Pause(paused, request) => Pause(QualifyConfig(ns, paused), request)
    case Abort(e, log) => Abort(QualifyError(ns, e), QualifyEffects(ns, log))
  }

  function QualifyEnd(ns: string, end: RunEnd): RunEnd {
    match end
    case RunCompleted(last) => RunCompleted(QualifyConfig(ns, last))
    case RunPaused(paused, request) => RunPaused(QualifyConfig(ns, paused), request)
    case RunAborted(e, log) => RunAborted(QualifyError(ns, e), QualifyEffects(ns, log))
  }

  // ---- Where a fragment lives ----

  /** The same application, whose executor takes namespaced ids for the local ones. A
      node is never told its id, so nothing else can tell a mounted node apart. */
  ghost predicate Mirrors(ns: string, local: Env, env: Env) {
    && env == local.(executor := env.executor)
    && (env.executor.Some? <==> local.executor.Some?)
    && (local.executor.Some? ==> forall id, e, v ::
          env.executor.value(QualifyEffect(ns, id), e, v) == local.executor.value(id, e, v))
  }

  /** The transition, perhaps with more routes. */
  predicate Extends(t: Transition, base: Transition) {
    match base
    case Branch(router, targets) =>
      && t.Branch? && t.router == router
      && forall r :: r in targets ==> r in t.targets && t.targets[r] == targets[r]
    case _ => t == base
  }

  predicate HostsNode(nodes: map<NodeId, Node>, ts: map<NodeId, Transition>, ns: string, f: Piece, l: NodeId)
    requires l in f.nodes
  {
    && l in f.transitions && Targets(f.transitions[l]) <= f.nodes.Keys
    && Qualify(ns, l) in nodes && nodes[Qualify(ns, l)] == Namespaced(Qualify(ns, l), f.nodes[l])
    && Qualify(ns, l) in ts && Extends(ts[Qualify(ns, l)], RewriteTransition(ns, f.transitions[l]))
  }

  /** The definition holds the image of every node of the fragment; exits may be connected. */
  predicate Hosts(nodes: map<NodeId, Node>, ts: map<NodeId, Transition>, ns: string, f: Piece) {
    forall l :: l in f.nodes ==> HostsNode(nodes, ts, ns, f, l)
  }

  lemma MountHosts(d: Draft, ns: string, f: Piece)
    requires Mountable(d, ns, f) && WellBuilt(f)
    ensures Hosts(MountPiece(d, ns, f).nodes, MountPiece(d, ns, f).transitions, ns, f)
  {
    forall l | l in f.nodes
      ensures HostsNode(MountPiece(d, ns, f).nodes, MountPiece(d, ns, f).transitions, ns, f, l)
    {
      MountedRow(d, ns, f, l);
      MountedTargetsExist(d, ns, f, l);
    }
  }

  /** No builder call takes a node or a route away. */
  lemma BuildKeepsRow(d: Draft, step: BuildStep, n: NodeId)
    requires Linked(d) && n in d.nodes && n in d.transitions
    ensures var e := Build(d, step);
            && n in e.nodes && e.nodes[n] == d.nodes[n]
            && n in e.transitions && Extends(e.transitions[n], d.transitions[n])
  {
    match step
    case MountFragment(ns, f) =>
      if WellBuilt(f) && Mountable(d, ns, f) {
        RowOrigin(d, ns, f, n);
        UnmountedRow(d, ns, f, n);
      }
    case ConnectTo(exit, target) =>
      if Connectable(d, exit, target) {
        assert MissingRoute(d, exit.source, exit.route);
      }
    case _ =>
  }

  lemma BuildKeepsHosting(d: Draft, step: BuildStep, ns: string, f: Piece)
    requires Linked(d) && Hosts(d.nodes, d.transitions, ns, f)
    ensures Hosts(Build(d, step).nodes, Build(d, step).transitions, ns, f)
  {
    var e := Build(d, step);
    forall l | l in f.nodes ensures HostsNode(e.nodes, e.transitions, ns, f, l) {
      assert HostsNode(d.nodes, d.transitions, ns, f, l);
      BuildKeepsRow(d, step, Qualify(ns, l));
    }
  }

  /** The i-th builder call is an accepted mount of f. */
  ghost predicate MountedAt(steps: seq<BuildStep>, i: nat, ns: string, f: Piece) {
    && i < |steps| && steps[i] == MountFragment(ns, f)
    && WellBuilt(f) && Mountable(BuildAll(steps[..i]), ns, f)
  }

  lemma BuildMounts(d: Draft, ns: string, f: Piece)
    requires Linked(d)
    ensures Build(d, MountFragment(ns, f)) == if WellBuilt(f) && Mountable(d, ns, f) then MountPiece(d, ns, f) else d
  {
  }

  lemma LastMountIsHosted(steps: seq<BuildStep>, ns: string, f: Piece)
    requires steps != [] && MountedAt(steps, |steps| - 1, ns, f)
    ensures Hosts(BuildAll(steps).nodes, BuildAll(steps).transitions, ns, f)
  {
    var front := BuildAll(steps[..|steps| - 1]);
    BuildMounts(front, ns, f);
    assert BuildAll(steps) == MountPiece(front, ns, f);
    MountHosts(front, ns, f);
  }

  lemma HostingLasts(steps: seq<BuildStep>, ns: string, f: Piece)
    requires steps != []
    requires var front := BuildAll(steps[..|steps| - 1]); Hosts(front.nodes, front.transitions, ns, f)
    ensures Hosts(BuildAll(steps).nodes, BuildAll(steps).transitions, ns, f)
  {
    BuildKeepsHosting(BuildAll(steps[..|steps| - 1]), steps[|steps| - 1], ns, f);
  }

  lemma MountedInFront(steps: seq<BuildStep>, i: nat, ns: string, f: Piece)
    requires MountedAt(steps, i, ns, f) && i < |steps| - 1
    ensures MountedAt(steps[..|steps| - 1], i, ns, f)
  {
    assert steps[..|steps| - 1][..i] == steps[..i];
  }

  lemma {:induction false} EveryMountIsHosted(steps: seq<BuildStep>, i: nat, ns: string, f: Piece)
    requires MountedAt(steps, i, ns, f)
    ensures Hosts(BuildAll(steps).nodes, BuildAll(steps).transitions, ns, f)
    decreases |steps|
  {
    if i == |steps| - 1 {
      LastMountIsHosted(steps, ns, f);
    } else {
      MountedInFront(steps, i, ns, f);
      EveryMountIsHosted(steps[..|steps| - 1], i, ns, f);
      HostingLasts(steps, ns, f);
    }
  }

  // ---- One iteration ----

  lemma QualifyAppends(ns: string, ids: seq<EffectId>, more: seq<EffectId>)
    ensures QualifyEffects(ns, ids + more) == QualifyEffects(ns, ids) + QualifyEffects(ns, more)
  {
  }

  lemma QualifyOneMore(ns: string, receipts: seq<EffectReceipt>, ids: seq<EffectId>, r: EffectReceipt)
    ensures QualifyEffects(ns, ids + [r.id]) == QualifyEffects(ns, ids) + [QualifyEffect(ns, r.id)]
    ensures QualifyReceipts(ns, receipts + [r])
            == QualifyReceipts(ns, receipts) + [EffectReceipt(QualifyEffect(ns, r.id), r.value)]
    ensures Ids(QualifyReceipts(ns, receipts)) == QualifyEffects(ns, Ids(receipts))
  {
  }

  lemma {:induction false} EffectsOfImage(ns: string, local: Env, env: Env, run: RunInfo, step: NonZeroU32,
                                          node: NodeId, candidate: Snapshot, usage: Usage,
                                          receipts: seq<EffectReceipt>,
                                          log: seq<EffectId>, effects: seq<Effect>, k: nat)
    requires Mirrors(ns, local, env) && k <= |effects|
    ensures RunEffects(env, run, step, Qualify(ns, node), candidate, usage, QualifyReceipts(ns, receipts),
                       QualifyEffects(ns, log), effects, k)
            == QualifyEffectsEnd(ns, RunEffects(local, run, step, node, candidate, usage, receipts, log, effects, k))
    decreases |effects| - k
  {
    if k < |effects| && k <= U32_MAX && local.executor.Some? {
      var id := EffectId(run.id, step, node, k);
      var outcome := local.executor.value(id, effects[k], View(run, usage));
      assert env.executor.value(QualifyEffect(ns, id), effects[k], View(run, usage)) == outcome;
      if outcome.result.Err? {
        QualifyAppends(ns, log, [id]);
        QualifyEffectIds(ns, receipts, id);
      } else {
        var receipt := EffectReceipt(id, outcome.result.value);
        QualifyOneMore(ns, receipts, log, receipt);
        var next := ApplyAll(local.rule, candidate, local.receiptUpdates(receipt.value));
        if next.Ok? {
          EffectsOfImage(ns, local, env, run, step, node, next.value,
                         ReserveAll(run.limits, usage, outcome.reservations),
                         receipts + [receipt], log + [id], effects, k + 1);
        }
      }
    }
  }

  lemma QualifyEffectIds(ns: string, receipts: seq<EffectReceipt>, id: EffectId)
    ensures Ids(QualifyReceipts(ns, receipts)) == QualifyEffects(ns, Ids(receipts))
    ensures QualifyEffects(ns, [id]) == [QualifyEffect(ns, id)]
  {
  }

  lemma WorkOfImage(ns: string, local: Env, env: Env, run: RunInfo, c: Config, usage: Usage,
                    updates: seq<Update>, effects: seq<Effect>, tokens: U64)
    requires Mirrors(ns, local, env) && 1 <= usage.steps
    ensures Work(env, run, QualifyConfig(ns, c), usage, updates, effects, tokens)
            == QualifyEffectsEnd(ns, Work(local, run, c, usage, updates, effects, tokens))
  {
    var counted := Reserve(run.limits, usage, TokenCount(tokens));
    var candidate := ApplyAll(local.rule, c.state, updates);
    if counted.Ok? && candidate.Ok? {
      assert QualifyReceipts(ns, []) == [];
      EffectsOfImage(ns, local, env, run, counted.value.steps, c.current, candidate.value, counted.value, [], c.log,
                     effects, 0);
    }
  }

  /** The fragment alone, under the parent's limits. */
  function Alone(g: CompiledGraph, f: Piece): CompiledGraph {
    g.(nodes := f.nodes, transitions := f.transitions)
  }

  /** The router chose a route that the fragment leaves open and its parent has connected. */
  predicate TakesExit(g: CompiledGraph, ns: string, e: RunError) {
    && e.UnknownRoute?
    && Qualify(ns, e.node) in g.transitions && g.transitions[Qualify(ns, e.node)].Branch?
    && e.route in g.transitions[Qualify(ns, e.node)].targets
  }

  function ExitTarget(g: CompiledGraph, ns: string, e: RunError): NodeId
    requires TakesExit(g, ns, e)
  {
    g.transitions[Qualify(ns, e.node)].targets[e.route]
  }

  /** The same choice of the same router, read off a transition with perhaps more routes. */
  lemma NextOfRewritten(local: Env, env: Env, ns: string, t: Transition, there: Transition, l: NodeId, state: Snapshot)
    requires env.select == local.select && Extends(there, RewriteTransition(ns, t))
    ensures var next := NextOf(local, t, l, state);
            var image := NextOf(env, there, Qualify(ns, l), state);
            && (next.Ok? && next.value.Some? ==> next.value.value in Targets(t))
            && (next.Err? && next.error.UnknownRoute? ==> next.error.node == l)
            && image == if next.Err? && next.error.UnknownRoute? && there.Branch? && next.error.route in there.targets
                        then Ok(Some(there.targets[next.error.route])) else QualifyNext(ns, next)
  {
    if t.Branch? {
      var route := local.select(t.router.tag, state);
      if route.Ok? && route.value in t.targets {
        assert t.targets[route.value] in t.targets.Values;
        assert route.value in RewriteTransition(ns, t).targets;
      }
    }
  }

  lemma NextOfImage(local: Env, env: Env, g: CompiledGraph, ns: string, f: Piece, l: NodeId, state: Snapshot)
    requires Mirrors(ns, local, env) && Hosts(g.nodes, g.transitions, ns, f) && l in f.nodes
    ensures var next := NextOf(local, f.transitions[l], l, state);
            var image := NextOf(env, g.transitions[Qualify(ns, l)], Qualify(ns, l), state);
            && (next.Ok? && next.value.Some? ==> next.value.value in f.nodes)
            && (next.Err? && next.error.UnknownRoute? ==> next.error.node == l)
            && image == if next.Err? && TakesExit(g, ns, next.error) then Ok(Some(ExitTarget(g, ns, next.error)))
                        else QualifyNext(ns, next)
  {
    assert HostsNode(g.nodes, g.transitions, ns, f, l);
    NextOfRewritten(local, env, ns, f.transitions[l], g.transitions[Qualify(ns, l)], l, state);
  }

  // ---- What a node leaves behind ----

  function CommittedBy(c: Config, work: EffectsEnd): Config
    requires work.EffectsDone?
  {
    Config(work.candidate, work.usage, c.current, c.visited + [c.current], c.receipts + work.receipts, work.log)
  }

  /** What the node about to run commits: the configuration in which its transition is read. */
  function Committed(env: Env, g: CompiledGraph, run: RunInfo, c: Config): Option<Config> {
    match Start(env, g, run, c)
    case Err(_) => None
    case Ok((usage, verdict)) =>
      match Work(env, run, c, usage, verdict.updates, verdict.effects, verdict.tokens)
      case EffectsFailed(_, _) => None
      case work => Some(CommittedBy(c, work))
  }

  function Asked(env: Env, g: CompiledGraph, run: RunInfo, c: Config): Option<SuspendRequest> {
    match Start(env, g, run, c)
    case Ok((_, Suspend(_, _, _, request))) => Some(request)
    case _ => None
  }

  lemma {:induction false} EffectsNeverRoute(env: Env, run: RunInfo, step: NonZeroU32, node: NodeId,
                                             candidate: Snapshot, usage: Usage, receipts: seq<EffectReceipt>,
                                             log: seq<EffectId>, effects: seq<Effect>, k: nat)
    requires k <= |effects|
    ensures var end := RunEffects(env, run, step, node, candidate, usage, receipts, log, effects, k);
            end.EffectsFailed? ==> !end.error.UnknownRoute?
    decreases |effects| - k
  {
    if k < |effects| && k <= U32_MAX && env.executor.Some? {
      var id := EffectId(run.id, step, node, k);
      var outcome := env.executor.value(id, effects[k], View(run, usage));
      if outcome.result.Ok? {
        var value := outcome.result.value;
        var next := ApplyAll(env.rule, candidate, env.receiptUpdates(value));
        if next.Ok? {
          EffectsNeverRoute(env, run, step, node, next.value, ReserveAll(run.limits, usage, outcome.reservations),
                            receipts + [EffectReceipt(id, value)], log + [id], effects, k + 1);
        }
      }
    }
  }

  lemma WorkNeverRoutes(env: Env, run: RunInfo, c: Config, usage: Usage,
                        updates: seq<Update>, effects: seq<Effect>, tokens: U64)
    requires 1 <= usage.steps
    ensures var work := Work(env, run, c, usage, updates, effects, tokens);
            work.EffectsFailed? ==> !work.error.UnknownRoute?
  {
    var counted := Reserve(run.limits, usage, TokenCount(tokens));
    var candidate := ApplyAll(env.rule, c.state, updates);
    if counted.Ok? && candidate.Ok? {
      EffectsNeverRoute(env, run, counted.value.steps, c.current, candidate.value, counted.value, [], c.log, effects,
                        0);
    }
  }

  // ---- A mounted node does what it does alone ----

  /** The node call does not depend on the id a node goes by. */
  lemma StartUnderAnotherId(local: Env, env: Env, g: CompiledGraph, h: CompiledGraph, ns: string, run: RunInfo,
                            c: Config)
    requires env.run == local.run && env.interrupt == local.interrupt && h.maxSteps == g.maxSteps
    requires c.current in h.nodes && Qualify(ns, c.current) in g.nodes
    requires Behaviour(g.nodes[Qualify(ns, c.current)]) == Behaviour(h.nodes[c.current])
    ensures var alone := Start(local, h, run, c);
            && (alone.Err? ==> !alone.error.UnknownRoute?)
            && Start(env, g, run, QualifyConfig(ns, c))
               == if alone.Ok? then alone else Err(QualifyError(ns, alone.error))
  {
  }

  lemma StartOfImage(local: Env, env: Env, g: CompiledGraph, ns: string, f: Piece, run: RunInfo, c: Config)
    requires Mirrors(ns, local, env) && Hosts(g.nodes, g.transitions, ns, f) && c.current in f.nodes
    ensures var alone := Start(local, Alone(g, f), run, c);
            && (alone.Err? ==> !alone.error.UnknownRoute?)
            && Start(env, g, run, QualifyConfig(ns, c))
               == if alone.Ok? then alone else Err(QualifyError(ns, alone.error))
  {
    assert HostsNode(g.nodes, g.transitions, ns, f, c.current);
    StartUnderAnotherId(local, env, g, Alone(g, f), ns, run, c);
  }

  lemma CommittedOfImage(ns: string, c: Config, work: EffectsEnd)
    requires work.EffectsDone?
    ensures CommittedBy(QualifyConfig(ns, c), QualifyEffectsEnd(ns, work)) == QualifyConfig(ns, CommittedBy(c, work))
  {
    assert QualifyWalk(ns, c.visited + [c.current]) == QualifyWalk(ns, c.visited) + [Qualify(ns, c.current)];
    assert QualifyReceipts(ns, c.receipts + work.receipts)
           == QualifyReceipts(ns, c.receipts) + QualifyReceipts(ns, work.receipts);
  }

  lemma HostedEnds(g: CompiledGraph, ns: string, f: Piece, l: NodeId)
    requires Hosts(g.nodes, g.transitions, ns, f) && l in f.nodes
    ensures l in f.transitions && Qualify(ns, l) in g.transitions
    ensures g.transitions[Qualify(ns, l)].End? <==> f.transitions[l].End?
  {
    assert HostsNode(g.nodes, g.transitions, ns, f, l);
  }

  /** Leaving a node once it has committed c. */
  lemma LeaveOfImage(local: Env, env: Env, g: CompiledGraph, ns: string, f: Piece, c: Config,
                     request: Option<SuspendRequest>)
    requires Mirrors(ns, local, env) && Hosts(g.nodes, g.transitions, ns, f) && c.current in f.nodes
    requires c.current in f.transitions && Qualify(ns, c.current) in g.transitions
    ensures var alone := Leave(c, NextOf(local, f.transitions[c.current], c.current, c.state), request);
            var there := Qualify(ns, c.current);
            var image := Leave(QualifyConfig(ns, c), NextOf(env, g.transitions[there], there, c.state), request);
            && (alone.Advance? ==> alone.next.current in f.nodes)
            && image == if alone.Abort? && TakesExit(g, ns, alone.error)
                        then Leave(QualifyConfig(ns, c), Ok(Some(ExitTarget(g, ns, alone.error))), request)
                        else QualifyStep(ns, alone)
  {
    NextOfImage(local, env, g, ns, f, c.current, c.state);
  }

  lemma SettleOfImage(local: Env, env: Env, g: CompiledGraph, ns: string, f: Piece, run: RunInfo, c: Config,
                      usage: Usage, updates: seq<Update>, effects: seq<Effect>, tokens: U64,
                      request: Option<SuspendRequest>)
    requires Mirrors(ns, local, env) && Hosts(g.nodes, g.transitions, ns, f) && c.current in f.nodes
    requires 1 <= usage.steps
    ensures var alone := Settle(local, Alone(g, f), run, c, usage, updates, effects, tokens, request);
            var image := Settle(env, g, run, QualifyConfig(ns, c), usage, updates, effects, tokens, request);
            var work := Work(local, run, c, usage, updates, effects, tokens);
            && (alone.Advance? ==> alone.next.current in f.nodes)
            && if alone.Abort? && TakesExit(g, ns, alone.error)
               then work.EffectsDone?
                    && image == Leave(QualifyConfig(ns, CommittedBy(c, work)),
                                      Ok(Some(ExitTarget(g, ns, alone.error))), request)
               else image == QualifyStep(ns, alone)
  {
    HostedEnds(g, ns, f, c.current);
    WorkOfImage(ns, local, env, run, c, usage, updates, effects, tokens);
    WorkNeverRoutes(local, run, c, usage, updates, effects, tokens);
    var work := Work(local, run, c, usage, updates, effects, tokens);
    if work.EffectsDone? {
      CommittedOfImage(ns, c, work);
      LeaveOfImage(local, env, g, ns, f, CommittedBy(c, work), request);
    }
  }

  /** How the parent steps from the image of c, given the fragment's own step from c. */
  ghost predicate StepRunsAs(local: Env, env: Env, g: CompiledGraph, ns: string, f: Piece, run: RunInfo,
                             checkpointing: bool, c: Config)
  {
    var alone := StepOnce(local, Alone(g, f), run, checkpointing, c);
    var image := StepOnce(env, g, run, checkpointing, QualifyConfig(ns, c));
    if alone.Abort? && TakesExit(g, ns, alone.error) then LeavesByExit(local, g, ns, f, run, c, alone.error, image)
    else image == QualifyStep(ns, alone)
  }

  /** The step goes on to the target of the exit, with what the node committed. */
  ghost predicate LeavesByExit(local: Env, g: CompiledGraph, ns: string, f: Piece, run: RunInfo, c: Config,
                               e: RunError, image: StepEnd)
    requires TakesExit(g, ns, e)
  {
    var committed := Committed(local, Alone(g, f), run, c);
    && committed.Some?
    && image == Leave(QualifyConfig(ns, committed.value), Ok(Some(ExitTarget(g, ns, e))),
                      Asked(local, Alone(g, f), run, c))
  }

  function RequestOf(verdict: Verdict): Option<SuspendRequest> {
    if verdict.Suspend? then Some(verdict.request) else None
  }

  lemma StepSettles(env: Env, g: CompiledGraph, run: RunInfo, checkpointing: bool, c: Config, usage: Usage,
                    verdict: Verdict)
    requires Start(env, g, run, c) == Ok((usage, verdict)) && (checkpointing || !verdict.Suspend?)
    ensures !verdict.Failure? && 1 <= usage.steps
    ensures StepOnce(env, g, run, checkpointing, c)
            == Settle(env, g, run, c, usage, verdict.updates, verdict.effects, verdict.tokens, RequestOf(verdict))
    ensures Asked(env, g, run, c) == RequestOf(verdict)
    ensures var work := Work(env, run, c, usage, verdict.updates, verdict.effects, verdict.tokens);
            Committed(env, g, run, c) == if work.EffectsDone? then Some(CommittedBy(c, work)) else None
  {
  }

  lemma SettledStepOfImage(local: Env, env: Env, g: CompiledGraph, ns: string, f: Piece, run: RunInfo,
                           checkpointing: bool, c: Config, usage: Usage, verdict: Verdict)
    requires Mirrors(ns, local, env) && Hosts(g.nodes, g.transitions, ns, f) && c.current in f.nodes
    requires Start(local, Alone(g, f), run, c) == Ok((usage, verdict)) && (checkpointing || !verdict.Suspend?)
    requires Start(env, g, run, QualifyConfig(ns, c)) == Ok((usage, verdict))
    ensures StepRunsAs(local, env, g, ns, f, run, checkpointing, c)
    ensures var alone := StepOnce(local, Alone(g, f), run, checkpointing, c);
            alone.Advance? ==> alone.next.current in f.nodes
  {
    StepSettles(local, Alone(g, f), run, checkpointing, c, usage, verdict);
    StepSettles(env, g, run, checkpointing, QualifyConfig(ns, c), usage, verdict);
    SettleOfImage(local, env, g, ns, f, run, c, usage, verdict.updates, verdict.effects, verdict.tokens,
                  RequestOf(verdict));
  }

  /** One iteration at the image of a configuration is the image of the iteration the
      fragment makes alone: next node, state, counters, effect ids and errors. Only a
      route that the fragment leaves open leads elsewhere, with what the node committed. */
  lemma StepOfImage(local: Env, env: Env, g: CompiledGraph, ns: string, f: Piece, run: RunInfo,
                    checkpointing: bool, c: Config)
    requires Mirrors(ns, local, env) && Hosts(g.nodes, g.transitions, ns, f) && c.current in f.nodes
    ensures StepRunsAs(local, env, g, ns, f, run, checkpointing, c)
    ensures var alone := StepOnce(local, Alone(g, f), run, checkpointing, c);
            alone.Advance? ==> alone.next.current in f.nodes
  {
    StartOfImage(local, env, g, ns, f, run, c);
    var start := Start(local, Alone(g, f), run, c);
    if start.Ok? && (checkpointing || !start.value.1.Suspend?) {
      SettledStepOfImage(local, env, g, ns, f, run, checkpointing, c, start.value.0, start.value.1);
    }
  }

  // ---- Whole runs ----

  /** How the parent goes on from the image of c, given the fragment's own run from c. */
  ghost predicate RunsAs(local: Env, env: Env, g: CompiledGraph, ns: string, f: Piece, run: RunInfo,
                         checkpointing: bool, c: Config)
    requires StepLimit(run.limits, g.maxSteps) < U32_MAX
  {
    var alone := Execute(local, Alone(g, f), run, checkpointing, c);
    var image := Execute(env, g, run, checkpointing, QualifyConfig(ns, c));
    if alone.RunAborted? && TakesExit(g, ns, alone.error) then
      var last := LastBefore(local, Alone(g, f), run, checkpointing, c);
      && LeavesByExit(local, g, ns, f, run, last, alone.error,
                      StepOnce(env, g, run, checkpointing, QualifyConfig(ns, last)))
      && image == Execute(env, g, run, checkpointing, QualifyConfig(ns, last))
    else image == QualifyEnd(ns, alone)
  }

  lemma AdvanceOfImage(local: Env, env: Env, g: CompiledGraph, ns: string, f: Piece, run: RunInfo,
                       checkpointing: bool, c: Config, next: Config)
    requires StepLimit(run.limits, g.maxSteps) < U32_MAX
    requires StepOnce(local, Alone(g, f), run, checkpointing, c) == Advance(next)
    requires StepOnce(env, g, run, checkpointing, QualifyConfig(ns, c)) == Advance(QualifyConfig(ns, next))
    requires RunsAs(local, env, g, ns, f, run, checkpointing, next)
    ensures RunsAs(local, env, g, ns, f, run, checkpointing, c)
  {
    assert Execute(local, Alone(g, f), run, checkpointing, c) == Execute(local, Alone(g, f), run, checkpointing, next);
    assert Execute(env, g, run, checkpointing, QualifyConfig(ns, c))
           == Execute(env, g, run, checkpointing, QualifyConfig(ns, next));
  }

  lemma LastOfImage(local: Env, env: Env, g: CompiledGraph, ns: string, f: Piece, run: RunInfo,
                    checkpointing: bool, c: Config)
    requires StepLimit(run.limits, g.maxSteps) < U32_MAX
    requires StepRunsAs(local, env, g, ns, f, run, checkpointing, c)
    requires !StepOnce(local, Alone(g, f), run, checkpointing, c).Advance?
    ensures RunsAs(local, env, g, ns, f, run, checkpointing, c)
  {
    assert LastBefore(local, Alone(g, f), run, checkpointing, c) == c;
  }

  lemma {:induction false} RunOfImage(local: Env, env: Env, g: CompiledGraph, ns: string, f: Piece, run: RunInfo,
                                      checkpointing: bool, c: Config)
    requires StepLimit(run.limits, g.maxSteps) < U32_MAX
    requires Mirrors(ns, local, env) && Hosts(g.nodes, g.transitions, ns, f) && c.current in f.nodes
    ensures RunsAs(local, env, g, ns, f, run, checkpointing, c)
    decreases U32_MAX - c.usage.steps
  {
    StepOfImage(local, env, g, ns, f, run, checkpointing, c);
    StepUsesOneStep(local, Alone(g, f), run, checkpointing, c);
    var alone := StepOnce(local, Alone(g, f), run, checkpointing, c);
    if alone.Advance? {
      RunOfImage(local, env, g, ns, f, run, checkpointing, alone.next);
      AdvanceOfImage(local, env, g, ns, f, run, checkpointing, c, alone.next);
    } else {
      LastOfImage(local, env, g, ns, f, run, checkpointing, c);
    }
  }

  /** In whatever definition a caller goes on to build after mounting a fragment, the
      fragment runs as it does alone, node for node and effect for effect, to the same
      result or error, until it takes an exit that has been connected; there the parent
      goes on from the connected target with what the last node committed. */
  lemma MountPreservesRuns(steps: seq<BuildStep>, i: nat, ns: string, f: Piece, g: CompiledGraph,
                           local: Env, env: Env, run: RunInfo, checkpointing: bool, c: Config)
    requires MountedAt(steps, i, ns, f)
    requires g.nodes == BuildAll(steps).nodes && g.transitions == BuildAll(steps).transitions
    requires StepLimit(run.limits, g.maxSteps) < U32_MAX && Mirrors(ns, local, env) && c.current in f.nodes
    ensures RunsAs(local, env, g, ns, f, run, checkpointing, c)
  {
    EveryMountIsHosted(steps, i, ns, f);
    RunOfImage(local, env, g, ns, f, run, checkpointing, c);
  }

  /** Once every exit is connected, what leads out of a fragment is exactly a route it
      declares as an exit. */
  lemma ExitsAreDeclared(d: Draft, g: CompiledGraph, ns: string, f: Piece, l: NodeId, r: RouteKey)
    requires Linked(d) && d.unresolved.Keys == {} && g.nodes == d.nodes && g.transitions == d.transitions
    requires PieceOk(f) && Hosts(d.nodes, d.transitions, ns, f) && l in f.nodes
    requires f.transitions[l].Branch? && r !in f.transitions[l].targets
    ensures TakesExit(g, ns, UnknownRoute(l, r)) <==> r in ExitRoutes(f, l)
  {
    assert HostsNode(d.nodes, d.transitions, ns, f, l) && LocalTransitionOk(f, l, f.transitions[l]);
    ConnectedBranchesAreFull(d, Qualify(ns, l));
  }

  /** The graph with one more route on one branch. */
  function WithRoute(g: CompiledGraph, source: NodeId, route: RouteKey, target: NodeId): CompiledGraph
    requires source in g.transitions && g.transitions[source].Branch?
  {
    g.(transitions := g.transitions[source := AddRoute(g.transitions[source], route, target)])
  }

  lemma SettleWithRoute(env: Env, g: CompiledGraph, source: NodeId, route: RouteKey, target: NodeId, run: RunInfo,
                        c: Config, usage: Usage, updates: seq<Update>, effects: seq<Effect>, tokens: U64,
                        request: Option<SuspendRequest>)
    requires source in g.transitions && g.transitions[source].Branch? && route !in g.transitions[source].targets
    requires 1 <= usage.steps
    ensures var before := Settle(env, g, run, c, usage, updates, effects, tokens, request);
            var after := Settle(env, WithRoute(g, source, route, target), run, c, usage, updates, effects, tokens,
                                request);
            var work := Work(env, run, c, usage, updates, effects, tokens);
            if before.Abort? && before.error == UnknownRoute(source, route)
            then work.EffectsDone? && after == Leave(CommittedBy(c, work), Ok(Some(target)), request)
            else after == before
  {
    WorkNeverRoutes(env, run, c, usage, updates, effects, tokens);
  }

  lemma StepWithRoute(env: Env, g: CompiledGraph, source: NodeId, route: RouteKey, target: NodeId, run: RunInfo,
                      checkpointing: bool, c: Config)
    requires source in g.transitions && g.transitions[source].Branch? && route !in g.transitions[source].targets
    ensures var before := StepOnce(env, g, run, checkpointing, c);
            var after := StepOnce(env, WithRoute(g, source, route, target), run, checkpointing, c);
            if before.Abort? && before.error == UnknownRoute(source, route)
            then Committed(env, g, run, c).Some?
                 && after == Leave(Committed(env, g, run, c).value, Ok(Some(target)), Asked(env, g, run, c))
            else after == before
  {
    var h, start := WithRoute(g, source, route, target), Start(env, g, run, c);
    assert Start(env, h, run, c) == start;
    if start.Ok? && (checkpointing || !start.value.1.Suspend?) {
      var (usage, verdict) := start.value;
      StepSettles(env, g, run, checkpointing, c, usage, verdict);
      StepSettles(env, h, run, checkpointing, c, usage, verdict);
      SettleWithRoute(env, g, source, route, target, run, c, usage, verdict.updates, verdict.effects, verdict.tokens,
                      RequestOf(verdict));
    }
  }

  /** Connecting an exit redirects one route of one node and nothing else: only the
      iteration that failed for want of this very route goes another way, on to the target. */
  lemma ConnectPreservesSteps(env: Env, d: Draft, exit: FragmentExit, target: NodeId, g: CompiledGraph,
                              run: RunInfo, checkpointing: bool, c: Config)
    requires Linked(d) && Connectable(d, exit, target) && g.nodes == d.nodes && g.transitions == d.transitions
    ensures var e := Connect(d, exit, target);
            var before := StepOnce(env, g, run, checkpointing, c);
            var after := StepOnce(env, g.(nodes := e.nodes, transitions := e.transitions), run, checkpointing, c);
            if before.Abort? && before.error == UnknownRoute(exit.source, exit.route)
            then Committed(env, g, run, c).Some?
                 && after == Leave(Committed(env, g, run, c).value, Ok(Some(target)), Asked(env, g, run, c))
            else after == before
  {
    assert MissingRoute(d, exit.source, exit.route);
    var e := Connect(d, exit, target);
    assert g.(nodes := e.nodes, transitions := e.transitions) == WithRoute(g, exit.source, exit.route, target);
    StepWithRoute(env, g, exit.source, exit.route, target, run, checkpointing, c);
  }
}
