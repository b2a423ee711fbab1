// What holds of every run of a compiled graph, from its start through any number
// of suspensions (agent-core/src/graph/runtime.rs, budget.rs).
module RunTheorems {
  import opened Wrappers
  import opened Integers
  import opened AgentStates
  import opened Budgets
  import opened Graphs
  import opened Definitions
  import opened Checkpoints
  import opened Runtime
  import opened NodeAnswers

  /** What compilation leaves a run to rely on. */
  predicate WellFormed(g: CompiledGraph) {
    g.entry in g.nodes && g.nodes.Keys <= g.transitions.Keys && TransitionsOk(g.nodes, g.transitions)
  }

  lemma CompiledIsWellFormed(d: Draft, g: CompiledGraph)
    requires Compilable(d)
    requires d.nodes == g.nodes && d.entry == Some(g.entry) && d.transitions == g.transitions
    ensures WellFormed(g)
  {
  }

  // ---- Effect ids ----

  /** The ids of the first k effects of one node execution. */
  function Block(run: RunId, step: NonZeroU32, node: NodeId, k: nat): seq<EffectId>
    requires k <= U32_MAX + 1
  {
    seq(k, i requires 0 <= i < k => EffectId(run, step, node, i))
  }

  predicate Before(a: EffectId, b: EffectId) {
    a.step < b.step || (a.step == b.step && a.ordinal < b.ordinal)
  }

  predicate InOrder(ids: seq<EffectId>) {
    forall i, j :: 0 <= i < j < |ids| ==> Before(ids[i], ids[j])
  }

  /** The call is its node's first, or directly follows the node's previous one. */
  predicate HasNoGap(ids: seq<EffectId>, i: nat)
    requires i < |ids|
  {
    var id := ids[i];
    id.ordinal == 0 || (i > 0 && ids[i - 1] == EffectId(id.run, id.step, id.node, id.ordinal - 1))
  }

  /** Ordinals of one step start at 0 and leave no gap. */
  predicate Gapless(ids: seq<EffectId>) {
    forall i :: 0 <= i < |ids| ==> HasNoGap(ids, i)
  }

  /** Executor calls of one run: strictly increasing, gapless, each made by the node
      visited at that step. */
  predicate Trail(ids: seq<EffectId>, run: RunId, visited: seq<NodeId>) {
    && InOrder(ids) && Gapless(ids)
    && forall i :: 0 <= i < |ids| ==>
         ids[i].run == run && ids[i].step <= |visited| && ids[i].node == visited[ids[i].step - 1]
  }

  lemma TrailGrows(ids: seq<EffectId>, run: RunId, visited: seq<NodeId>, node: NodeId, k: nat)
    requires Trail(ids, run, visited) && k <= U32_MAX + 1 && |visited| < U32_MAX
    ensures Trail(ids + Block(run, |visited| + 1, node, k), run, visited + [node])
  {
    var block := Block(run, |visited| + 1, node, k);
    var all := ids + block;
    forall i | 0 <= i < |all| ensures HasNoGap(all, i) {
      if i < |ids| {
        assert HasNoGap(ids, i);
      }
    }
  }

  lemma TrailHasNoRepeats(ids: seq<EffectId>, run: RunId, visited: seq<NodeId>)
    requires Trail(ids, run, visited)
    ensures NoDuplicates(ids)
  {
    forall i, j | 0 <= i < j < |ids| ensures ids[i] != ids[j] {
      assert Before(ids[i], ids[j]);
    }
  }

  lemma IdsAppend(receipts: seq<EffectReceipt>, more: seq<EffectReceipt>)
    ensures Ids(receipts + more) == Ids(receipts) + Ids(more)
  {
  }

  lemma BlockGrows(run: RunId, step: NonZeroU32, node: NodeId, k: nat)
    requires k <= U32_MAX
    ensures Block(run, step, node, k + 1) == Block(run, step, node, k) + [EffectId(run, step, node, k)]
  {
  }

  /** How an effect loop that called the executor for exactly the ordinals below
      `calls` may end. */
  predicate EffectsReport(run: RunId, step: NonZeroU32, node: NodeId, base: seq<EffectId>,
                          end: EffectsEnd, total: nat, calls: nat)
  {
    && calls <= total && calls <= U32_MAX + 1
    && end.log == base + Block(run, step, node, calls)
    && match end
       case EffectsDone(_, _, receipts, _) => calls == total && Ids(receipts) == Block(run, step, node, calls)
       case EffectsFailed(EffectFailed(n, id, completed, _), _) =>
         n == node && calls > 0 && id == EffectId(run, step, node, calls - 1)
         && completed == Block(run, step, node, calls - 1)
       case EffectsFailed(PostEffectStateUpdateFailed(n, id, _), _) =>
         n == node && calls > 0 && id == EffectId(run, step, node, calls - 1)
       case EffectsFailed(e, _) => !e.MissingNode? && !e.NoTransition? && !e.SuspendAtEnd? && !e.UnexpectedSuspend?
  }

  ghost predicate EffectsReported(run: RunId, step: NonZeroU32, node: NodeId, base: seq<EffectId>,
                                  end: EffectsEnd, total: nat)
  {
    exists calls: nat :: EffectsReport(run, step, node, base, end, total, calls)
  }

  lemma {:induction false} EffectsAreNumbered(env: Env, run: RunInfo, step: NonZeroU32, node: NodeId,
                                              candidate: Snapshot, usage: Usage, receipts: seq<EffectReceipt>,
                                              base: seq<EffectId>, effects: seq<Effect>, k: nat)
    requires k <= |effects| && k <= U32_MAX + 1 && Ids(receipts) == Block(run.id, step, node, k)
    ensures EffectsReported(run.id, step, node, base,
                            RunEffects(env, run, step, node, candidate, usage, receipts,
                                       base + Block(run.id, step, node, k), effects, k), |effects|)
    decreases |effects| - k
  {
    var log := base + Block(run.id, step, node, k);
    var end := RunEffects(env, run, step, node, candidate, usage, receipts, log, effects, k);
    if k == |effects| || k > U32_MAX || env.executor.None? || env.interrupt(step, BeforeEffect(k)).Some? {
      assert EffectsReport(run.id, step, node, base, end, |effects|, k);
    } else {
      var id := EffectId(run.id, step, node, k);
      BlockGrows(run.id, step, node, k);
      assert log + [id] == base + Block(run.id, step, node, k + 1);
      var outcome := env.executor.value(id, effects[k], View(run, usage));
      if env.interrupt(step, InEffect(k)).Some? || outcome.result.Err?
         || ApplyAll(env.rule, candidate, env.receiptUpdates(outcome.result.value)).Err? {
        assert EffectsReport(run.id, step, node, base, end, |effects|, k + 1);
      } else {
        var value := outcome.result.value;
        IdsAppend(receipts, [EffectReceipt(id, value)]);
        assert Ids([EffectReceipt(id, value)]) == [id];
        EffectsAreNumbered(env, run, step, node,
                           ApplyAll(env.rule, candidate, env.receiptUpdates(value)).value,
                           ReserveAll(run.limits, usage, outcome.reservations),
                           receipts + [EffectReceipt(id, value)], base, effects, k + 1);
      }
    }
  }

  // ---- Counters and frozen states ----

  /** What later may differ from earlier in a run: the counters grow within their
      limits, and a state with an outcome keeps everything but its business value. */
  predicate Follows(limits: Limits, s1: Snapshot, u1: Usage, s2: Snapshot, u2: Usage) {
    && NoLess(u1, u2) && (WithinLimits(limits, u1) ==> WithinLimits(limits, u2))
    && (s1.outcome.Some? ==> FrozenSince(s1, s2))
  }

  lemma UpdatesFollow(rule: BusinessRule, s: Snapshot, us: seq<Update>)
    requires ApplyAll(rule, s, us).Ok?
    ensures s.outcome.Some? ==> FrozenSince(s, ApplyAll(rule, s, us).value)
  {
    if s.outcome.Some? {
      OutcomeFreezesState(rule, s, us);
    }
  }

  lemma {:induction false} CountersGrow(limits: Limits, usage: Usage, rs: seq<Reservation>)
    ensures NoLess(usage, ReserveAll(limits, usage, rs))
    ensures WithinLimits(limits, usage) ==> WithinLimits(limits, ReserveAll(limits, usage, rs))
    decreases |rs|
  {
    if rs != [] {
      match Reserve(limits, usage, rs[0])
      case Ok(next) => CountersGrow(limits, next, rs[1..]);
      case Err(_) => CountersGrow(limits, usage, rs[1..]);
    }
  }

  lemma {:induction false} EffectsFollow(env: Env, run: RunInfo, step: NonZeroU32, node: NodeId,
                                         candidate: Snapshot, usage: Usage, receipts: seq<EffectReceipt>,
                                         log: seq<EffectId>, effects: seq<Effect>, k: nat)
    requires k <= |effects|
    ensures var end := RunEffects(env, run, step, node, candidate, usage, receipts, log, effects, k);
            end.EffectsDone? ==> Follows(run.limits, candidate, usage, end.candidate, end.usage)
    decreases |effects| - k
  {
    if k < |effects| && k <= U32_MAX && env.executor.Some? {
      var id := EffectId(run.id, step, node, k);
      var outcome := env.executor.value(id, effects[k], View(run, usage));
      if outcome.result.Ok? {
        var value := outcome.result.value;
        var next := ApplyAll(env.rule, candidate, env.receiptUpdates(value));
        if next.Ok? {
          CountersGrow(run.limits, usage, outcome.reservations);
          UpdatesFollow(env.rule, candidate, env.receiptUpdates(value));
          EffectsFollow(env, run, step, node, next.value, ReserveAll(run.limits, usage, outcome.reservations),
                        receipts + [EffectReceipt(id, value)], log + [id], effects, k + 1);
        }
      }
    }
  }

  // ---- The invariant of every run ----

  predicate OnPath(g: CompiledGraph, visited: seq<NodeId>, current: NodeId) {
    && current in g.nodes
    && (visited == [] ==> current == g.entry)
    && (visited != [] ==>
          && visited[0] == g.entry && IsWalk(g.transitions, visited)
          && Edge(g.transitions, visited[|visited| - 1], current))
  }

  predicate OnCourse(g: CompiledGraph, run: RunInfo, c: Config) {
    && OnPath(g, c.visited, c.current)
    && |c.visited| == c.usage.steps <= StepLimit(run.limits, g.maxSteps)
    && WithinLimits(run.limits, c.usage)
    && c.log == Ids(c.receipts) && Trail(c.log, run.id, c.visited)
  }

  /** A completed run: a walk from the entry to an End node, with an outcome. */
  predicate AtItsEnd(g: CompiledGraph, run: RunInfo, c: Config) {
    && c.visited != [] && c.visited[0] == g.entry && IsWalk(g.transitions, c.visited)
    && c.current == c.visited[|c.visited| - 1]
    && c.current in g.transitions && g.transitions[c.current].End? && c.state.outcome.Some?
    && |c.visited| == c.usage.steps <= StepLimit(run.limits, g.maxSteps)
    && WithinLimits(run.limits, c.usage)
    && c.log == Ids(c.receipts) && Trail(c.log, run.id, c.visited)
  }

  /** And the receipts are the executor's answers to exactly what the visited nodes asked for. */
  ghost predicate Sound(env: Env, g: CompiledGraph, run: RunInfo, c: Config) {
    OnCourse(g, run, c) && Performed(env, g, run, c.visited, c.receipts)
  }

  ghost predicate EndedWell(env: Env, g: CompiledGraph, run: RunInfo, c: Config) {
    AtItsEnd(g, run, c) && Performed(env, g, run, c.visited, c.receipts)
  }

  /** The later configuration of one run continues the earlier one. */
  predicate Continues(run: RunInfo, a: Config, b: Config) {
    && Follows(run.limits, a.state, a.usage, b.state, b.usage)
    && a.visited <= b.visited && a.receipts <= b.receipts && a.log <= b.log
  }

  /** A failed iteration: its executor calls continue the run's trail, an effect
      failure names the call that failed and exactly the ordinals below it, and the
      two errors that compilation rules out do not occur. */
  ghost predicate FailedWell(g: CompiledGraph, run: RunInfo, c: Config, error: RunError, log: seq<EffectId>)
    requires c.usage.steps < U32_MAX
  {
    && !error.MissingNode? && !error.NoTransition?
    && c.log <= log && Trail(log, run.id, c.visited + [c.current])
    && (error.EffectFailed? ==>
          && error.node == c.current && error.id.ordinal == |error.completed|
          && error.id == EffectId(run.id, c.usage.steps + 1, c.current, error.id.ordinal)
          && error.completed == Block(run.id, c.usage.steps + 1, c.current, error.id.ordinal)
          && log == c.log + error.completed + [error.id])
  }

  predicate Tame(g: CompiledGraph, run: RunInfo) {
    WellFormed(g) && StepLimit(run.limits, g.maxSteps) < U32_MAX
  }

  ghost predicate StepOnCourse(g: CompiledGraph, run: RunInfo, c: Config, end: StepEnd) {
    match end
    case Advance(next) => OnCourse(g, run, next) && Continues(run, c, next) && next.visited == c.visited + [c.current]
    case Pause(next, _) => OnCourse(g, run, next) && Continues(run, c, next) && next.visited == c.visited + [c.current]
    case Finish(last) => AtItsEnd(g, run, last) && Continues(run, c, last)
    case Abort(error, log) => c.usage.steps < U32_MAX && FailedWell(g, run, c, error, log)
  }

  ghost predicate StepSound(env: Env, g: CompiledGraph, run: RunInfo, c: Config, end: StepEnd) {
    match end
    case Advance(next) => Sound(env, g, run, next) && Continues(run, c, next) && next.visited == c.visited + [c.current]
    case Pause(next, _) =>
      Sound(env, g, run, next) && Continues(run, c, next) && next.visited == c.visited + [c.current]
    case Finish(last) => EndedWell(env, g, run, last) && Continues(run, c, last)
    case Abort(error, log) => c.usage.steps < U32_MAX && FailedWell(g, run, c, error, log)
  }

  lemma WalkGrows(g: CompiledGraph, visited: seq<NodeId>, current: NodeId)
    requires OnPath(g, visited, current)
    ensures IsWalk(g.transitions, visited + [current]) && (visited + [current])[0] == g.entry
  {
    var w := visited + [current];
    forall i | 0 <= i < |w| - 1 ensures Edge(g.transitions, w[i], w[i + 1]) {
      if i < |visited| - 1 {
        assert Edge(g.transitions, visited[i], visited[i + 1]);
      }
    }
  }

  lemma NextIsAnEdge(env: Env, g: CompiledGraph, node: NodeId, state: Snapshot)
    requires WellFormed(g) && node in g.nodes
    ensures match NextOf(env, g.transitions[node], node, state)
            case Ok(Some(next)) => Edge(g.transitions, node, next) && next in g.nodes
            case Ok(None) => g.transitions[node].End? && state.outcome.Some?
            case Err(e) => e.NodeFailed? || e.UnknownRoute? || e.MissingOutcome?
  {
    var t := g.transitions[node];
    assert TransitionOk(g.nodes, t);
    if t.Branch? {
      var route := env.select(t.router.tag, state);
      if route.Ok? && route.value in t.targets {
        assert t.targets[route.value] in t.targets.Values;
      }
    }
  }

  /** A trail extended by the calls of one more node. */
  lemma ReportExtendsTrail(g: CompiledGraph, run: RunInfo, c: Config, end: EffectsEnd, total: nat, calls: nat)
    requires c.usage.steps == |c.visited| < U32_MAX && Trail(c.log, run.id, c.visited)
    requires EffectsReport(run.id, c.usage.steps + 1, c.current, c.log, end, total, calls)
    ensures match end
            case EffectsFailed(e, log) => FailedWell(g, run, c, e, log)
            case EffectsDone(_, _, receipts, log) =>
              log == c.log + Ids(receipts) && Trail(log, run.id, c.visited + [c.current])
  {
    TrailGrows(c.log, run.id, c.visited, c.current, calls);
    if calls > 0 {
      BlockGrows(run.id, c.usage.steps + 1, c.current, calls - 1);
    }
  }

  lemma NothingCalled(g: CompiledGraph, run: RunInfo, c: Config, e: RunError)
    requires c.usage.steps == |c.visited| < U32_MAX && Trail(c.log, run.id, c.visited)
    requires !e.MissingNode? && !e.NoTransition? && !e.EffectFailed?
    ensures FailedWell(g, run, c, e, c.log)
  {
    TrailGrows(c.log, run.id, c.visited, c.current, 0);
    assert c.log + Block(run.id, |c.visited| + 1, c.current, 0) == c.log;
  }

  lemma WorkCallsAreSound(env: Env, g: CompiledGraph, run: RunInfo, c: Config, usage: Usage,
                          updates: seq<Update>, effects: seq<Effect>, tokens: U64)
    requires usage.steps == c.usage.steps + 1 == |c.visited| + 1 <= U32_MAX && Trail(c.log, run.id, c.visited)
    ensures match Work(env, run, c, usage, updates, effects, tokens)
            case EffectsFailed(e, log) => FailedWell(g, run, c, e, log)
            case EffectsDone(_, _, receipts, log) =>
              log == c.log + Ids(receipts) && Trail(log, run.id, c.visited + [c.current])
  {
    var counted := Reserve(run.limits, usage, TokenCount(tokens));
    var candidate := ApplyAll(env.rule, c.state, updates);
    if counted.Ok? && candidate.Ok? {
      assert c.log + Block(run.id, usage.steps, c.current, 0) == c.log;
      assert Ids([]) == Block(run.id, usage.steps, c.current, 0);
      EffectsAreNumbered(env, run, usage.steps, c.current, candidate.value, counted.value, [], c.log, effects, 0);
      var end := Work(env, run, c, usage, updates, effects, tokens);
      var calls: nat :| EffectsReport(run.id, usage.steps, c.current, c.log, end, |effects|, calls);
      ReportExtendsTrail(g, run, c, end, |effects|, calls);
    } else {
      NothingCalled(g, run, c, Work(env, run, c, usage, updates, effects, tokens).error);
    }
  }

  lemma WorkFollows(env: Env, run: RunInfo, c: Config, usage: Usage,
                    updates: seq<Update>, effects: seq<Effect>, tokens: U64)
    requires 1 <= usage.steps && NoLess(c.usage, usage) && WithinLimits(run.limits, usage)
    ensures match Work(env, run, c, usage, updates, effects, tokens)
            case EffectsFailed(_, _) => true
            case EffectsDone(state, after, _, _) =>
              && after.steps == usage.steps && WithinLimits(run.limits, after)
              && Follows(run.limits, c.state, c.usage, state, after)
  {
    var counted := Reserve(run.limits, usage, TokenCount(tokens));
    var candidate := ApplyAll(env.rule, c.state, updates);
    if counted.Ok? && candidate.Ok? {
      EffectsFollow(env, run, usage.steps, c.current, candidate.value, counted.value, [], c.log, effects, 0);
      EffectsKeepSteps(env, run, usage.steps, c.current, candidate.value, counted.value, [], c.log, effects, 0);
      UpdatesFollow(env.rule, c.state, updates);
    }
  }

  lemma LeaveIsSound(env: Env, g: CompiledGraph, run: RunInfo, c: Config, state: Snapshot, after: Usage,
                     receipts: seq<EffectReceipt>, log: seq<EffectId>, request: Option<SuspendRequest>)
    requires Tame(g, run) && OnCourse(g, run, c)
    requires after.steps == c.usage.steps + 1 <= StepLimit(run.limits, g.maxSteps)
    requires WithinLimits(run.limits, after) && Follows(run.limits, c.state, c.usage, state, after)
    requires log == c.log + Ids(receipts) && Trail(log, run.id, c.visited + [c.current])
    ensures StepOnCourse(g, run, c,
                      Leave(Config(state, after, c.current, c.visited + [c.current], c.receipts + receipts, log),
                            NextOf(env, g.transitions[c.current], c.current, state), request))
  {
    IdsAppend(c.receipts, receipts);
    WalkGrows(g, c.visited, c.current);
    NextIsAnEdge(env, g, c.current, state);
  }

  ghost predicate ReceiptsPerformed(env: Env, g: CompiledGraph, run: RunInfo, end: StepEnd) {
    !end.Abort? ==> Performed(env, g, run, ConfigOf(end).visited, ConfigOf(end).receipts)
  }

  lemma StepPerforms(env: Env, g: CompiledGraph, run: RunInfo, checkpointing: bool, c: Config)
    requires Tame(g, run) && Sound(env, g, run, c)
    ensures ReceiptsPerformed(env, g, run, StepOnce(env, g, run, checkpointing, c))
  {
    StepIsExact(env, g, run, checkpointing, c);
    var end := StepOnce(env, g, run, checkpointing, c);
    if !end.Abort? {
      var next := ConfigOf(end);
      var more := next.receipts[|c.receipts|..];
      assert next.receipts == c.receipts + more;
      PerformedOneMore(env, g, run, c.visited, c.receipts, c.current, c.state, c.usage, more);
    }
  }

  lemma SettleIsSound(env: Env, g: CompiledGraph, run: RunInfo, c: Config, usage: Usage,
                      updates: seq<Update>, effects: seq<Effect>, tokens: U64, request: Option<SuspendRequest>)
    requires Tame(g, run) && OnCourse(g, run, c)
    requires usage.steps == c.usage.steps + 1 <= StepLimit(run.limits, g.maxSteps)
    requires NoLess(c.usage, usage) && WithinLimits(run.limits, usage)
    ensures StepOnCourse(g, run, c, Settle(env, g, run, c, usage, updates, effects, tokens, request))
  {
    WorkCallsAreSound(env, g, run, c, usage, updates, effects, tokens);
    WorkFollows(env, run, c, usage, updates, effects, tokens);
    match Work(env, run, c, usage, updates, effects, tokens)
    case EffectsFailed(_, _) =>
      NothingCalled(g, run, c, SuspendAtEnd(c.current));
    case EffectsDone(state, after, receipts, log) =>
      NothingCalled(g, run, c, SuspendAtEnd(c.current));
      LeaveIsSound(env, g, run, c, state, after, receipts, log, request);
  }

  lemma StepKeepsCourse(env: Env, g: CompiledGraph, run: RunInfo, checkpointing: bool, c: Config)
    requires Tame(g, run) && OnCourse(g, run, c)
    ensures StepOnCourse(g, run, c, StepOnce(env, g, run, checkpointing, c))
  {
    StartIsSound(env, g, run, c);
    match Start(env, g, run, c)
    case Err(e) => NothingCalled(g, run, c, e);
    case Ok((usage, Continue(updates, effects, tokens))) =>
      SettleIsSound(env, g, run, c, usage, updates, effects, tokens, None);
    case Ok((usage, Suspend(updates, effects, tokens, request))) =>
      NothingCalled(g, run, c, UnexpectedSuspend(c.current));
      SettleIsSound(env, g, run, c, usage, updates, effects, tokens, Some(request));
  }

  /** One iteration keeps the invariant, and reports faithfully when it fails. */
  lemma StepIsSound(env: Env, g: CompiledGraph, run: RunInfo, checkpointing: bool, c: Config)
    requires Tame(g, run) && Sound(env, g, run, c)
    ensures StepSound(env, g, run, c, StepOnce(env, g, run, checkpointing, c))
  {
    StepKeepsCourse(env, g, run, checkpointing, c);
    StepPerforms(env, g, run, checkpointing, c);
  }

  lemma StartIsSound(env: Env, g: CompiledGraph, run: RunInfo, c: Config)
    requires Tame(g, run) && OnCourse(g, run, c)
    ensures match Start(env, g, run, c)
            case Ok((usage, _)) =>
              && usage.steps == c.usage.steps + 1 <= StepLimit(run.limits, g.maxSteps)
              && NoLess(c.usage, usage) && WithinLimits(run.limits, usage)
            case Err(e) => !e.MissingNode? && !e.NoTransition? && !e.EffectFailed?
  {
    var grant := ReserveStep(run.limits, g.maxSteps, c.usage);
    if grant.Ok? {
      var outcome := env.run(Behaviour(g.nodes[c.current]), c.state, View(run, grant.value));
      NodeCallsStayWithinLimits(run.limits, grant.value, outcome.reservations);
    }
  }

  lemma ContinuesTransitive(run: RunInfo, a: Config, b: Config, c: Config)
    requires Continues(run, a, b) && Continues(run, b, c)
    ensures Continues(run, a, c)
  {
  }

  lemma StartOfRun(env: Env, g: CompiledGraph, run: RunInfo, state: Snapshot)
    requires WellFormed(g)
    ensures Sound(env, g, run, Config(state, NO_USAGE, g.entry, [], [], []))
  {
  }

  /** The configuration in which the last iteration of a run begins. */
  ghost function LastBefore(env: Env, g: CompiledGraph, run: RunInfo, checkpointing: bool, c: Config): Config
    requires StepLimit(run.limits, g.maxSteps) < U32_MAX
    decreases U32_MAX - c.usage.steps
  {
    StepUsesOneStep(env, g, run, checkpointing, c);
    match StepOnce(env, g, run, checkpointing, c)
    case Advance(next) => LastBefore(env, g, run, checkpointing, next)
    case _ => c
  }

  ghost predicate RunSound(env: Env, g: CompiledGraph, run: RunInfo, c: Config, last: Config, end: RunEnd) {
    && Sound(env, g, run, last) && Continues(run, c, last)
    && match end
       case RunCompleted(final) => EndedWell(env, g, run, final) && Continues(run, c, final)
       case RunPaused(paused, _) => Sound(env, g, run, paused) && Continues(run, c, paused)
       case RunAborted(error, log) => last.usage.steps < U32_MAX && FailedWell(g, run, last, error, log)
  }

  /** A whole uninterrupted stretch of a run. */
  lemma {:induction false} ExecuteIsSound(env: Env, g: CompiledGraph, run: RunInfo, checkpointing: bool, c: Config)
    requires Tame(g, run) && Sound(env, g, run, c)
    ensures RunSound(env, g, run, c, LastBefore(env, g, run, checkpointing, c), Execute(env, g, run, checkpointing, c))
    decreases U32_MAX - c.usage.steps
  {
    StepUsesOneStep(env, g, run, checkpointing, c);
    StepIsSound(env, g, run, checkpointing, c);
    var end := StepOnce(env, g, run, checkpointing, c);
    if end.Advance? {
      ExecuteIsSound(env, g, run, checkpointing, end.next);
      var last := LastBefore(env, g, run, checkpointing, end.next);
      ContinuesTransitive(run, c, end.next, last);
      match Execute(env, g, run, checkpointing, end.next)
      case RunCompleted(final) => ContinuesTransitive(run, c, end.next, final);
      case RunPaused(paused, _) => ContinuesTransitive(run, c, end.next, paused);
      case RunAborted(_, _) =>
    }
  }
}
