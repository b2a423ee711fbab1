// The interpreter of compiled graphs (agent-core/src/graph/runtime.rs).
//
// Nodes, routers and the effect executor are application code: Env holds them as
// functions of what the runtime shows them. Cancellation and the deadline are a
// schedule that says at which points of which step the run is stopped. The
// functions below are the meaning of a run; the methods of GraphRuntime compute it.
module Runtime {
  import opened Wrappers
  import opened Integers
  import opened AgentStates
  import opened Budgets
  import opened Graphs
  import opened Definitions
  import opened Checkpoints

  type Effect(==,!new)
  type ResumeInput(==,!new)

  datatype NodeErrorKind = Transient | Timeout | RateLimited | Permanent | Invariant | CancelledKind

  datatype NodeError = NodeError(kind: NodeErrorKind, message: string, budget: Option<BudgetError>)

  datatype EffectErrorKind = TransientEffect | PermanentEffect | EffectTimeout | UnknownCommit

  datatype EffectError = EffectError(kind: EffectErrorKind, message: string)

  datatype Verdict =
    | Continue(updates: seq<Update>, effects: seq<Effect>, tokens: U64)
    | Suspend(updates: seq<Update>, effects: seq<Effect>, tokens: U64, request: SuspendRequest)
    | Failure(error: NodeError)

  /** What a node did: the calls it made on the budget handle, then its verdict. */
  datatype NodeRun = NodeRun(reservations: seq<Reservation>, verdict: Verdict)

  datatype EffectRun = EffectRun(reservations: seq<Reservation>, result: Result<Receipt, EffectError>)

  /** The part of a run that never changes. */
  datatype RunInfo = RunInfo(id: RunId, limits: Limits)

  /** What the run context shows to a node or to the executor. */
  datatype View = View(run: RunInfo, usage: Usage)

  datatype Interrupt = Cancel | Deadline

  /** Where a run looks for cancellation and the deadline. */
  datatype Point = AtStart | InNode | BeforeEffect(k: nat) | InEffect(k: nat)

  datatype Env = Env(
    rule: BusinessRule,
    run: (int, Snapshot, View) -> NodeRun,
    select: (int, Snapshot) -> Result<RouteKey, NodeError>,
    executor: Option<(EffectId, Effect, View) -> EffectRun>,
    receiptUpdates: Receipt -> seq<Update>,
    resumeUpdates: ResumeInput -> seq<Update>,
    schemaVersion: nat,
    interrupt: (nat, Point) -> Option<Interrupt>)

  datatype RunError =
    | Cancelled
    | DeadlineExceeded
    | OverBudget(budget: BudgetError)
    | MissingNode(node: NodeId)
    | NodeFailed(node: NodeId, failure: NodeError)
    | UnexpectedSuspend(node: NodeId)
    | NoTransition(node: NodeId)
    | SuspendAtEnd(node: NodeId)
    | StateUpdateFailed(node: NodeId, state: StateError)
    | MissingEffectExecutor(node: NodeId)
    | EffectFailed(node: NodeId, id: EffectId, completed: seq<EffectId>, effect: EffectError)
    | PostEffectStateUpdateFailed(node: NodeId, id: EffectId, state: StateError)
    | UnknownRoute(node: NodeId, route: RouteKey)
    | MissingOutcome

  datatype CheckpointRunError =
    | Graph(error: RunError)
    | MissingStore
    | SaveFailed(id: CheckpointId, checkpoint: Checkpoint, source: CheckpointError)

  datatype RunResult = RunResult(
    state: Snapshot, usage: Usage, visited: seq<NodeId>, runId: RunId, receipts: seq<EffectReceipt>)

  datatype ExecutionResult = Completed(result: RunResult) | Suspended(checkpoint: Checkpoint)

  datatype ResumeError =
    | CheckpointLoad(source: CheckpointError)
    | GraphIdMismatch(expected: string, actual: string)
    | GraphVersionMismatch(expectedVersion: NonZeroU32, actualVersion: NonZeroU32)
    | StateSchemaVersionMismatch(expectedSchema: nat, actualSchema: nat)
    | RunPositionMismatch(completedStep: U32, usageSteps: U32)
    | ResumeAtMissingNode(node: NodeId)
    | ResumeInputRejected(state: StateError)
    | CheckpointAlreadyConsumed(id: CheckpointId)
    | RunFailed(failure: CheckpointRunError)

  const UNKNOWN_COMMIT := EffectError(UnknownCommit, "interrupted while the effect was executing")
  const TOO_MANY_EFFECTS := NodeError(Invariant, "more effects than an ordinal can count", None)

  function Stopped(i: Interrupt): RunError {
    match i
    case Cancel => Cancelled
    case Deadline => DeadlineExceeded
  }

  function FromNode(node: NodeId, e: NodeError): RunError {
    if e.budget.Some? then OverBudget(e.budget.value)
    else if e.kind == CancelledKind then Cancelled
    else NodeFailed(node, e)
  }

  function Ids(receipts: seq<EffectReceipt>): seq<EffectId> {
    seq(|receipts|, i requires 0 <= i < |receipts| => receipts[i].id)
  }

  // ---- The meaning of a run ----

  /** Between two iterations: the node about to run, and the executor calls so far. */
  datatype Config = Config(
    state: Snapshot,
    usage: Usage,
    current: NodeId,
    visited: seq<NodeId>,
    receipts: seq<EffectReceipt>,
    log: seq<EffectId>)

  datatype EffectsEnd =
    | EffectsDone(candidate: Snapshot, usage: Usage, receipts: seq<EffectReceipt>, log: seq<EffectId>)
    | EffectsFailed(error: RunError, log: seq<EffectId>)

  /** A node's effects from ordinal k on; receipts are those of its earlier ones. */
  function RunEffects(env: Env, run: RunInfo, step: NonZeroU32, node: NodeId, candidate: Snapshot, usage: Usage,
                      receipts: seq<EffectReceipt>, log: seq<EffectId>, effects: seq<Effect>, k: nat): EffectsEnd
    requires k <= |effects|
    decreases |effects| - k
  {
    if k == |effects| then EffectsDone(candidate, usage, receipts, log)
    else if k > U32_MAX then EffectsFailed(NodeFailed(node, TOO_MANY_EFFECTS), log)
    else if env.executor.None? then EffectsFailed(MissingEffectExecutor(node), log)
    else
      var id := EffectId(run.id, step, node, k);
      match env.interrupt(step, BeforeEffect(k))
      case Some(i) => EffectsFailed(Stopped(i), log)
      case None =>
        match env.interrupt(step, InEffect(k))
        case Some(_) => EffectsFailed(EffectFailed(node, id, Ids(receipts), UNKNOWN_COMMIT), log + [id])
        case None =>
          var outcome := env.executor.value(id, effects[k], View(run, usage));
          match outcome.result
          case Err(e) => EffectsFailed(EffectFailed(node, id, Ids(receipts), e), log + [id])
          case Ok(value) =>
            match ApplyAll(env.rule, candidate, env.receiptUpdates(value))
            case Err(e) => EffectsFailed(PostEffectStateUpdateFailed(node, id, e), log + [id])
            case Ok(next) =>
              RunEffects(env, run, step, node, next, ReserveAll(run.limits, usage, outcome.reservations),
                         receipts + [EffectReceipt(id, value)], log + [id], effects, k + 1)
  }

  datatype StepEnd =
    | Advance(next: Config)
    | Finish(last: Config)
    | Pause(paused: Config, request: SuspendRequest)
    | Abort(error: RunError, log: seq<EffectId>)

  /** The next node, chosen from the committed state; None at an End. */
  function NextOf(env: Env, t: Transition, node: NodeId, state: Snapshot): Result<Option<NodeId>, RunError> {
    match t
    case Goto(target) => Ok(Some(target))
    case Branch(router, targets) =>
      (match env.select(router.tag, state)
       case Err(e) => Err(NodeFailed(node, e))
       case Ok(route) => if route in targets then Ok(Some(targets[route])) else Err(UnknownRoute(node, route)))
    case End => if state.outcome.None? then Err(MissingOutcome) else Ok(None)
  }

  function Leave(c: Config, next: Result<Option<NodeId>, RunError>, request: Option<SuspendRequest>): StepEnd {
    match next
    case Err(e) => Abort(e, c.log)
    case Ok(None) => Finish(c)
    case Ok(Some(node)) =>
      if request.Some? then Pause(c.(current := node), request.value) else Advance(c.(current := node))
  }

  /** A node's tokens, updates and effects, committed together or not at all; usage
      holds the counters once the node has returned. */
  function Work(env: Env, run: RunInfo, c: Config, usage: Usage,
                updates: seq<Update>, effects: seq<Effect>, tokens: U64): EffectsEnd
    requires 1 <= usage.steps
  {
    match Reserve(run.limits, usage, TokenCount(tokens))
    case Err(e) => EffectsFailed(OverBudget(e), c.log)
    case Ok(counted) =>
      match ApplyAll(env.rule, c.state, updates)
      case Err(e) => EffectsFailed(StateUpdateFailed(c.current, e), c.log)
      case Ok(candidate) =>
        RunEffects(env, run, counted.steps, c.current, candidate, counted, [], c.log, effects, 0)
  }

  /** Everything after the node returned. */
  function Settle(env: Env, g: CompiledGraph, run: RunInfo, c: Config, usage: Usage,
                  updates: seq<Update>, effects: seq<Effect>, tokens: U64, request: Option<SuspendRequest>): StepEnd
    requires 1 <= usage.steps
  {
    if c.current !in g.transitions then Abort(NoTransition(c.current), c.log)
    else if request.Some? && g.transitions[c.current].End? then Abort(SuspendAtEnd(c.current), c.log)
    else match Work(env, run, c, usage, updates, effects, tokens)
      case EffectsFailed(e, log) => Abort(e, log)
      case EffectsDone(state, after, receipts, log) =>
        Leave(Config(state, after, c.current, c.visited + [c.current], c.receipts + receipts, log),
              NextOf(env, g.transitions[c.current], c.current, state), request)
  }

  lemma {:induction false} ReservationsKeepSteps(limits: Limits, usage: Usage, rs: seq<Reservation>)
    ensures ReserveAll(limits, usage, rs).steps == usage.steps
    decreases |rs|
  {
    if rs != [] {
      match Reserve(limits, usage, rs[0]) {
        case Ok(next) => ReservationsKeepSteps(limits, next, rs[1..]);
        case Err(_) => ReservationsKeepSteps(limits, usage, rs[1..]);
      }
    }
  }

  /** The readiness check and the step grant, then the node itself: the counters
      once it has returned, and its verdict. */
  function Start(env: Env, g: CompiledGraph, run: RunInfo, c: Config): (r: Result<(Usage, Verdict), RunError>)
    ensures r.Ok? ==> c.current in g.nodes && !r.value.1.Failure?
    ensures r.Ok? ==> 1 <= r.value.0.steps == SaturatingNext(c.usage.steps) <= StepLimit(run.limits, g.maxSteps)
  {
    match env.interrupt(c.usage.steps + 1, AtStart)
    case Some(i) => Err(Stopped(i))
    case None =>
      match ReserveStep(run.limits, g.maxSteps, c.usage)
      case Err(e) => Err(OverBudget(e))
      case Ok(granted) =>
        if c.current !in g.nodes then Err(MissingNode(c.current))
        else match env.interrupt(granted.steps, InNode)
          case Some(i) => Err(Stopped(i))
          case None =>
            var outcome := env.run(Behaviour(g.nodes[c.current]), c.state, View(run, granted));
            ReservationsKeepSteps(run.limits, granted, outcome.reservations);
            if outcome.verdict.Failure? then Err(FromNode(c.current, outcome.verdict.error))
            else Ok((ReserveAll(run.limits, granted, outcome.reservations), outcome.verdict))
  }

  /** One iteration of the run loop. */
  function StepOnce(env: Env, g: CompiledGraph, run: RunInfo, checkpointing: bool, c: Config): StepEnd {
    match Start(env, g, run, c)
    case Err(e) => Abort(e, c.log)
    case Ok((usage, Continue(updates, effects, tokens))) =>
      Settle(env, g, run, c, usage, updates, effects, tokens, None)
    case Ok((usage, Suspend(updates, effects, tokens, request))) =>
      if !checkpointing then Abort(UnexpectedSuspend(c.current), c.log)
      else Settle(env, g, run, c, usage, updates, effects, tokens, Some(request))
  }

  lemma {:induction false} EffectsKeepSteps(env: Env, run: RunInfo, step: NonZeroU32, node: NodeId,
                                            candidate: Snapshot, usage: Usage, receipts: seq<EffectReceipt>,
                                            log: seq<EffectId>, effects: seq<Effect>, k: nat)
    requires k <= |effects|
    ensures var end := RunEffects(env, run, step, node, candidate, usage, receipts, log, effects, k);
            end.EffectsDone? ==> end.usage.steps == usage.steps
    decreases |effects| - k
  {
    if k < |effects| && k <= U32_MAX && env.executor.Some? {
      var id := EffectId(run.id, step, node, k);
      var outcome := env.executor.value(id, effects[k], View(run, usage));
      if outcome.result.Ok? {
        var value := outcome.result.value;
        var next := ApplyAll(env.rule, candidate, env.receiptUpdates(value));
        if next.Ok? {
          ReservationsKeepSteps(run.limits, usage, outcome.reservations);
          EffectsKeepSteps(env, run, step, node, next.value, ReserveAll(run.limits, usage, outcome.reservations),
                           receipts + [EffectReceipt(id, value)], log + [id], effects, k + 1);
        }
      }
    }
  }

  function ConfigOf(end: StepEnd): Config
    requires !end.Abort?
  {
    match end
    case Advance(c) => c
    case Finish(c) => c
    case Pause(c, _) => c
  }

  lemma SettleKeepsSteps(env: Env, g: CompiledGraph, run: RunInfo, c: Config, usage: Usage,
                         updates: seq<Update>, effects: seq<Effect>, tokens: U64, request: Option<SuspendRequest>)
    requires 1 <= usage.steps
    ensures var end := Settle(env, g, run, c, usage, updates, effects, tokens, request);
            !end.Abort? ==> ConfigOf(end).usage.steps == usage.steps
  {
    var counted := Reserve(run.limits, usage, TokenCount(tokens));
    var candidate := ApplyAll(env.rule, c.state, updates);
    if counted.Ok? && candidate.Ok? {
      EffectsKeepSteps(env, run, counted.value.steps, c.current, candidate.value, counted.value, [], c.log, effects, 0);
    }
  }

  /** Every iteration that does not stop the run uses up one step of the limit. */
  lemma StepUsesOneStep(env: Env, g: CompiledGraph, run: RunInfo, checkpointing: bool, c: Config)
    requires StepLimit(run.limits, g.maxSteps) < U32_MAX
    ensures var end := StepOnce(env, g, run, checkpointing, c);
            !end.Abort? ==> c.usage.steps < ConfigOf(end).usage.steps == c.usage.steps + 1
                            <= StepLimit(run.limits, g.maxSteps)
  {
    match Start(env, g, run, c)
    case Err(_) =>
    case Ok((usage, Continue(updates, effects, tokens))) =>
      SettleKeepsSteps(env, g, run, c, usage, updates, effects, tokens, None);
    case Ok((usage, Suspend(updates, effects, tokens, request))) =>
      SettleKeepsSteps(env, g, run, c, usage, updates, effects, tokens, Some(request));
  }

  datatype RunEnd =
    | RunCompleted(final: Config)
    | RunPaused(paused: Config, request: SuspendRequest)
    | RunAborted(error: RunError, log: seq<EffectId>)

  /** The whole loop. It ends, because the step counter climbs to a limit below the
      largest 32-bit number. */
  function Execute(env: Env, g: CompiledGraph, run: RunInfo, checkpointing: bool, c: Config): RunEnd
    requires StepLimit(run.limits, g.maxSteps) < U32_MAX
    decreases U32_MAX - c.usage.steps
  {
    StepUsesOneStep(env, g, run, checkpointing, c);
    match StepOnce(env, g, run, checkpointing, c)
    case Advance(next) => Execute(env, g, run, checkpointing, next)
    case Finish(last) => RunCompleted(last)
    case Pause(paused, request) => RunPaused(paused, request)
    case Abort(error, log) => RunAborted(error, log)
  }

  function CheckpointOf(id: CheckpointId, env: Env, g: CompiledGraph, run: RunInfo, c: Config,
                        request: SuspendRequest): Checkpoint
    requires 1 <= c.usage.steps
  {
    Checkpoint(id, g.id, g.version, env.schemaVersion, run.id, c.usage.steps, c.current, c.state,
               run.limits, c.usage, c.visited, c.receipts, request)
  }

  function Deposit(store: Option<Store>, checkpoint: Checkpoint)
    : (Option<Store>, Result<ExecutionResult, CheckpointRunError>)
  {
    if store.None? then (store, Err(MissingStore))
    else match Serve(store.value, SaveCall(checkpoint))
      case (after, Refused(error)) => (Some(after), Err(SaveFailed(checkpoint.id, checkpoint, error)))
      case (after, _) => (Some(after), Ok(Suspended(checkpoint)))
  }

  predicate PauseIsStepped(end: RunEnd) {
    end.RunPaused? ==> 1 <= end.paused.usage.steps
  }

  function LogOf(end: RunEnd): seq<EffectId> {
    match end
    case RunCompleted(c) => c.log
    case RunPaused(c, _) => c.log
    case RunAborted(_, log) => log
  }

  /** The calls that take one log to a later one. */
  function NewCalls(before: seq<EffectId>, after: seq<EffectId>): seq<EffectId> {
    if |before| <= |after| then after[|before|..] else []
  }

  /** How a run that ended leaves the store, and what its caller gets. */
  function Conclude(env: Env, g: CompiledGraph, run: RunInfo, store: Option<Store>, newId: CheckpointId, end: RunEnd)
    : (Option<Store>, Result<ExecutionResult, CheckpointRunError>)
    requires PauseIsStepped(end)
  {
    match end
    case RunAborted(error, _) => (store, Err(Graph(error)))
    case RunCompleted(c) => (store, Ok(Completed(RunResult(c.state, c.usage, c.visited, run.id, c.receipts))))
    case RunPaused(c, request) => Deposit(store, CheckpointOf(newId, env, g, run, c, request))
  }

  lemma {:induction false} PausedAfterAStep(env: Env, g: CompiledGraph, run: RunInfo, checkpointing: bool, c: Config)
    requires StepLimit(run.limits, g.maxSteps) < U32_MAX
    ensures PauseIsStepped(Execute(env, g, run, checkpointing, c))
    decreases U32_MAX - c.usage.steps
  {
    StepUsesOneStep(env, g, run, checkpointing, c);
    var end := StepOnce(env, g, run, checkpointing, c);
    if end.Advance? {
      PausedAfterAStep(env, g, run, checkpointing, end.next);
    }
  }

  lemma {:induction false} NeverPausesUnchecked(env: Env, g: CompiledGraph, run: RunInfo, c: Config)
    requires StepLimit(run.limits, g.maxSteps) < U32_MAX
    ensures !Execute(env, g, run, false, c).RunPaused?
    decreases U32_MAX - c.usage.steps
  {
    StepUsesOneStep(env, g, run, false, c);
    var end := StepOnce(env, g, run, false, c);
    if end.Advance? {
      NeverPausesUnchecked(env, g, run, end.next);
    }
  }

  /** A resume request checked against the checkpoint it loaded: the configuration
      to continue from, or the first check that fails. */
  function Admit(env: Env, g: CompiledGraph, checkpoint: Checkpoint, input: ResumeInput): Result<Config, ResumeError> {
    if checkpoint.graphId != g.id then Err(GraphIdMismatch(g.id, checkpoint.graphId))
    else if checkpoint.graphVersion != g.version then Err(GraphVersionMismatch(g.version, checkpoint.graphVersion))
    else if checkpoint.schemaVersion != env.schemaVersion then
      Err(StateSchemaVersionMismatch(env.schemaVersion, checkpoint.schemaVersion))
    else if checkpoint.completedStep != checkpoint.usage.steps then
      Err(RunPositionMismatch(checkpoint.completedStep, checkpoint.usage.steps))
    else if checkpoint.nextNode !in g.nodes then Err(ResumeAtMissingNode(checkpoint.nextNode))
    else match ApplyAll(env.rule, checkpoint.state, env.resumeUpdates(input))
      case Err(e) => Err(ResumeInputRejected(e))
      case Ok(state) =>
        Ok(Config(state, checkpoint.usage, checkpoint.nextNode, checkpoint.visited, checkpoint.receipts,
                  Ids(checkpoint.receipts)))
  }

  function RunOf(checkpoint: Checkpoint): RunInfo {
    RunInfo(checkpoint.runId, checkpoint.limits)
  }

  /** A resume that nobody else's resume runs into. */
  function ResumeAlone(env: Env, g: CompiledGraph, store: Store, id: CheckpointId, input: ResumeInput,
                       newId: CheckpointId): (Store, Result<ExecutionResult, ResumeError>)
    requires id in store.live ==> StepLimit(store.live[id].limits, g.maxSteps) < U32_MAX
  {
    if id !in store.live then (store, Err(CheckpointLoad(NotFound(id))))
    else
      var checkpoint := store.live[id];
      match Admit(env, g, checkpoint, input)
      case Err(e) => (store, Err(e))
      case Ok(c) =>
        PausedAfterAStep(env, g, RunOf(checkpoint), true, c);
        var (after, r) := Conclude(env, g, RunOf(checkpoint), Some(Serve(store, TakeCall(id)).0), newId,
                                   Execute(env, g, RunOf(checkpoint), true, c));
        (if after.Some? then after.value else store, if r.Ok? then Ok(r.value) else Err(RunFailed(r.error)))
  }

  /** The executor calls of a run whose resume was let in, earlier ones included. */
  function ResumeLog(env: Env, g: CompiledGraph, store: Store, id: CheckpointId, input: ResumeInput): seq<EffectId>
    requires id in store.live ==> StepLimit(store.live[id].limits, g.maxSteps) < U32_MAX
  {
    if id !in store.live then []
    else
      var checkpoint := store.live[id];
      match Admit(env, g, checkpoint, input)
      case Err(_) => []
      case Ok(c) => LogOf(Execute(env, g, RunOf(checkpoint), true, c))
  }

  // ---- The runtime itself ----

  class GraphRuntime {
    const env: Env
    const graph: CompiledGraph
    const store: Option<InMemoryCheckpointStore>

    constructor New(env: Env, graph: CompiledGraph, store: Option<InMemoryCheckpointStore>)
      ensures this.env == env && this.graph == graph && this.store == store
    {
      this.env, this.graph, this.store := env, graph, store;
    }

    ghost function Stores(): set<object> {
      if store.Some? then {store.value} else {}
    }

    function StoreValue(): Option<Store>
      reads Stores()
    {
      if store.Some? then Some(store.value.Value()) else None
    }

    /** The effect loop of one node: updates the candidate state and the counters. */
    method PerformEffects(run: RunInfo, step: NonZeroU32, node: NodeId, candidate: AgentState,
                          budget: RunBudgetHandle, effects: seq<Effect>, ghost before: seq<EffectId>)
      returns (r: Result<seq<EffectReceipt>, RunError>, ghost log: seq<EffectId>)
      requires budget.limits == run.limits
      modifies candidate, budget`usage
      ensures match RunEffects(env, run, step, node, old(candidate.Value()), old(budget.usage), [], before, effects, 0)
              case EffectsFailed(error, calls) => r == Err(error) && log == calls
              case EffectsDone(state, usage, receipts, calls) =>
                r == Ok(receipts) && log == calls && candidate.Value() == state && budget.usage == usage
    {
      var receipts: seq<EffectReceipt>, completed: seq<EffectId> := [], [];
      log := before;
      var k := 0;
      while k < |effects|
        invariant 0 <= k <= |effects| && completed == Ids(receipts)
        invariant RunEffects(env, run, step, node, candidate.Value(), budget.usage, receipts, log, effects, k)
                  == RunEffects(env, run, step, node, old(candidate.Value()), old(budget.usage), [], before, effects, 0)
      {
        if k > U32_MAX {
          return Err(NodeFailed(node, TOO_MANY_EFFECTS)), log;
        }
        var id := EffectId(run.id, step, node, k);
        if env.executor.None? {
          return Err(MissingEffectExecutor(node)), log;
        }
        var stop := env.interrupt(step, BeforeEffect(k));
        if stop.Some? {
          return Err(Stopped(stop.value)), log;
        }
        log := log + [id];
        if env.interrupt(step, InEffect(k)).Some? {
          return Err(EffectFailed(node, id, completed, UNKNOWN_COMMIT)), log;
        }
        var outcome := env.executor.value(id, effects[k], View(run, budget.usage));
        budget.ReserveInOrder(outcome.reservations);
        if outcome.result.Err? {
          return Err(EffectFailed(node, id, completed, outcome.result.error)), log;
        }
        var value := outcome.result.value;
        var rejection := candidate.ApplyUpdates(env.rule, env.receiptUpdates(value));
        if rejection.Some? {
          return Err(PostEffectStateUpdateFailed(node, id, rejection.value)), log;
        }
        completed := completed + [id];
        receipts := receipts + [EffectReceipt(id, value)];
        k := k + 1;
      }
      r := Ok(receipts);
    }

    method StartNode(run: RunInfo, state: AgentState, current: NodeId, budget: RunBudgetHandle, ghost c: Config)
      returns (r: Result<Verdict, RunError>)
      requires budget.limits == run.limits
      requires c.state == state.Value() && c.current == current && c.usage == budget.usage
      modifies budget`usage
      ensures match Start(env, graph, run, c)
              case Err(e) => r == Err(e)
              case Ok((usage, verdict)) => r == Ok(verdict) && budget.usage == usage
    {
      var stop := env.interrupt(budget.usage.steps + 1, AtStart);
      if stop.Some? {
        return Err(Stopped(stop.value));
      }
      var grant := budget.ReserveRunStep(graph.maxSteps);
      if grant.Err? {
        return Err(OverBudget(grant.error));
      }
      if current !in graph.nodes {
        return Err(MissingNode(current));
      }
      stop := env.interrupt(grant.value, InNode);
      if stop.Some? {
        return Err(Stopped(stop.value));
      }
      var outcome := env.run(Behaviour(graph.nodes[current]), state.Value(), View(run, budget.usage));
      budget.ReserveInOrder(outcome.reservations);
      if outcome.verdict.Failure? {
        return Err(FromNode(current, outcome.verdict.error));
      }
      return Ok(outcome.verdict);
    }

    /** Works on a copy of the state, which the caller keeps only on success. */
    method CommitNode(run: RunInfo, state: AgentState, current: NodeId, budget: RunBudgetHandle,
                      updates: seq<Update>, effects: seq<Effect>, tokens: U64, ghost c: Config)
      returns (r: Result<seq<EffectReceipt>, RunError>, candidate: AgentState, ghost log: seq<EffectId>)
      requires budget.limits == run.limits && 1 <= budget.usage.steps
      requires c.state == state.Value() && c.current == current
      modifies budget`usage
      ensures fresh(candidate)
      ensures match Work(env, run, c, old(budget.usage), updates, effects, tokens)
              case EffectsFailed(e, calls) => r == Err(e) && log == calls
              case EffectsDone(value, usage, receipts, calls) =>
                r == Ok(receipts) && log == calls && candidate.Value() == value && budget.usage == usage
    {
      log := c.log;
      candidate := new AgentState.Clone(state.Value());
      var over := budget.RecordTokens(tokens);
      if over.Some? {
        return Err(OverBudget(over.value)), candidate, log;
      }
      var rejection := candidate.ApplyUpdates(env.rule, updates);
      if rejection.Some? {
        return Err(StateUpdateFailed(current, rejection.value)), candidate, log;
      }
      r, log := PerformEffects(run, budget.usage.steps, current, candidate, budget, effects, log);
    }

    method ChooseNext(transition: Transition, current: NodeId, state: AgentState)
      returns (r: Result<Option<NodeId>, RunError>)
      ensures r == NextOf(env, transition, current, state.Value())
    {
      match transition {
        case Goto(target) => return Ok(Some(target));
        case Branch(router, targets) =>
          var route := env.select(router.tag, state.Value());
          if route.Err? {
            return Err(NodeFailed(current, route.error));
          }
          if route.value !in targets {
            return Err(UnknownRoute(current, route.value));
          }
          return Ok(Some(targets[route.value]));
        case End =>
          if state.outcome.None? {
            return Err(MissingOutcome);
          }
          return Ok(None);
      }
    }

    method SaveCheckpoint(checkpoint: Checkpoint) returns (r: Result<ExecutionResult, CheckpointRunError>)
      modifies Stores()
      ensures (StoreValue(), r) == Deposit(old(StoreValue()), checkpoint)
    {
      if store.None? {
        return Err(MissingStore);
      }
      var failed := store.value.Save(checkpoint);
      if failed.Some? {
        return Err(SaveFailed(checkpoint.id, checkpoint, failed.value));
      }
      return Ok(Suspended(checkpoint));
    }

    /** The run loop: a run's result, its checkpoint in the store if it suspended,
        and the executor calls it made. */
    method ExecuteFrom(run: RunInfo, initial: AgentState, budget: RunBudgetHandle, start: NodeId,
                       before: seq<NodeId>, earlier: seq<EffectReceipt>, checkpointing: bool, newId: CheckpointId)
      returns (r: Result<ExecutionResult, CheckpointRunError>, ghost log: seq<EffectId>)
      requires budget.limits == run.limits && StepLimit(run.limits, graph.maxSteps) < U32_MAX
      modifies budget`usage, Stores()
      ensures var end := Execute(env, graph, run, checkpointing,
                                 Config(old(initial.Value()), old(budget.usage), start, before, earlier, Ids(earlier)));
              && PauseIsStepped(end)
              && (StoreValue(), r) == Conclude(env, graph, run, old(StoreValue()), newId, end)
              && log == LogOf(end)
    {
      var state, current, visited, receipts := initial, start, before, earlier;
      log := Ids(earlier);
      ghost var begin := Config(initial.Value(), budget.usage, start, before, earlier, Ids(earlier));
      PausedAfterAStep(env, graph, run, checkpointing, begin);
      while true
        invariant state !in Stores()
        invariant StoreValue() == old(StoreValue())
        invariant Execute(env, graph, run, checkpointing,
                          Config(state.Value(), budget.usage, current, visited, receipts, log))
                  == Execute(env, graph, run, checkpointing, begin)
        decreases U32_MAX - budget.usage.steps
      {
        ghost var c := Config(state.Value(), budget.usage, current, visited, receipts, log);
        StepUsesOneStep(env, graph, run, checkpointing, c);
        var verdict := StartNode(run, state, current, budget, c);
        if verdict.Err? {
          return Err(Graph(verdict.error)), log;
        }
        var request := if verdict.value.Suspend? then Some(verdict.value.request) else None;
        if request.Some? && !checkpointing {
          return Err(Graph(UnexpectedSuspend(current))), log;
        }
        if current !in graph.transitions {
          return Err(Graph(NoTransition(current))), log;
        }
        var transition := graph.transitions[current];
        if request.Some? && transition.End? {
          return Err(Graph(SuspendAtEnd(current))), log;
        }
        var work, candidate;
        work, candidate, log := CommitNode(run, state, current, budget, verdict.value.updates,
                                           verdict.value.effects, verdict.value.tokens, c);
        if work.Err? {
          return Err(Graph(work.error)), log;
        }
        state := candidate;
        receipts := receipts + work.value;
        visited := visited + [current];
        var next := ChooseNext(transition, current, state);
        if next.Err? {
          return Err(Graph(next.error)), log;
        }
        if next.value.None? {
          return Ok(Completed(RunResult(state.Value(), budget.usage, visited, run.id, receipts))), log;
        }
        current := next.value.value;
        if request.Some? {
          r := SaveCheckpoint(Checkpoint(newId, graph.id, graph.version, env.schemaVersion, run.id,
                                         budget.usage.steps, current, state.Value(), budget.limits, budget.usage,
                                         visited, receipts, request.value));
          return r, log;
        }
      }
    }

    /** A run that may not suspend; the three arms marked unreachable in Rust are. */
    method RunWithContext(run: RunInfo, state: AgentState, budget: RunBudgetHandle, newId: CheckpointId)
      returns (r: Result<RunResult, RunError>, ghost log: seq<EffectId>)
      requires budget.limits == run.limits && StepLimit(run.limits, graph.maxSteps) < U32_MAX
      modifies budget`usage, Stores()
      ensures StoreValue() == old(StoreValue())
      ensures match Execute(env, graph, run, false,
                            Config(old(state.Value()), old(budget.usage), graph.entry, [], [], []))
              case RunCompleted(c) =>
                r == Ok(RunResult(c.state, c.usage, c.visited, run.id, c.receipts)) && log == c.log
              case RunAborted(error, calls) => r == Err(error) && log == calls
              case RunPaused(_, _) => false
    {
      assert Ids([]) == [];
      NeverPausesUnchecked(env, graph, run, Config(state.Value(), budget.usage, graph.entry, [], [], []));
      var outcome;
      outcome, log := ExecuteFrom(run, state, budget, graph.entry, [], [], false, newId);
      match outcome {
        case Ok(Completed(result)) => return Ok(result), log;
        case Err(Graph(error)) => return Err(error), log;
        case _ => assert false;
      }
    }

    method RunCheckpointed(run: RunInfo, state: AgentState, budget: RunBudgetHandle, newId: CheckpointId)
      returns (r: Result<ExecutionResult, CheckpointRunError>, ghost log: seq<EffectId>)
      requires budget.limits == run.limits && StepLimit(run.limits, graph.maxSteps) < U32_MAX
      modifies budget`usage, Stores()
      ensures store.None? ==> r == Err(MissingStore) && log == []
      ensures store.Some? ==>
                var end := Execute(env, graph, run, true,
                                   Config(old(state.Value()), old(budget.usage), graph.entry, [], [], []));
                && PauseIsStepped(end)
                && (StoreValue(), r) == Conclude(env, graph, run, old(StoreValue()), newId, end)
                && log == LogOf(end)
    {
      if store.None? {
        return Err(MissingStore), [];
      }
      assert Ids([]) == [];
      r, log := ExecuteFrom(run, state, budget, graph.entry, [], [], true, newId);
    }

    method Resume(id: CheckpointId, input: ResumeInput, newId: CheckpointId)
      returns (r: Result<ExecutionResult, ResumeError>, ghost log: seq<EffectId>)
      requires store.Some? && id in store.value.checkpoints ==>
                 StepLimit(store.value.checkpoints[id].limits, graph.maxSteps) < U32_MAX
      modifies Stores()
      ensures store.None? ==> r == Err(RunFailed(MissingStore))
      ensures store.Some? ==>
                (StoreValue(), r)
                == var (after, result) := ResumeAlone(env, graph, old(store.value.Value()), id, input, newId);
                   (Some(after), result)
      ensures log == if store.None? then [] else ResumeLog(env, graph, old(store.value.Value()), id, input)
    {
      log := [];
      if store.None? {
        return Err(RunFailed(MissingStore)), log;
      }
      var loaded := store.value.Load(id);
      if loaded.Err? {
        return Err(CheckpointLoad(loaded.error)), log;
      }
      var checkpoint := loaded.value;
      if checkpoint.graphId != graph.id {
        return Err(GraphIdMismatch(graph.id, checkpoint.graphId)), log;
      }
      if checkpoint.graphVersion != graph.version {
        return Err(GraphVersionMismatch(graph.version, checkpoint.graphVersion)), log;
      }
      if checkpoint.schemaVersion != env.schemaVersion {
        return Err(StateSchemaVersionMismatch(env.schemaVersion, checkpoint.schemaVersion)), log;
      }
      if checkpoint.completedStep != checkpoint.usage.steps {
        return Err(RunPositionMismatch(checkpoint.completedStep, checkpoint.usage.steps)), log;
      }
      if checkpoint.nextNode !in graph.nodes {
        return Err(ResumeAtMissingNode(checkpoint.nextNode)), log;
      }
      var state := new AgentState.Clone(checkpoint.state);
      var rejection := state.ApplyUpdates(env.rule, env.resumeUpdates(input));
      if rejection.Some? {
        return Err(ResumeInputRejected(rejection.value)), log;
      }
      var taken := store.value.Take(id);
      if taken.Err? {
        return Err(CheckpointAlreadyConsumed(id)), log;
      }
      var budget := new RunBudgetHandle.FromSnapshot(checkpoint.limits, checkpoint.usage);
      var outcome;
      outcome, log := ExecuteFrom(RunOf(checkpoint), state, budget, checkpoint.nextNode,
                                  checkpoint.visited, checkpoint.receipts, true, newId);
      r := if outcome.Ok? then Ok(outcome.value) else Err(RunFailed(outcome.error));
    }
  }
}
