// What one iteration of the run loop does, read off its two ends: which code ran, which
// effects were performed and what the executor answered, what was committed and where the
// run went (agent-core/src/graph/runtime.rs).
module NodeAnswers {
  import opened Wrappers
  import opened Integers
  import opened AgentStates
  import opened Budgets
  import opened Graphs
  import opened Definitions
  import opened Checkpoints
  import opened Runtime

  // ---- The effects of one node ----

  /** The effects one node execution asked for, and the counters before the first of them. */
  datatype Job = Job(run: RunInfo, step: NonZeroU32, node: NodeId, usage: Usage, effects: seq<Effect>)

  /** The counters when the i-th effect is performed: its predecessors have reserved. */
  function CountersAt(env: Env, job: Job, i: nat): Usage
    requires i <= |job.effects| && i <= U32_MAX + 1 && (env.executor.None? ==> i == 0)
    decreases i, 0
  {
    if i == 0 then job.usage
    else ReserveAll(job.run.limits, CountersAt(env, job, i - 1), AnswerTo(env, job, i - 1).reservations)
  }

  /** The executor's answer to the i-th effect, under its own id. */
  function AnswerTo(env: Env, job: Job, i: nat): EffectRun
    requires i < |job.effects| && i <= U32_MAX && env.executor.Some?
    decreases i, 1
  {
    env.executor.value(EffectId(job.run.id, job.step, job.node, i), job.effects[i],
                       View(job.run, CountersAt(env, job, i)))
  }

  /** The i-th effect was performed without interruption, and this is its receipt. */
  predicate ReceiptFor(env: Env, job: Job, i: nat, r: EffectReceipt)
    requires i < |job.effects| && i <= U32_MAX && env.executor.Some?
  {
    && r.id == EffectId(job.run.id, job.step, job.node, i)
    && AnswerTo(env, job, i).result == Ok(r.value)
    && env.interrupt(job.step, BeforeEffect(i)).None? && env.interrupt(job.step, InEffect(i)).None?
  }

  /** The first effects of the job were performed, one receipt each. */
  predicate Answered(env: Env, job: Job, receipts: seq<EffectReceipt>) {
    && |receipts| <= |job.effects| && |receipts| <= U32_MAX + 1
    && (receipts != [] ==> env.executor.Some?)
    && forall i :: 0 <= i < |receipts| ==> ReceiptFor(env, job, i, receipts[i])
  }

  /** How the effects of a job may have ended, in terms of the effects themselves. */
  predicate JobEnded(env: Env, job: Job, end: EffectsEnd) {
    match end
    case EffectsDone(_, after, receipts, _) =>
      && Answered(env, job, receipts) && |receipts| == |job.effects|
      && after == CountersAt(env, job, |job.effects|)
    case EffectsFailed(EffectFailed(_, id, _, e), _) =>
      && id.ordinal < |job.effects| && env.executor.Some?
      && if env.interrupt(job.step, InEffect(id.ordinal)).Some? then e == UNKNOWN_COMMIT
         else AnswerTo(env, job, id.ordinal).result == Err(e)
    case EffectsFailed(PostEffectStateUpdateFailed(_, id, _), _) =>
      id.ordinal < |job.effects| && env.executor.Some? && AnswerTo(env, job, id.ordinal).result.Ok?
    case EffectsFailed(MissingEffectExecutor(_), _) => env.executor.None? && job.effects != []
    case EffectsFailed(_, _) => true
  }

  /** The k-th effect of the list is the one performed under ordinal k, and its receipt
      holds what the executor answered to it. */
  lemma {:induction false} EffectsAreAnswered(env: Env, job: Job, candidate: Snapshot, usage: Usage,
                                              receipts: seq<EffectReceipt>, log: seq<EffectId>)
    requires Answered(env, job, receipts) && usage == CountersAt(env, job, |receipts|)
    ensures JobEnded(env, job, RunEffects(env, job.run, job.step, job.node, candidate, usage, receipts, log,
                                          job.effects, |receipts|))
    decreases |job.effects| - |receipts|
  {
    var k := |receipts|;
    if k < |job.effects| && k <= U32_MAX && env.executor.Some? {
      var id := EffectId(job.run.id, job.step, job.node, k);
      var outcome := AnswerTo(env, job, k);
      if outcome.result.Ok? && env.interrupt(job.step, BeforeEffect(k)).None?
         && env.interrupt(job.step, InEffect(k)).None? {
        var receipt := EffectReceipt(id, outcome.result.value);
        var next := ApplyAll(env.rule, candidate, env.receiptUpdates(receipt.value));
        if next.Ok? {
          assert ReceiptFor(env, job, k, receipt);
          EffectsAreAnswered(env, job, next.value, ReserveAll(job.run.limits, usage, outcome.reservations),
                             receipts + [receipt], log + [id]);
        }
      }
    }
  }

  // ---- What a node commits ----

  /** The updates its receipts bring, in order. */
  function ReceiptUpdates(env: Env, receipts: seq<EffectReceipt>): seq<Update> {
    if receipts == [] then []
    else ReceiptUpdates(env, receipts[..|receipts| - 1]) + env.receiptUpdates(receipts[|receipts| - 1].value)
  }

  lemma ReceiptUpdatesGrow(env: Env, receipts: seq<EffectReceipt>, r: EffectReceipt)
    ensures ReceiptUpdates(env, receipts + [r]) == ReceiptUpdates(env, receipts) + env.receiptUpdates(r.value)
  {
    assert (receipts + [r])[..|receipts|] == receipts;
  }

  lemma {:induction false} EffectsReplay(env: Env, run: RunInfo, step: NonZeroU32, node: NodeId, before: Snapshot,
                                         updates: seq<Update>, candidate: Snapshot, usage: Usage,
                                         receipts: seq<EffectReceipt>, log: seq<EffectId>, effects: seq<Effect>, k: nat)
    requires k <= |effects|
    requires ApplyAll(env.rule, before, updates + ReceiptUpdates(env, receipts)) == Ok(candidate)
    ensures var end := RunEffects(env, run, step, node, candidate, usage, receipts, log, effects, k);
            end.EffectsDone? ==>
              ApplyAll(env.rule, before, updates + ReceiptUpdates(env, end.receipts)) == Ok(end.candidate)
    decreases |effects| - k
  {
    if k < |effects| && k <= U32_MAX && env.executor.Some? {
      var id := EffectId(run.id, step, node, k);
      var outcome := env.executor.value(id, effects[k], View(run, usage));
      if outcome.result.Ok? {
        var receipt := EffectReceipt(id, outcome.result.value);
        var next := ApplyAll(env.rule, candidate, env.receiptUpdates(receipt.value));
        if next.Ok? {
          BatchesCompose(env.rule, before, updates + ReceiptUpdates(env, receipts), env.receiptUpdates(receipt.value));
          ReceiptUpdatesGrow(env, receipts, receipt);
          assert updates + ReceiptUpdates(env, receipts + [receipt])
                 == updates + ReceiptUpdates(env, receipts) + env.receiptUpdates(receipt.value);
          EffectsReplay(env, run, step, node, before, updates, next.value,
                        ReserveAll(run.limits, usage, outcome.reservations), receipts + [receipt], log + [id],
                        effects, k + 1);
        }
      }
    }
  }

  /** A node commits its own updates and then those of its receipts, as one batch over
      the state it was given. */
  lemma CommitIsOneBatch(env: Env, run: RunInfo, c: Config, usage: Usage,
                         updates: seq<Update>, effects: seq<Effect>, tokens: U64)
    requires 1 <= usage.steps
    ensures var end := Work(env, run, c, usage, updates, effects, tokens);
            end.EffectsDone? ==>
              ApplyAll(env.rule, c.state, updates + ReceiptUpdates(env, end.receipts)) == Ok(end.candidate)
  {
    var counted := Reserve(run.limits, usage, TokenCount(tokens));
    var candidate := ApplyAll(env.rule, c.state, updates);
    if counted.Ok? && candidate.Ok? {
      assert updates + ReceiptUpdates(env, []) == updates;
      EffectsReplay(env, run, usage.steps, c.current, c.state, updates, candidate.value, counted.value, [], c.log,
                    effects, 0);
    }
  }

  // ---- One iteration ----

  /** The counters once the node has returned and its tokens are counted. */
  function CountedAfter(env: Env, g: CompiledGraph, run: RunInfo, node: NodeId, before: Snapshot, used: Usage)
    : Result<Usage, BudgetError>
    requires node in g.nodes && used.steps < U32_MAX
  {
    var granted := used.(steps := used.steps + 1);
    var outcome := env.run(Behaviour(g.nodes[node]), before, View(run, granted));
    if outcome.verdict.Failure? then Ok(granted)
    else Reserve(run.limits, ReserveAll(run.limits, granted, outcome.reservations), TokenCount(outcome.verdict.tokens))
  }

  /** Running the node at this step from this state and these counters asked for the effects
      these receipts answer, every one of them, and nothing stopped it. */
  ghost predicate NodeDid(env: Env, g: CompiledGraph, run: RunInfo, node: NodeId, before: Snapshot, used: Usage,
                          receipts: seq<EffectReceipt>)
  {
    && node in g.nodes && used.steps < U32_MAX
    && var granted := used.(steps := used.steps + 1);
       var outcome := env.run(Behaviour(g.nodes[node]), before, View(run, granted));
       && !outcome.verdict.Failure?
       && env.interrupt(granted.steps, AtStart).None? && env.interrupt(granted.steps, InNode).None?
       && var counted := CountedAfter(env, g, run, node, before, used);
          && counted.Ok? && |receipts| == |outcome.verdict.effects|
          && Answered(env, Job(run, granted.steps, node, counted.value, outcome.verdict.effects), receipts)
  }

  /** The receipts of a whole run: for each visited node in turn, the answers to exactly the
      effects that node asked for when it was run at its step. */
  ghost predicate Performed(env: Env, g: CompiledGraph, run: RunInfo, visited: seq<NodeId>,
                            receipts: seq<EffectReceipt>)
    decreases |visited|
  {
    if visited == [] then receipts == []
    else
      var n := |visited| - 1;
      exists k: nat, before: Snapshot, used: Usage ::
        && k <= |receipts| && used.steps == n && Performed(env, g, run, visited[..n], receipts[..k])
        && NodeDid(env, g, run, visited[n], before, used, receipts[k..])
  }

  lemma PerformedOneMore(env: Env, g: CompiledGraph, run: RunInfo, visited: seq<NodeId>, receipts: seq<EffectReceipt>,
                         node: NodeId, before: Snapshot, used: Usage, more: seq<EffectReceipt>)
    requires Performed(env, g, run, visited, receipts) && used.steps == |visited|
    requires NodeDid(env, g, run, node, before, used, more)
    ensures Performed(env, g, run, visited + [node], receipts + more)
  {
    var longer, all := visited + [node], receipts + more;
    assert longer[..|visited|] == visited && longer[|visited|] == node;
    assert all[..|receipts|] == receipts && all[|receipts|..] == more;
    assert Performed(env, g, run, longer[..|visited|], all[..|receipts|])
           && NodeDid(env, g, run, longer[|visited|], before, used, all[|receipts|..]);
  }

  /** Where the run went from a node that committed this state: along the transition of that
      node, for a branch by the route its router chose from the committed state. */
  predicate WentTo(env: Env, g: CompiledGraph, node: NodeId, end: StepEnd, state: Snapshot)
    requires !end.Abort?
  {
    && node in g.transitions
    && match g.transitions[node]
       case Goto(target) => !end.Finish? && ConfigOf(end).current == target
       case Branch(router, targets) =>
         var route := env.select(router.tag, state);
         !end.Finish? && route.Ok? && route.value in targets && ConfigOf(end).current == targets[route.value]
       case End => end.Finish? && state.outcome.Some? && ConfigOf(end).current == node
  }

  /** What an iteration that did not fail did: it ran the node it stood at on its state, made
      the executor perform exactly the effects asked for, in order, committed the node's
      updates and then those of the receipts, and left along the node's transition; it
      paused iff the node asked to. */
  ghost predicate Exact(env: Env, g: CompiledGraph, run: RunInfo, c: Config, end: StepEnd)
    requires !end.Abort?
  {
    var next := ConfigOf(end);
    && c.receipts <= next.receipts && next.visited == c.visited + [c.current]
    && var more := next.receipts[|c.receipts|..];
       && NodeDid(env, g, run, c.current, c.state, c.usage, more) && WentTo(env, g, c.current, end, next.state)
       && var verdict := env.run(Behaviour(g.nodes[c.current]), c.state,
                                 View(run, c.usage.(steps := c.usage.steps + 1))).verdict;
          && ApplyAll(env.rule, c.state, verdict.updates + ReceiptUpdates(env, more)) == Ok(next.state)
          && next.usage == CountersAt(env, Job(run, c.usage.steps + 1, c.current,
                                               CountedAfter(env, g, run, c.current, c.state, c.usage).value,
                                               verdict.effects), |more|)
          && (if end.Pause? then verdict.Suspend? && verdict.request == end.request
              else verdict.Continue?)
  }

  lemma SettleIsExact(env: Env, g: CompiledGraph, run: RunInfo, c: Config, usage: Usage, updates: seq<Update>,
                      effects: seq<Effect>, tokens: U64, request: Option<SuspendRequest>)
    requires 1 <= usage.steps
    ensures var end := Settle(env, g, run, c, usage, updates, effects, tokens, request);
            var counted := Reserve(run.limits, usage, TokenCount(tokens));
            !end.Abort? ==>
              && var next := ConfigOf(end);
              && c.receipts <= next.receipts && next.visited == c.visited + [c.current] && counted.Ok?
              && var more := next.receipts[|c.receipts|..];
                 && |more| == |effects|
                 && Answered(env, Job(run, usage.steps, c.current, counted.value, effects), more)
                 && next.usage == CountersAt(env, Job(run, usage.steps, c.current, counted.value, effects), |more|)
                 && WentTo(env, g, c.current, end, next.state)
                 && ApplyAll(env.rule, c.state, updates + ReceiptUpdates(env, more)) == Ok(next.state)
                 && (if end.Pause? then request == Some(end.request) else request.None?)
  {
    var counted := Reserve(run.limits, usage, TokenCount(tokens));
    var candidate := ApplyAll(env.rule, c.state, updates);
    if counted.Ok? && candidate.Ok? {
      var job := Job(run, usage.steps, c.current, counted.value, effects);
      EffectsAreAnswered(env, job, candidate.value, counted.value, [], c.log);
      CommitIsOneBatch(env, run, c, usage, updates, effects, tokens);
      var work := Work(env, run, c, usage, updates, effects, tokens);
      if work.EffectsDone? {
        assert (c.receipts + work.receipts)[|c.receipts|..] == work.receipts;
      }
    }
  }

  /** The readiness check and the node call, when they succeed. */
  lemma StartIsExact(env: Env, g: CompiledGraph, run: RunInfo, c: Config)
    requires StepLimit(run.limits, g.maxSteps) < U32_MAX && Start(env, g, run, c).Ok?
    ensures var granted := c.usage.(steps := c.usage.steps + 1);
            var (usage, verdict) := Start(env, g, run, c).value;
            && c.current in g.nodes && c.usage.steps < U32_MAX && granted.steps == usage.steps
            && env.interrupt(granted.steps, AtStart).None? && env.interrupt(granted.steps, InNode).None?
            && var outcome := env.run(Behaviour(g.nodes[c.current]), c.state, View(run, granted));
               verdict == outcome.verdict && usage == ReserveAll(run.limits, granted, outcome.reservations)
  {
  }

  /** Every iteration that does not fail is exact. */
  lemma StepIsExact(env: Env, g: CompiledGraph, run: RunInfo, checkpointing: bool, c: Config)
    requires StepLimit(run.limits, g.maxSteps) < U32_MAX
    ensures var end := StepOnce(env, g, run, checkpointing, c); !end.Abort? ==> Exact(env, g, run, c, end)
  {
    match Start(env, g, run, c)
    case Err(_) =>
    case Ok((usage, Continue(updates, effects, tokens))) =>
      StartIsExact(env, g, run, c);
      SettleIsExact(env, g, run, c, usage, updates, effects, tokens, None);
    case Ok((usage, Suspend(updates, effects, tokens, request))) =>
      StartIsExact(env, g, run, c);
      SettleIsExact(env, g, run, c, usage, updates, effects, tokens, Some(request));
  }

  /** Every iteration that fails names a reason that holds. */
  ghost predicate FailedTruly(env: Env, g: CompiledGraph, run: RunInfo, c: Config, error: RunError)
    requires c.current in g.nodes && c.usage.steps < U32_MAX
  {
    var verdict := env.run(Behaviour(g.nodes[c.current]), c.state,
                           View(run, c.usage.(steps := c.usage.steps + 1))).verdict;
    var counted := CountedAfter(env, g, run, c.current, c.state, c.usage);
    match error
    case StateUpdateFailed(_, e) => !verdict.Failure? && ApplyAll(env.rule, c.state, verdict.updates) == Err(e)
    case EffectFailed(_, id, _, e) =>
      && !verdict.Failure? && counted.Ok? && env.executor.Some? && id.ordinal < |verdict.effects|
      && var job := Job(run, c.usage.steps + 1, c.current, counted.value, verdict.effects);
         if env.interrupt(job.step, InEffect(id.ordinal)).Some? then e == UNKNOWN_COMMIT
         else AnswerTo(env, job, id.ordinal).result == Err(e)
    case PostEffectStateUpdateFailed(_, id, _) =>
      && !verdict.Failure? && counted.Ok? && env.executor.Some? && id.ordinal < |verdict.effects|
      && AnswerTo(env, Job(run, c.usage.steps + 1, c.current, counted.value, verdict.effects), id.ordinal).result.Ok?
    case MissingEffectExecutor(_) => !verdict.Failure? && env.executor.None? && verdict.effects != []
    case UnexpectedSuspend(_) => verdict.Suspend?
    case SuspendAtEnd(_) => verdict.Suspend? && c.current in g.transitions && g.transitions[c.current].End?
    case MissingOutcome => !verdict.Failure? && c.current in g.transitions && g.transitions[c.current].End?
    case UnknownRoute(_, route) =>
      && !verdict.Failure? && c.current in g.transitions && g.transitions[c.current].Branch?
      && route !in g.transitions[c.current].targets
    case _ => true
  }

  lemma SettleFailsTruly(env: Env, g: CompiledGraph, run: RunInfo, c: Config, usage: Usage, verdict: Verdict,
                         request: Option<SuspendRequest>)
    requires StepLimit(run.limits, g.maxSteps) < U32_MAX && Start(env, g, run, c) == Ok((usage, verdict))
    requires request == if verdict.Suspend? then Some(verdict.request) else None
    ensures var end := Settle(env, g, run, c, usage, verdict.updates, verdict.effects, verdict.tokens, request);
            end.Abort? ==> c.current in g.nodes && c.usage.steps < U32_MAX && FailedTruly(env, g, run, c, end.error)
  {
    StartIsExact(env, g, run, c);
    var counted := Reserve(run.limits, usage, TokenCount(verdict.tokens));
    var candidate := ApplyAll(env.rule, c.state, verdict.updates);
    if counted.Ok? && candidate.Ok? {
      EffectsAreAnswered(env, Job(run, usage.steps, c.current, counted.value, verdict.effects), candidate.value,
                         counted.value, [], c.log);
      EffectErrors(env, run, counted.value.steps, c.current, candidate.value, counted.value, [], c.log,
                   verdict.effects, 0);
    }
  }

  /** The errors an effect loop can end with. */
  lemma {:induction false} EffectErrors(env: Env, run: RunInfo, step: NonZeroU32, node: NodeId, candidate: Snapshot,
                                        usage: Usage, receipts: seq<EffectReceipt>, log: seq<EffectId>,
                                        effects: seq<Effect>, k: nat)
    requires k <= |effects|
    ensures var end := RunEffects(env, run, step, node, candidate, usage, receipts, log, effects, k);
            end.EffectsFailed? ==>
              || end.error.NodeFailed? || end.error.MissingEffectExecutor? || end.error == Cancelled
              || end.error == DeadlineExceeded || end.error.EffectFailed? || end.error.PostEffectStateUpdateFailed?
    decreases |effects| - k
  {
    if k < |effects| && k <= U32_MAX && env.executor.Some? {
      var id := EffectId(run.id, step, node, k);
      var outcome := env.executor.value(id, effects[k], View(run, usage));
      if outcome.result.Ok? {
        var value := outcome.result.value;
        var next := ApplyAll(env.rule, candidate, env.receiptUpdates(value));
        if next.Ok? {
          EffectErrors(env, run, step, node, next.value, ReserveAll(run.limits, usage, outcome.reservations),
                       receipts + [EffectReceipt(id, value)], log + [id], effects, k + 1);
        }
      }
    }
  }

  /** So does every iteration of a run whose node got to answer; effect failures in particular
      are what the executor answered to the effect of that ordinal. */
  lemma StepFailsTruly(env: Env, g: CompiledGraph, run: RunInfo, checkpointing: bool, c: Config)
    requires StepLimit(run.limits, g.maxSteps) < U32_MAX && Start(env, g, run, c).Ok?
    ensures var end := StepOnce(env, g, run, checkpointing, c);
            end.Abort? ==> c.current in g.nodes && c.usage.steps < U32_MAX && FailedTruly(env, g, run, c, end.error)
  {
    var (usage, verdict) := Start(env, g, run, c).value;
    StartIsExact(env, g, run, c);
    SettleFailsTruly(env, g, run, c, usage, verdict, if verdict.Suspend? then Some(verdict.request) else None);
  }

  /** What stopped an iteration before the node answered: an interruption at one of the two
      points where it is looked for, the step limit, a missing node, or the node's own failure,
      a budget refusal and a cancellation inside it being reported as such. */
  predicate StoppedTruly(env: Env, g: CompiledGraph, run: RunInfo, c: Config, e: RunError)
    requires c.usage.steps < U32_MAX
  {
    var granted := c.usage.(steps := c.usage.steps + 1);
    if env.interrupt(granted.steps, AtStart).Some? then
      e == if env.interrupt(granted.steps, AtStart) == Some(Cancel) then Cancelled else DeadlineExceeded
    else if granted.steps > run.limits.maxSteps || granted.steps > g.maxSteps then
      e.OverBudget? && e.budget.resource == Steps && e.budget.attempted == granted.steps
    else if c.current !in g.nodes then e == MissingNode(c.current)
    else if env.interrupt(granted.steps, InNode).Some? then
      e == if env.interrupt(granted.steps, InNode) == Some(Cancel) then Cancelled else DeadlineExceeded
    else
      var verdict := env.run(Behaviour(g.nodes[c.current]), c.state, View(run, granted)).verdict;
      && verdict.Failure?
      && match verdict.error.budget
         case Some(b) => e == OverBudget(b)
         case None =>
           e == if verdict.error.kind == CancelledKind then Cancelled else NodeFailed(c.current, verdict.error)
  }

  lemma StartsExactly(env: Env, g: CompiledGraph, run: RunInfo, c: Config)
    requires c.usage.steps < U32_MAX
    ensures match Start(env, g, run, c)
            case Err(e) => StoppedTruly(env, g, run, c, e)
            case Ok(_) => forall e :: !StoppedTruly(env, g, run, c, e)
  {
  }
}
