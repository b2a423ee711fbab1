// A run driven through the public interface: started once, then resumed from every
// checkpoint it leaves (agent-core/src/graph/runtime.rs, checkpoint_store.rs).
module Sessions {
  import opened Wrappers
  import opened Integers
  import opened AgentStates
  import opened Budgets
  import opened Graphs
  import opened Definitions
  import opened Checkpoints
  import opened Runtime
  import opened NodeAnswers
  import opened RunTheorems

  type Answer = Result<ExecutionResult, ResumeError>

  function Lift(r: Result<ExecutionResult, CheckpointRunError>): Answer {
    match r
    case Ok(result) => Ok(result)
    case Err(e) => Err(RunFailed(e))
  }

  /** Where a run stands after one or more stretches: the store, the answer of the
      last one, and the executor calls of all of them. */
  datatype Driven = Driven(store: Store, answer: Answer, calls: seq<EffectId>)

  /** One uninterrupted stretch from c, after some earlier calls. */
  function Stretch(env: Env, g: CompiledGraph, run: RunInfo, store: Store, calls: seq<EffectId>,
                   newId: CheckpointId, c: Config): Driven
    requires StepLimit(run.limits, g.maxSteps) < U32_MAX
  {
    PausedAfterAStep(env, g, run, true, c);
    var end := Execute(env, g, run, true, c);
    var (after, r) := Conclude(env, g, run, Some(store), newId, end);
    Driven(if after.Some? then after.value else store, Lift(r), calls + NewCalls(c.log, LogOf(end)))
  }

  function Remaining(a: Answer): nat {
    match a
    case Ok(Suspended(checkpoint)) => 1 + U32_MAX - checkpoint.usage.steps
    case _ => 0
  }

  predicate Bounded(g: CompiledGraph, a: Answer) {
    a.Ok? && a.value.Suspended? ==> StepLimit(a.value.checkpoint.limits, g.maxSteps) < U32_MAX
  }

  lemma {:induction false} PausesLater(env: Env, g: CompiledGraph, run: RunInfo, c: Config)
    requires StepLimit(run.limits, g.maxSteps) < U32_MAX
    ensures var end := Execute(env, g, run, true, c); end.RunPaused? ==> c.usage.steps < end.paused.usage.steps
    decreases U32_MAX - c.usage.steps
  {
    StepUsesOneStep(env, g, run, true, c);
    var end := StepOnce(env, g, run, true, c);
    if end.Advance? {
      PausesLater(env, g, run, end.next);
    }
  }

  /** A resume either ends the run or leaves a later checkpoint of it. */
  lemma ResumeProgresses(env: Env, g: CompiledGraph, store: Store, id: CheckpointId, input: ResumeInput,
                         newId: CheckpointId)
    requires id in store.live && StepLimit(store.live[id].limits, g.maxSteps) < U32_MAX
    ensures var (_, next) := ResumeAlone(env, g, store, id, input, newId);
            Remaining(next) < Remaining(Ok(Suspended(store.live[id]))) && Bounded(g, next)
  {
    var checkpoint := store.live[id];
    match Admit(env, g, checkpoint, input)
    case Err(_) =>
    case Ok(c) => PausesLater(env, g, RunOf(checkpoint), c);
  }

  /** Resumes from every checkpoint with the input and the new id that belong to
      its step, until the run ends or a resume is refused. */
  function Drive(env: Env, g: CompiledGraph, d: Driven, ids: nat -> CheckpointId, inputs: nat -> ResumeInput): Driven
    requires Bounded(g, d.answer)
    decreases Remaining(d.answer)
  {
    match d.answer
    case Ok(Suspended(checkpoint)) =>
      if !IsLive(d.store, checkpoint) then d
      else
        var step := checkpoint.usage.steps;
        ResumeProgresses(env, g, d.store, checkpoint.id, inputs(step), ids(step));
        var (after, next) := ResumeAlone(env, g, d.store, checkpoint.id, inputs(step), ids(step));
        var log := ResumeLog(env, g, d.store, checkpoint.id, inputs(step));
        Drive(env, g, Driven(after, next, d.calls + NewCalls(Ids(checkpoint.receipts), log)), ids, inputs)
    case _ => d
  }

  /** The ids drawn from a step on are new to the store and pairwise different. */
  ghost predicate NewIds(store: Store, ids: nat -> CheckpointId, from: nat) {
    && (forall n :: from <= n ==> !Known(store, ids(n)))
    && (forall m, n :: from <= m < n ==> ids(m) != ids(n))
  }

  // ---- Every driven run is sound ----

  /** A completed run's result, with the executor calls that were made for it. */
  function ConfigOfResult(r: RunResult, calls: seq<EffectId>): Config
    requires r.visited != []
  {
    Config(r.state, r.usage, r.visited[|r.visited| - 1], r.visited, r.receipts, calls)
  }

  /** What a driven run that made these calls may answer: a completed walk whose
      receipts are the calls, an error of the run itself reported for one of its own
      configurations, or a rejected input after the calls of a configuration. */
  ghost predicate AnswerSound(env: Env, g: CompiledGraph, run: RunInfo, c: Config, a: Answer, calls: seq<EffectId>) {
    match a
    case Ok(Completed(r)) =>
      && r.runId == run.id && r.visited != []
      && EndedWell(env, g, run, ConfigOfResult(r, calls)) && Continues(run, c, ConfigOfResult(r, calls))
    case Ok(Suspended(_)) => false
    case Err(RunFailed(Graph(error))) =>
      exists last: Config :: FailedAt(env, g, run, c, last, error, calls)
    case Err(ResumeInputRejected(_)) =>
      exists last: Config :: Sound(env, g, run, last) && Continues(run, c, last) && last.log == calls
    case Err(_) => false
  }

  ghost predicate FailedAt(env: Env, g: CompiledGraph, run: RunInfo, c: Config, last: Config, error: RunError,
                           calls: seq<EffectId>) {
    && Sound(env, g, run, last) && Continues(run, c, last)
    && last.usage.steps < U32_MAX && FailedWell(g, run, last, error, calls)
  }

  lemma SaveWorks(store: Store, checkpoint: Checkpoint)
    requires !Known(store, checkpoint.id)
    ensures Serve(store, SaveCall(checkpoint)) == (store.(live := store.live[checkpoint.id := checkpoint]), Saved)
  {
  }

  /** The store and the answer that go with the way a stretch ended. */
  predicate Reports(env: Env, g: CompiledGraph, run: RunInfo, store: Store, newId: CheckpointId, end: RunEnd,
                    d: Driven) {
    match end
    case RunCompleted(f) =>
      d.store == store && d.answer == Ok(Completed(RunResult(f.state, f.usage, f.visited, run.id, f.receipts)))
    case RunAborted(e, _) => d.store == store && d.answer == Err(RunFailed(Graph(e)))
    case RunPaused(p, request) =>
      && 1 <= p.usage.steps
      && var checkpoint := CheckpointOf(newId, env, g, run, p, request);
         d.store == store.(live := store.live[newId := checkpoint]) && d.answer == Ok(Suspended(checkpoint))
  }

  /** One stretch, when its checkpoint id is new. */
  lemma StretchAnswers(env: Env, g: CompiledGraph, run: RunInfo, store: Store, calls: seq<EffectId>,
                       newId: CheckpointId, c: Config)
    requires StepLimit(run.limits, g.maxSteps) < U32_MAX && !Known(store, newId)
    ensures Stretch(env, g, run, store, calls, newId, c).calls
            == calls + NewCalls(c.log, LogOf(Execute(env, g, run, true, c)))
    ensures Reports(env, g, run, store, newId, Execute(env, g, run, true, c),
                    Stretch(env, g, run, store, calls, newId, c))
  {
    PausedAfterAStep(env, g, run, true, c);
    match Execute(env, g, run, true, c)
    case RunPaused(p, request) => SaveWorks(store, CheckpointOf(newId, env, g, run, p, request));
    case _ =>
  }

  /** A run's own checkpoint passes every validation, so only the input decides. */
  lemma OwnCheckpointIsAdmitted(env: Env, g: CompiledGraph, run: RunInfo, id: CheckpointId, p: Config,
                                request: SuspendRequest, input: ResumeInput)
    requires Sound(env, g, run, p) && 1 <= p.usage.steps
    ensures var updated := ApplyAll(env.rule, p.state, env.resumeUpdates(input));
            Admit(env, g, CheckpointOf(id, env, g, run, p, request), input)
            == if updated.Ok? then Ok(p.(state := updated.value)) else Err(ResumeInputRejected(updated.error))
  {
  }

  /** Resuming such a checkpoint takes it and goes on from its configuration. */
  lemma ResumeGoesOn(env: Env, g: CompiledGraph, run: RunInfo, store: Store, id: CheckpointId, p: Config,
                     request: SuspendRequest, input: ResumeInput, newId: CheckpointId, calls: seq<EffectId>)
    requires Sound(env, g, run, p) && 1 <= p.usage.steps && StepLimit(run.limits, g.maxSteps) < U32_MAX
    requires IsLive(store, CheckpointOf(id, env, g, run, p, request))
    ensures var updated := ApplyAll(env.rule, p.state, env.resumeUpdates(input));
            var (after, answer) := ResumeAlone(env, g, store, id, input, newId);
            Driven(after, answer, calls + NewCalls(p.log, ResumeLog(env, g, store, id, input)))
            == if updated.Ok?
               then Stretch(env, g, run, Serve(store, TakeCall(id)).0, calls, newId, p.(state := updated.value))
               else Driven(store, Err(ResumeInputRejected(updated.error)), calls)
  {
    OwnCheckpointIsAdmitted(env, g, run, id, p, request, input);
    assert RunOf(CheckpointOf(id, env, g, run, p, request)) == run;
    assert calls + NewCalls(p.log, []) == calls;
  }

  /** What a checkpoint must agree with to be resumed here. */
  predicate Resumable(env: Env, g: CompiledGraph, checkpoint: Checkpoint, input: ResumeInput) {
    && checkpoint.graphId == g.id && checkpoint.graphVersion == g.version
    && checkpoint.schemaVersion == env.schemaVersion && checkpoint.completedStep == checkpoint.usage.steps
    && checkpoint.nextNode in g.nodes && ApplyAll(env.rule, checkpoint.state, env.resumeUpdates(input)).Ok?
  }

  /** The check that a refused resume names did fail. */
  predicate RefusedTruly(env: Env, g: CompiledGraph, checkpoint: Checkpoint, input: ResumeInput, e: ResumeError) {
    match e
    case GraphIdMismatch(expected, actual) =>
      expected == g.id && actual == checkpoint.graphId && expected != actual
    case GraphVersionMismatch(expected, actual) =>
      expected == g.version && actual == checkpoint.graphVersion && expected != actual
    case StateSchemaVersionMismatch(expected, actual) =>
      expected == env.schemaVersion && actual == checkpoint.schemaVersion && expected != actual
    case RunPositionMismatch(completed, steps) =>
      completed == checkpoint.completedStep && steps == checkpoint.usage.steps && completed != steps
    case ResumeAtMissingNode(node) => node == checkpoint.nextNode && node !in g.nodes
    case ResumeInputRejected(state) => ApplyAll(env.rule, checkpoint.state, env.resumeUpdates(input)) == Err(state)
    case _ => false
  }

  /** A resume consumes its checkpoint iff that is live and agrees with the graph, the schema and
      the input; a refused resume names a check that failed and leaves the store as it was. */
  lemma ResumesExactly(env: Env, g: CompiledGraph, store: Store, id: CheckpointId, input: ResumeInput,
                       newId: CheckpointId)
    requires Separate(store) && (id in store.live ==> StepLimit(store.live[id].limits, g.maxSteps) < U32_MAX)
    ensures var (after, answer) := ResumeAlone(env, g, store, id, input, newId);
            && (id in store.live && id in after.consumed <==>
                  id in store.live && Resumable(env, g, store.live[id], input))
            && (id !in store.live ==> after == store && answer == Err(CheckpointLoad(NotFound(id))))
            && (id in store.live && !Resumable(env, g, store.live[id], input) ==>
                  after == store && answer.Err? && RefusedTruly(env, g, store.live[id], input, answer.error))
  {
    if id in store.live && Resumable(env, g, store.live[id], input) {
      var c := Admit(env, g, store.live[id], input).value;
      PausedAfterAStep(env, g, RunOf(store.live[id]), true, c);
    }
  }

  /** A new id for the next checkpoint, and new ones for all after it. */
  ghost predicate Supply(store: Store, newId: CheckpointId, ids: nat -> CheckpointId, step: nat) {
    && !Known(store, newId) && NewIds(store, ids, step + 1)
    && forall n :: step < n ==> ids(n) != newId
  }

  lemma SupplyLasts(store: Store, newId: CheckpointId, ids: nat -> CheckpointId, step: nat,
                    checkpoint: Checkpoint, later: nat)
    requires Supply(store, newId, ids, step) && step < later
    ensures Supply(Serve(store.(live := store.live[newId := checkpoint]), TakeCall(newId)).0, ids(later), ids, later)
  {
  }

  lemma AnswerCarriesBack(env: Env, g: CompiledGraph, run: RunInfo, c: Config, c': Config, a: Answer,
                          calls: seq<EffectId>)
    requires Continues(run, c, c') && AnswerSound(env, g, run, c', a, calls)
    ensures AnswerSound(env, g, run, c, a, calls)
  {
    match a
    case Ok(Completed(r)) => ContinuesTransitive(run, c, c', ConfigOfResult(r, calls));
    case Err(RunFailed(Graph(error))) =>
      var last: Config :| FailedAt(env, g, run, c', last, error, calls);
      ContinuesTransitive(run, c, c', last);
      assert FailedAt(env, g, run, c, last, error, calls);
    case Err(ResumeInputRejected(_)) =>
      var last: Config :| Sound(env, g, run, last) && Continues(run, c', last) && last.log == calls;
      ContinuesTransitive(run, c, c', last);
  }

  /** Driving on from a paused stretch is the next stretch, driven on. */
  lemma DriveGoesOn(env: Env, g: CompiledGraph, run: RunInfo, store: Store, calls: seq<EffectId>, id: CheckpointId,
                    p: Config, request: SuspendRequest, ids: nat -> CheckpointId, inputs: nat -> ResumeInput)
    requires Sound(env, g, run, p) && 1 <= p.usage.steps && StepLimit(run.limits, g.maxSteps) < U32_MAX
    requires IsLive(store, CheckpointOf(id, env, g, run, p, request))
    ensures var checkpoint, step := CheckpointOf(id, env, g, run, p, request), p.usage.steps;
            var updated := ApplyAll(env.rule, p.state, env.resumeUpdates(inputs(step)));
            var d := Driven(store, Ok(Suspended(checkpoint)), calls);
            && Bounded(g, d.answer)
            && (updated.Err? ==>
                  Drive(env, g, d, ids, inputs) == Driven(store, Err(ResumeInputRejected(updated.error)), calls))
            && (updated.Ok? ==>
                  var next := Stretch(env, g, run, Serve(store, TakeCall(id)).0, calls, ids(step),
                                      p.(state := updated.value));
                  Bounded(g, next.answer) && Drive(env, g, d, ids, inputs) == Drive(env, g, next, ids, inputs))
  {
    var checkpoint, step := CheckpointOf(id, env, g, run, p, request), p.usage.steps;
    ResumeGoesOn(env, g, run, store, id, p, request, inputs(step), ids(step), calls);
    ResumeProgresses(env, g, store, id, inputs(step), ids(step));
  }

  lemma CallsAddUp(before: seq<EffectId>, after: seq<EffectId>)
    requires before <= after
    ensures before + NewCalls(before, after) == after
  {
  }

  /** The store once a checkpoint was saved and taken again. */
  function Spent(store: Store, checkpoint: Checkpoint): Store {
    Serve(store.(live := store.live[checkpoint.id := checkpoint]), TakeCall(checkpoint.id)).0
  }

  /** A stretch that pauses, driven on. */
  lemma PausedGoesOn(env: Env, g: CompiledGraph, run: RunInfo, store: Store, c: Config, newId: CheckpointId,
                     p: Config, request: SuspendRequest, ids: nat -> CheckpointId, inputs: nat -> ResumeInput)
    requires Tame(g, run) && Sound(env, g, run, c) && !Known(store, newId)
    requires Execute(env, g, run, true, c) == RunPaused(p, request)
    ensures Sound(env, g, run, p) && Continues(run, c, p) && c.usage.steps < p.usage.steps
    ensures var first := Stretch(env, g, run, store, c.log, newId, c);
            var updated := ApplyAll(env.rule, p.state, env.resumeUpdates(inputs(p.usage.steps)));
            && Bounded(g, first.answer)
            && (updated.Err? ==> var d := Drive(env, g, first, ids, inputs);
                                 d.answer == Err(ResumeInputRejected(updated.error)) && d.calls == p.log)
            && (updated.Ok? ==>
                  var next := Stretch(env, g, run, Spent(store, CheckpointOf(newId, env, g, run, p, request)), p.log,
                                      ids(p.usage.steps), p.(state := updated.value));
                  Bounded(g, next.answer) && Drive(env, g, first, ids, inputs) == Drive(env, g, next, ids, inputs))
  {
    ExecuteIsSound(env, g, run, true, c);
    PausesLater(env, g, run, c);
    StretchAnswers(env, g, run, store, c.log, newId, c);
    CallsAddUp(c.log, p.log);
    var checkpoint := CheckpointOf(newId, env, g, run, p, request);
    var saved := store.(live := store.live[newId := checkpoint]);
    assert Stretch(env, g, run, store, c.log, newId, c) == Driven(saved, Ok(Suspended(checkpoint)), p.log);
    DriveGoesOn(env, g, run, saved, p.log, newId, p, request, ids, inputs);
  }

  /** A stretch that ends the run is not driven on. */
  lemma EndedStaysEnded(env: Env, g: CompiledGraph, run: RunInfo, store: Store, c: Config, newId: CheckpointId,
                        ids: nat -> CheckpointId, inputs: nat -> ResumeInput)
    requires Tame(g, run) && Sound(env, g, run, c) && !Known(store, newId)
    requires !Execute(env, g, run, true, c).RunPaused?
    ensures var first := Stretch(env, g, run, store, c.log, newId, c);
            && Bounded(g, first.answer) && Drive(env, g, first, ids, inputs) == first
            && first.calls == LogOf(Execute(env, g, run, true, c))
            && Reports(env, g, run, store, newId, Execute(env, g, run, true, c), first)
  {
    ExecuteIsSound(env, g, run, true, c);
    StretchAnswers(env, g, run, store, c.log, newId, c);
    CallsAddUp(c.log, LogOf(Execute(env, g, run, true, c)));
  }

  /** From any sound configuration, through any number of suspensions and whatever
      the inputs: a completed run is a walk from the entry to an End node with an
      outcome and one step per visit, counters stay within limits and never fall, an
      outcome once set freezes the state, and the executor calls of all its stretches
      together are its receipts: one gapless trail without repeats. */
  lemma {:induction false} DrivenRunIsSound(env: Env, g: CompiledGraph, run: RunInfo, store: Store, c: Config,
                                            newId: CheckpointId, ids: nat -> CheckpointId, inputs: nat -> ResumeInput)
    requires Tame(g, run) && Sound(env, g, run, c) && Supply(store, newId, ids, c.usage.steps)
    ensures var first := Stretch(env, g, run, store, c.log, newId, c);
            && Bounded(g, first.answer)
            && var d := Drive(env, g, first, ids, inputs); AnswerSound(env, g, run, c, d.answer, d.calls)
    decreases U32_MAX - c.usage.steps, 0
  {
    ExecuteIsSound(env, g, run, true, c);
    match Execute(env, g, run, true, c)
    case RunCompleted(f) =>
      EndedStaysEnded(env, g, run, store, c, newId, ids, inputs);
      assert ConfigOfResult(RunResult(f.state, f.usage, f.visited, run.id, f.receipts), f.log) == f;
    case RunAborted(e, log) =>
      EndedStaysEnded(env, g, run, store, c, newId, ids, inputs);
      assert FailedAt(env, g, run, c, LastBefore(env, g, run, true, c), e, log);
    case RunPaused(p, request) =>
      PausedGoesOn(env, g, run, store, c, newId, p, request, ids, inputs);
      if ApplyAll(env.rule, p.state, env.resumeUpdates(inputs(p.usage.steps))).Ok? {
        ResumedRunIsSound(env, g, run, store, c, p, request, newId, ids, inputs);
      }
  }

  lemma {:induction false} ResumedRunIsSound(env: Env, g: CompiledGraph, run: RunInfo, store: Store, c: Config,
                                             p: Config, request: SuspendRequest, newId: CheckpointId,
                                             ids: nat -> CheckpointId, inputs: nat -> ResumeInput)
    requires Tame(g, run) && Supply(store, newId, ids, c.usage.steps)
    requires Sound(env, g, run, p) && Continues(run, c, p) && c.usage.steps < p.usage.steps
    requires ApplyAll(env.rule, p.state, env.resumeUpdates(inputs(p.usage.steps))).Ok?
    ensures var c' := p.(state := ApplyAll(env.rule, p.state, env.resumeUpdates(inputs(p.usage.steps))).value);
            var next := Stretch(env, g, run, Spent(store, CheckpointOf(newId, env, g, run, p, request)), p.log,
                                ids(p.usage.steps), c');
            && Bounded(g, next.answer)
            && var d := Drive(env, g, next, ids, inputs); AnswerSound(env, g, run, c, d.answer, d.calls)
    decreases U32_MAX - p.usage.steps, 1
  {
    var checkpoint, updates := CheckpointOf(newId, env, g, run, p, request), env.resumeUpdates(inputs(p.usage.steps));
    var c' := p.(state := ApplyAll(env.rule, p.state, updates).value);
    UpdatesFollow(env.rule, p.state, updates);
    ContinuesTransitive(run, c, p, c');
    SupplyLasts(store, newId, ids, c.usage.steps, checkpoint, p.usage.steps);
    DrivenRunIsSound(env, g, run, Spent(store, checkpoint), c', ids(p.usage.steps), ids, inputs);
    var d := Drive(env, g, Stretch(env, g, run, Spent(store, checkpoint), p.log, ids(p.usage.steps), c'), ids, inputs);
    AnswerCarriesBack(env, g, run, c, c', d.answer, d.calls);
  }

  /** A run of a compiled graph started afresh. */
  lemma CompiledRunIsSound(d: Draft, env: Env, g: CompiledGraph, run: RunInfo, store: Store, state: Snapshot,
                           newId: CheckpointId, ids: nat -> CheckpointId, inputs: nat -> ResumeInput)
    requires Compilable(d) && d.nodes == g.nodes && d.entry == Some(g.entry) && d.transitions == g.transitions
    requires StepLimit(run.limits, g.maxSteps) < U32_MAX && Supply(store, newId, ids, 0)
    ensures var c := Config(state, NO_USAGE, g.entry, [], [], []);
            var first := Stretch(env, g, run, store, [], newId, c);
            && Bounded(g, first.answer)
            && var end := Drive(env, g, first, ids, inputs); AnswerSound(env, g, run, c, end.answer, end.calls)
  {
    CompiledIsWellFormed(d, g);
    StartOfRun(env, g, run, state);
    DrivenRunIsSound(env, g, run, store, Config(state, NO_USAGE, g.entry, [], [], []), newId, ids, inputs);
  }

  // ---- Suspension is transparent ----

  function Continued(r: NodeRun): NodeRun {
    match r.verdict
    case Suspend(updates, effects, tokens, _) => r.(verdict := Continue(updates, effects, tokens))
    case _ => r
  }

  /** The same application, except that no node suspends. */
  function Unsuspended(env: Env): Env {
    env.(run := (tag, state, view) => Continued(env.run(tag, state, view)))
  }

  lemma {:induction false} EffectsIgnoreNodes(env: Env, run: RunInfo, step: NonZeroU32, node: NodeId,
                                              candidate: Snapshot, usage: Usage, receipts: seq<EffectReceipt>,
                                              log: seq<EffectId>, effects: seq<Effect>, k: nat)
    requires k <= |effects|
    ensures RunEffects(Unsuspended(env), run, step, node, candidate, usage, receipts, log, effects, k)
            == RunEffects(env, run, step, node, candidate, usage, receipts, log, effects, k)
    decreases |effects| - k
  {
    if k < |effects| && k <= U32_MAX && env.executor.Some? {
      var id := EffectId(run.id, step, node, k);
      var outcome := env.executor.value(id, effects[k], View(run, usage));
      if outcome.result.Ok? {
        var value := outcome.result.value;
        var next := ApplyAll(env.rule, candidate, env.receiptUpdates(value));
        if next.Ok? {
          EffectsIgnoreNodes(env, run, step, node, next.value, ReserveAll(run.limits, usage, outcome.reservations),
                             receipts + [EffectReceipt(id, value)], log + [id], effects, k + 1);
        }
      }
    }
  }

  lemma {:induction false} EffectsDoNotSuspend(env: Env, run: RunInfo, step: NonZeroU32, node: NodeId,
                                               candidate: Snapshot, usage: Usage, receipts: seq<EffectReceipt>,
                                               log: seq<EffectId>, effects: seq<Effect>, k: nat)
    requires k <= |effects|
    ensures var end := RunEffects(env, run, step, node, candidate, usage, receipts, log, effects, k);
            end.EffectsFailed? ==> !end.error.SuspendAtEnd?
    decreases |effects| - k
  {
    if k < |effects| && k <= U32_MAX && env.executor.Some? {
      var id := EffectId(run.id, step, node, k);
      var outcome := env.executor.value(id, effects[k], View(run, usage));
      if outcome.result.Ok? {
        var value := outcome.result.value;
        var next := ApplyAll(env.rule, candidate, env.receiptUpdates(value));
        if next.Ok? {
          EffectsDoNotSuspend(env, run, step, node, next.value, ReserveAll(run.limits, usage, outcome.reservations),
                              receipts + [EffectReceipt(id, value)], log + [id], effects, k + 1);
        }
      }
    }
  }

  lemma WorkIgnoresNodes(env: Env, run: RunInfo, c: Config, usage: Usage,
                         updates: seq<Update>, effects: seq<Effect>, tokens: U64)
    requires 1 <= usage.steps
    ensures var work := Work(env, run, c, usage, updates, effects, tokens);
            && Work(Unsuspended(env), run, c, usage, updates, effects, tokens) == work
            && (work.EffectsFailed? ==> !work.error.SuspendAtEnd?)
  {
    var counted := Reserve(run.limits, usage, TokenCount(tokens));
    var candidate := ApplyAll(env.rule, c.state, updates);
    if counted.Ok? && candidate.Ok? {
      EffectsIgnoreNodes(env, run, counted.value.steps, c.current, candidate.value, counted.value, [], c.log, effects,
                         0);
      EffectsDoNotSuspend(env, run, counted.value.steps, c.current, candidate.value, counted.value, [], c.log,
                          effects, 0);
    }
  }

  lemma {:induction false} CountersIgnoreNodes(env: Env, job: Job, i: nat)
    requires i <= |job.effects| && i <= U32_MAX + 1 && (env.executor.None? ==> i == 0)
    ensures CountersAt(Unsuspended(env), job, i) == CountersAt(env, job, i)
  {
    if i > 0 {
      CountersIgnoreNodes(env, job, i - 1);
    }
  }

  lemma NodeDidAsContinued(env: Env, g: CompiledGraph, run: RunInfo, node: NodeId, before: Snapshot, used: Usage,
                           receipts: seq<EffectReceipt>)
    requires NodeDid(env, g, run, node, before, used, receipts)
    ensures NodeDid(Unsuspended(env), g, run, node, before, used, receipts)
  {
    var plain, granted := Unsuspended(env), used.(steps := used.steps + 1);
    var verdict := env.run(Behaviour(g.nodes[node]), before, View(run, granted)).verdict;
    assert plain.run(Behaviour(g.nodes[node]), before, View(run, granted))
           == Continued(env.run(Behaviour(g.nodes[node]), before, View(run, granted)));
    var counted := CountedAfter(env, g, run, node, before, used);
    assert CountedAfter(plain, g, run, node, before, used) == counted;
    var job := Job(run, granted.steps, node, counted.value, verdict.effects);
    forall i | 0 <= i < |receipts| ensures ReceiptFor(plain, job, i, receipts[i]) {
      assert ReceiptFor(env, job, i, receipts[i]);
      CountersIgnoreNodes(env, job, i);
    }
  }

  /** What a run performed does not depend on whether its nodes suspended. */
  lemma {:induction false} PerformedAsContinued(env: Env, g: CompiledGraph, run: RunInfo, visited: seq<NodeId>,
                                                receipts: seq<EffectReceipt>)
    requires Performed(env, g, run, visited, receipts)
    ensures Performed(Unsuspended(env), g, run, visited, receipts)
    decreases |visited|
  {
    if visited != [] {
      var n := |visited| - 1;
      var k: nat, before: Snapshot, used: Usage :|
        && k <= |receipts| && used.steps == n && Performed(env, g, run, visited[..n], receipts[..k])
        && NodeDid(env, g, run, visited[n], before, used, receipts[k..]);
      PerformedAsContinued(env, g, run, visited[..n], receipts[..k]);
      NodeDidAsContinued(env, g, run, visited[n], before, used, receipts[k..]);
    }
  }

  predicate SuspendsAtEnd(e: RunError) {
    e.SuspendAtEnd?
  }

  /** The guard of the one failing branch: the node about to run sits at an End and
      answers with a suspension. */
  predicate AsksAtEnd(env: Env, g: CompiledGraph, run: RunInfo, c: Config) {
    && c.current in g.transitions && g.transitions[c.current].End?
    && Start(env, g, run, c).Ok? && Start(env, g, run, c).value.1.Suspend?
  }

  /** One iteration with and without suspension: a pause is an advance, and only
      suspending at an End node is an error of its own. */
  lemma UnsuspendedStep(env: Env, g: CompiledGraph, run: RunInfo, c: Config)
    ensures var plain := StepOnce(Unsuspended(env), g, run, true, c);
            && !plain.Pause? && (plain.Abort? ==> !SuspendsAtEnd(plain.error))
            && var end := StepOnce(env, g, run, true, c);
            && (end.Pause? ==> plain == Advance(end.paused))
            && (!end.Pause? && !AsksAtEnd(env, g, run, c) ==> plain == end)
            && (AsksAtEnd(env, g, run, c) ==> end == Abort(SuspendAtEnd(c.current), c.log) && !plain.Advance?)
  {
    match Start(env, g, run, c)
    case Err(_) =>
    case Ok((usage, verdict)) =>
      WorkIgnoresNodes(env, run, c, usage, verdict.updates, verdict.effects, verdict.tokens);
  }

  /** The last iteration of the run whose nodes never suspend. */
  ghost function PlainLast(env: Env, g: CompiledGraph, run: RunInfo, c: Config): Config
    requires StepLimit(run.limits, g.maxSteps) < U32_MAX
  {
    LastBefore(Unsuspended(env), g, run, true, c)
  }

  /** A stretch and the run without suspensions make the same steps, up to a pause or
      to a suspension asked for at an End. */
  lemma {:induction false} UnsuspendedRun(env: Env, g: CompiledGraph, run: RunInfo, c: Config)
    requires StepLimit(run.limits, g.maxSteps) < U32_MAX
    ensures var plain := Execute(Unsuspended(env), g, run, true, c);
            && !plain.RunPaused? && (plain.RunAborted? ==> !SuspendsAtEnd(plain.error))
            && var end, last := Execute(env, g, run, true, c), PlainLast(env, g, run, c);
            && (end.RunPaused? ==>
                  && c.usage.steps < end.paused.usage.steps && last == PlainLast(env, g, run, end.paused)
                  && plain == Execute(Unsuspended(env), g, run, true, end.paused))
            && (!end.RunPaused? ==>
                  if AsksAtEnd(env, g, run, last) then end.RunAborted? && SuspendsAtEnd(end.error) else plain == end)
    decreases U32_MAX - c.usage.steps
  {
    UnsuspendedStep(env, g, run, c);
    StepUsesOneStep(env, g, run, true, c);
    match StepOnce(env, g, run, true, c)
    case Advance(next) => UnsuspendedRun(env, g, run, next);
    case Pause(next, _) => UnsuspendedRun(env, g, run, next);
    case Finish(_) =>
    case Abort(_, _) =>
  }

  /** Suspending is invisible: resumed every time with an input that changes nothing,
      a run gives the answer (state, visits, receipts, counters, or error) and makes
      the executor calls that it would have made had its nodes continued instead; all
      of it unless the last iteration of that other run is at a node that sits at an
      End and asks to suspend. Any schedule of cancellations and deadlines is allowed. */
  lemma {:induction false} SuspensionIsTransparent(env: Env, g: CompiledGraph, run: RunInfo, store: Store, c: Config,
                                                   newId: CheckpointId, ids: nat -> CheckpointId,
                                                   inputs: nat -> ResumeInput)
    requires Tame(g, run) && Sound(env, g, run, c) && Supply(store, newId, ids, c.usage.steps)
    requires forall n :: env.resumeUpdates(inputs(n)) == []
    ensures var first := Stretch(env, g, run, store, c.log, newId, c);
            var plain := Stretch(Unsuspended(env), g, run, store, c.log, newId, c);
            && Bounded(g, first.answer)
            && var driven := Drive(env, g, first, ids, inputs);
            && (driven.answer == plain.answer <==> !AsksAtEnd(env, g, run, PlainLast(env, g, run, c)))
            && (driven.answer == plain.answer ==> driven.calls == plain.calls)
    decreases U32_MAX - c.usage.steps
  {
    UnsuspendedRun(env, g, run, c);
    PlainRunEnds(env, g, run, store, c, newId, ids, inputs);
    match Execute(env, g, run, true, c)
    case RunCompleted(_) => EndedStaysEnded(env, g, run, store, c, newId, ids, inputs);
    case RunAborted(_, _) => EndedStaysEnded(env, g, run, store, c, newId, ids, inputs);
    case RunPaused(p, request) =>
      PausedGoesOn(env, g, run, store, c, newId, p, request, ids, inputs);
      assert p.(state := p.state) == p;
      var checkpoint := CheckpointOf(newId, env, g, run, p, request);
      SupplyLasts(store, newId, ids, c.usage.steps, checkpoint, p.usage.steps);
      SuspensionIsTransparent(env, g, run, Spent(store, checkpoint), p, ids(p.usage.steps), ids, inputs);
      PlainRunEnds(env, g, run, Spent(store, checkpoint), p, ids(p.usage.steps), ids, inputs);
  }

  /** The run whose nodes continue ends within its first stretch. */
  lemma PlainRunEnds(env: Env, g: CompiledGraph, run: RunInfo, store: Store, c: Config, newId: CheckpointId,
                     ids: nat -> CheckpointId, inputs: nat -> ResumeInput)
    requires Tame(g, run) && Sound(env, g, run, c) && !Known(store, newId)
    ensures var plain := Execute(Unsuspended(env), g, run, true, c);
            var first := Stretch(Unsuspended(env), g, run, store, c.log, newId, c);
            !plain.RunPaused? && first.calls == LogOf(plain)
            && Reports(Unsuspended(env), g, run, store, newId, plain, first)
  {
    UnsuspendedRun(env, g, run, c);
    PerformedAsContinued(env, g, run, c.visited, c.receipts);
    EndedStaysEnded(Unsuspended(env), g, run, store, c, newId, ids, inputs);
  }

  /** No node at an End is ever asked to suspend. */
  ghost predicate EndsDoNotSuspend(env: Env, g: CompiledGraph) {
    forall n, state, view ::
      n in g.nodes && n in g.transitions && g.transitions[n].End? ==>
        !env.run(Behaviour(g.nodes[n]), state, view).verdict.Suspend?
  }

  /** Then suspending is invisible outright, and so the condition can be read off the
      nodes of the graph. */
  lemma TransparentUnlessEndsSuspend(env: Env, g: CompiledGraph, run: RunInfo, store: Store, c: Config,
                                     newId: CheckpointId, ids: nat -> CheckpointId, inputs: nat -> ResumeInput)
    requires Tame(g, run) && Sound(env, g, run, c) && Supply(store, newId, ids, c.usage.steps)
    requires forall n :: env.resumeUpdates(inputs(n)) == []
    requires EndsDoNotSuspend(env, g)
    ensures var first := Stretch(env, g, run, store, c.log, newId, c);
            var plain := Stretch(Unsuspended(env), g, run, store, c.log, newId, c);
            && Bounded(g, first.answer)
            && Drive(env, g, first, ids, inputs).answer == plain.answer
            && Drive(env, g, first, ids, inputs).calls == plain.calls
  {
    SuspensionIsTransparent(env, g, run, store, c, newId, ids, inputs);
  }

  /** A graph of one node, at an End. */
  function SingleNode(maxSteps: NonZeroU32): CompiledGraph {
    CompiledGraph("g", 1, map["n" := Task("n", 0)], "n", map["n" := End], maxSteps)
  }

  /** The same application with nodes that do nothing but suspend, never interrupted. */
  function Suspending(env: Env, request: SuspendRequest): Env {
    env.(run := (_, _, _) => NodeRun([], Suspend([], [], 0, request)), interrupt := (_, _) => None)
  }

  /** Where they do: the run fails in its first step, and completes had the node
      continued instead. */
  lemma SuspendingAtAnEndFails(env: Env, request: SuspendRequest, run: RunInfo, store: Store, state: Snapshot,
                               newId: CheckpointId, maxSteps: NonZeroU32)
    requires state.outcome.Some? && StepLimit(run.limits, maxSteps) < U32_MAX
    ensures var e, g, c := Suspending(env, request), SingleNode(maxSteps), Config(state, NO_USAGE, "n", [], [], []);
            && Tame(g, run) && Sound(env, g, run, c) && AsksAtEnd(e, g, run, PlainLast(e, g, run, c))
            && Stretch(e, g, run, store, [], newId, c).answer == Err(RunFailed(Graph(SuspendAtEnd("n"))))
            && Stretch(Unsuspended(e), g, run, store, [], newId, c).answer
               == Ok(Completed(RunResult(state, Usage(1, 0, 0, 0), ["n"], run.id, [])))
  {
    var e, g, c := Suspending(env, request), SingleNode(maxSteps), Config(state, NO_USAGE, "n", [], [], []);
    assert TransitionsOk(g.nodes, g.transitions);
    StartOfRun(env, g, run, state);
    assert ReserveAll(run.limits, Usage(1, 0, 0, 0), []) == Usage(1, 0, 0, 0);
    assert StepOnce(e, g, run, true, c) == Abort(SuspendAtEnd("n"), []);
    assert StepOnce(Unsuspended(e), g, run, true, c) == Finish(Config(state, Usage(1, 0, 0, 0), "n", ["n"], [], []));
  }
}
