// Many callers at once: runs that are started, suspended and resumed concurrently
// against one store. Loading, validating and taking a checkpoint are separate
// moments, and so is every iteration of every run
// (agent-core/src/graph/runtime.rs, checkpoint_store.rs).
module Resumption {
  import opened Wrappers
  import opened Integers
  import opened AgentStates
  import opened Budgets
  import opened Graphs
  import opened Definitions
  import opened Checkpoints
  import opened Runtime
  import opened RunTheorems

  /** One call of the runtime: a resume between its load and its take, a run between
      two iterations, a run that completed, or a call that returned otherwise. */
  datatype Caller =
    | Validated(checkpoint: Checkpoint, resumed: Config)
    | Running(run: RunInfo, config: Config)
    | Finished(run: RunInfo, last: Config)
    | Returned

  datatype World = World(
    store: Store,
    started: set<RunId>,
    callers: map<nat, Caller>,
    log: seq<EffectId>)

  const NEW_WORLD := World(EMPTY_STORE, {}, map[], [])

  datatype Action =
    | Begin(caller: nat, run: RunInfo, state: Snapshot)
    | Load(caller: nat, id: CheckpointId, input: ResumeInput)
    | Take(caller: nat)
    | Iterate(caller: nat, newId: CheckpointId)

  function With(w: World, caller: nat, state: Caller): map<nat, Caller> {
    w.callers[caller := state]
  }

  /** The configuration validated is the one continued, if the checkpoint is still there. */
  function TakeNow(w: World, caller: nat, checkpoint: Checkpoint, resumed: Config): World {
    match Serve(w.store, TakeCall(checkpoint.id))
    case (after, Found(_)) =>
      w.(store := after, callers := With(w, caller, Running(RunOf(checkpoint), resumed)))
    case (_, _) => w.(callers := With(w, caller, Returned))
  }

  /** One iteration; the executor calls it made join the common log. */
  function IterateNow(env: Env, g: CompiledGraph, w: World, caller: nat, run: RunInfo, c: Config,
                      newId: CheckpointId): World {
    match StepOnce(env, g, run, true, c)
    case Advance(next) =>
      w.(callers := With(w, caller, Running(run, next)), log := w.log + NewCalls(c.log, next.log))
    case Finish(last) =>
      w.(callers := With(w, caller, Finished(run, last)), log := w.log + NewCalls(c.log, last.log))
    case Abort(_, log) =>
      w.(callers := With(w, caller, Returned), log := w.log + NewCalls(c.log, log))
    case Pause(paused, request) =>
      var saved := if 1 <= paused.usage.steps
                   then Serve(w.store, SaveCall(CheckpointOf(newId, env, g, run, paused, request))).0 else w.store;
      w.(store := saved, callers := With(w, caller, Returned), log := w.log + NewCalls(c.log, paused.log))
  }

  /** What an action does; one that does not apply does nothing. */
  function Perform(env: Env, g: CompiledGraph, w: World, a: Action): World {
    match a
    case Begin(p, run, state) =>
      if p in w.callers || run.id in w.started || StepLimit(run.limits, g.maxSteps) == U32_MAX then w
      else w.(started := w.started + {run.id},
              callers := With(w, p, Running(run, Config(state, NO_USAGE, g.entry, [], [], []))))
    case Load(p, id, input) =>
      if p in w.callers then w
      else if id in w.store.live && Admit(env, g, w.store.live[id], input).Ok?
      then w.(callers := With(w, p, Validated(w.store.live[id], Admit(env, g, w.store.live[id], input).value)))
      else w.(callers := With(w, p, Returned))
    case Take(p) =>
      if p in w.callers && w.callers[p].Validated?
      then TakeNow(w, p, w.callers[p].checkpoint, w.callers[p].resumed) else w
    case Iterate(p, newId) =>
      if p in w.callers && w.callers[p].Running?
      then IterateNow(env, g, w, p, w.callers[p].run, w.callers[p].config, newId) else w
  }

  function PerformAll(env: Env, g: CompiledGraph, w: World, actions: seq<Action>): World
    decreases |actions|
  {
    if actions == [] then w else PerformAll(env, g, Perform(env, g, w, actions[0]), actions[1..])
  }

  // ---- The invariant ----

  function Kept(checkpoint: Checkpoint): Config {
    Config(checkpoint.state, checkpoint.usage, checkpoint.nextNode, checkpoint.visited, checkpoint.receipts,
           Ids(checkpoint.receipts))
  }

  /** The common log holds exactly the calls a run's own configuration records. */
  predicate Accounted(log: seq<EffectId>, run: RunId, own: seq<EffectId>) {
    && (forall e :: e in own ==> e in log)
    && (forall e :: e in log && e.run == run ==> e in own)
  }

  ghost predicate Sane(env: Env, g: CompiledGraph, log: seq<EffectId>, started: set<RunId>, run: RunInfo, c: Config) {
    && run.id in started && StepLimit(run.limits, g.maxSteps) < U32_MAX
    && Sound(env, g, run, c) && Accounted(log, run.id, c.log)
  }

  ghost predicate RunningSane(env: Env, g: CompiledGraph, w: World) {
    forall p :: p in w.callers && w.callers[p].Running? ==>
      Sane(env, g, w.log, w.started, w.callers[p].run, w.callers[p].config)
  }

  /** A completed run is a walk to an End, and the executor calls ever made for it,
      over all its resumes, are those of its receipts. */
  ghost predicate Done(env: Env, g: CompiledGraph, log: seq<EffectId>, started: set<RunId>, run: RunInfo,
                       last: Config) {
    run.id in started && EndedWell(env, g, run, last) && Accounted(log, run.id, Ids(last.receipts))
  }

  ghost predicate FinishedSane(env: Env, g: CompiledGraph, w: World) {
    forall p :: p in w.callers && w.callers[p].Finished? ==>
      Done(env, g, w.log, w.started, w.callers[p].run, w.callers[p].last)
  }

  ghost predicate LiveSane(env: Env, g: CompiledGraph, w: World) {
    forall id :: id in w.store.live ==>
      && w.store.live[id].id == id && Sane(env, g, w.log, w.started, RunOf(w.store.live[id]), Kept(w.store.live[id]))
  }

  predicate Holds(caller: Caller) {
    caller.Running? || caller.Finished?
  }

  /** A run is held by one running or finished call or by one live checkpoint, never by two. */
  predicate OneHolder(w: World) {
    && (forall p, q :: p in w.callers && q in w.callers && p != q && Holds(w.callers[p]) && Holds(w.callers[q])
          ==> w.callers[p].run.id != w.callers[q].run.id)
    && (forall i, j :: i in w.store.live && j in w.store.live && i != j
          ==> w.store.live[i].runId != w.store.live[j].runId)
    && (forall p, i :: p in w.callers && Holds(w.callers[p]) && i in w.store.live
          ==> w.callers[p].run.id != w.store.live[i].runId)
  }

  /** A validated checkpoint is still the stored one, or is consumed. */
  predicate Current(g: CompiledGraph, w: World) {
    forall p :: p in w.callers && w.callers[p].Validated? ==>
      var cp := w.callers[p].checkpoint;
      && (cp.id in w.store.consumed || IsLive(w.store, cp))
      && cp.nextNode in g.nodes && w.callers[p].resumed == Kept(cp).(state := w.callers[p].resumed.state)
  }

  predicate LogSane(w: World) {
    NoDuplicates(w.log) && forall e :: e in w.log ==> e.run in w.started
  }

  ghost predicate Inv(env: Env, g: CompiledGraph, w: World) {
    && Separate(w.store) && RunningSane(env, g, w) && FinishedSane(env, g, w) && LiveSane(env, g, w)
    && OneHolder(w) && Current(g, w) && LogSane(w)
  }

  // ---- Every action keeps it ----

  lemma BeginKeeps(env: Env, g: CompiledGraph, w: World, a: Action)
    requires WellFormed(g) && Inv(env, g, w) && a.Begin?
    ensures Inv(env, g, Perform(env, g, w, a))
  {
    StartOfRun(env, g, a.run, a.state);
  }

  lemma AdmittedKeepsAll(env: Env, g: CompiledGraph, checkpoint: Checkpoint, input: ResumeInput)
    requires Admit(env, g, checkpoint, input).Ok?
    ensures var resumed := Admit(env, g, checkpoint, input).value;
            checkpoint.nextNode in g.nodes && resumed == Kept(checkpoint).(state := resumed.state)
  {
  }

  lemma CallerJoins(env: Env, g: CompiledGraph, w: World, p: nat, caller: Caller)
    requires Inv(env, g, w) && p !in w.callers && !Holds(caller)
    requires caller.Validated? ==>
               && IsLive(w.store, caller.checkpoint) && caller.checkpoint.nextNode in g.nodes
               && caller.resumed == Kept(caller.checkpoint).(state := caller.resumed.state)
    ensures Inv(env, g, w.(callers := With(w, p, caller)))
  {
    var w' := w.(callers := With(w, p, caller));
    assert forall q :: q in w'.callers && Holds(w'.callers[q]) ==> q in w.callers && w'.callers[q] == w.callers[q];
    assert RunningSane(env, g, w') && FinishedSane(env, g, w') && LiveSane(env, g, w') && OneHolder(w');
  }

  lemma LoadKeeps(env: Env, g: CompiledGraph, w: World, a: Action)
    requires Inv(env, g, w) && a.Load?
    ensures Inv(env, g, Perform(env, g, w, a))
  {
    if a.caller !in w.callers {
      if a.id in w.store.live && Admit(env, g, w.store.live[a.id], a.input).Ok? {
        AdmittedKeepsAll(env, g, w.store.live[a.id], a.input);
        CallerJoins(env, g, w, a.caller,
                    Validated(w.store.live[a.id], Admit(env, g, w.store.live[a.id], a.input).value));
      } else {
        CallerJoins(env, g, w, a.caller, Returned);
      }
    }
  }

  /** Handing the run on: to the same caller's next iteration. */
  lemma RunGoesOn(env: Env, g: CompiledGraph, w: World, p: nat, run: RunInfo, next: Config)
    requires Inv(env, g, w) && Sane(env, g, w.log, w.started, run, next)
    requires p in w.callers && w.callers[p].Returned?
    requires forall q :: q in w.callers && Holds(w.callers[q]) ==> w.callers[q].run.id != run.id
    requires forall i :: i in w.store.live ==> w.store.live[i].runId != run.id
    ensures Inv(env, g, w.(callers := With(w, p, Running(run, next))))
  {
  }

  /** Or to its caller, once it has completed. */
  lemma RunEnds(env: Env, g: CompiledGraph, w: World, p: nat, run: RunInfo, last: Config)
    requires Inv(env, g, w) && Done(env, g, w.log, w.started, run, last)
    requires p in w.callers && w.callers[p].Returned?
    requires forall q :: q in w.callers && Holds(w.callers[q]) ==> w.callers[q].run.id != run.id
    requires forall i :: i in w.store.live ==> w.store.live[i].runId != run.id
    ensures Inv(env, g, w.(callers := With(w, p, Finished(run, last))))
  {
  }

  lemma CallerReturns(env: Env, g: CompiledGraph, w: World, p: nat)
    requires Inv(env, g, w) && p in w.callers && !Holds(w.callers[p])
    ensures Inv(env, g, w.(callers := With(w, p, Returned)))
  {
  }

  /** A taken checkpoint holds its run no longer. */
  lemma TakeReleases(env: Env, g: CompiledGraph, w: World, id: CheckpointId)
    requires Inv(env, g, w) && id in w.store.live
    ensures Inv(env, g, w.(store := Serve(w.store, TakeCall(id)).0))
  {
    var w' := w.(store := Serve(w.store, TakeCall(id)).0);
    assert RunningSane(env, g, w') && FinishedSane(env, g, w') && LiveSane(env, g, w') && OneHolder(w');
  }

  /** Resume updates change the state only. */
  lemma ResumedIsSane(env: Env, g: CompiledGraph, w: World, cp: Checkpoint, state: Snapshot)
    requires Inv(env, g, w) && IsLive(w.store, cp)
    ensures Sane(env, g, w.log, w.started, RunOf(cp), Kept(cp).(state := state))
  {
    assert Sane(env, g, w.log, w.started, RunOf(cp), Kept(cp));
  }

  /** A run that nobody holds goes to a caller that holds nothing. */
  lemma CallerTakesRun(env: Env, g: CompiledGraph, w: World, p: nat, run: RunInfo, resumed: Config)
    requires Inv(env, g, w) && p in w.callers && !Holds(w.callers[p])
    requires Sane(env, g, w.log, w.started, run, resumed)
    requires forall q :: q in w.callers && Holds(w.callers[q]) ==> w.callers[q].run.id != run.id
    requires forall i :: i in w.store.live ==> w.store.live[i].runId != run.id
    ensures Inv(env, g, w.(callers := With(w, p, Running(run, resumed))))
  {
    CallerReturns(env, g, w, p);
    var between := w.(callers := With(w, p, Returned));
    RunGoesOn(env, g, between, p, run, resumed);
    assert With(between, p, Running(run, resumed)) == With(w, p, Running(run, resumed));
  }

  lemma TakeHandsOver(env: Env, g: CompiledGraph, w: World, p: nat, cp: Checkpoint, resumed: Config)
    requires Inv(env, g, w) && p in w.callers && w.callers[p] == Validated(cp, resumed) && IsLive(w.store, cp)
    ensures Inv(env, g, w.(store := Serve(w.store, TakeCall(cp.id)).0,
                           callers := With(w, p, Running(RunOf(cp), resumed))))
  {
    ResumedIsSane(env, g, w, cp, resumed.state);
    TakeReleases(env, g, w, cp.id);
    CallerTakesRun(env, g, w.(store := Serve(w.store, TakeCall(cp.id)).0), p, RunOf(cp), resumed);
  }

  lemma TakeKeeps(env: Env, g: CompiledGraph, w: World, a: Action)
    requires Inv(env, g, w) && a.Take?
    ensures Inv(env, g, Perform(env, g, w, a))
  {
    var p := a.caller;
    if p in w.callers && w.callers[p].Validated? {
      var cp, resumed := w.callers[p].checkpoint, w.callers[p].resumed;
      if cp.id in w.store.live {
        assert IsLive(w.store, cp);
        TakeHandsOver(env, g, w, p, cp, resumed);
      } else {
        CallerReturns(env, g, w, p);
      }
    }
  }

  /** A run's new calls are new to the common log, and account for it afterwards. */
  lemma NewCallsAreNew(w: World, run: RunId, visited: seq<NodeId>, before: seq<EffectId>, after: seq<EffectId>)
    requires LogSane(w) && run in w.started && Accounted(w.log, run, before)
    requires before <= after && Trail(after, run, visited)
    ensures LogSane(w.(log := w.log + NewCalls(before, after)))
    ensures Accounted(w.log + NewCalls(before, after), run, after)
    ensures forall e: EffectId :: e.run != run ==> (e in w.log + NewCalls(before, after) <==> e in w.log)
  {
    var more := NewCalls(before, after);
    TrailHasNoRepeats(after, run, visited);
    assert after == before + more;
    forall e | e in more ensures e.run == run && e !in before && e !in w.log {
      var i :| 0 <= i < |more| && more[i] == e;
      assert after[|before| + i] == e;
    }
    var all := w.log + more;
    forall i, j | 0 <= i < j < |all| ensures all[i] != all[j] {
      if i < |w.log| <= j {
        assert all[j] == more[j - |w.log|] && all[j] in more;
      } else if |w.log| <= i {
        assert all[i] == after[|before| + i - |w.log|] && all[j] == after[|before| + j - |w.log|];
      }
    }
  }

  lemma OthersStaySane(env: Env, g: CompiledGraph, w: World, log: seq<EffectId>, run: RunId, other: RunInfo, c: Config)
    requires Sane(env, g, w.log, w.started, other, c) && other.id != run
    requires forall e: EffectId :: e.run != run ==> (e in log <==> e in w.log)
    ensures Sane(env, g, log, w.started, other, c)
  {
    assert forall e :: e in c.log ==> e.run == other.id;
  }

  lemma OthersStayDone(env: Env, g: CompiledGraph, w: World, log: seq<EffectId>, run: RunId, other: RunInfo,
                       last: Config)
    requires Done(env, g, w.log, w.started, other, last) && other.id != run
    requires forall e: EffectId :: e.run != run ==> (e in log <==> e in w.log)
    ensures Done(env, g, log, w.started, other, last)
  {
    assert forall e :: e in Ids(last.receipts) ==> e.run == other.id;
  }

  /** The other callers and checkpoints, once a run has made its calls. */
  lemma IterationKeepsOthers(env: Env, g: CompiledGraph, w: World, p: nat, after: seq<EffectId>)
    requires Inv(env, g, w) && p in w.callers && w.callers[p].Running?
    requires w.callers[p].config.log <= after
    requires exists visited :: Trail(after, w.callers[p].run.id, visited)
    ensures var run, log := w.callers[p].run.id, w.log + NewCalls(w.callers[p].config.log, after);
            Inv(env, g, w.(callers := With(w, p, Returned), log := log)) && Accounted(log, run, after)
  {
    var run, c := w.callers[p].run, w.callers[p].config;
    assert Sane(env, g, w.log, w.started, run, c);
    var visited :| Trail(after, run.id, visited);
    NewCallsAreNew(w, run.id, visited, c.log, after);
    var log := w.log + NewCalls(c.log, after);
    forall q | q in w.callers && q != p && w.callers[q].Running?
      ensures Sane(env, g, log, w.started, w.callers[q].run, w.callers[q].config)
    {
      OthersStaySane(env, g, w, log, run.id, w.callers[q].run, w.callers[q].config);
    }
    forall q | q in w.callers && w.callers[q].Finished?
      ensures Done(env, g, log, w.started, w.callers[q].run, w.callers[q].last)
    {
      OthersStayDone(env, g, w, log, run.id, w.callers[q].run, w.callers[q].last);
    }
    forall id | id in w.store.live
      ensures Sane(env, g, log, w.started, RunOf(w.store.live[id]), Kept(w.store.live[id]))
    {
      OthersStaySane(env, g, w, log, run.id, RunOf(w.store.live[id]), Kept(w.store.live[id]));
    }
  }

  /** Or to a checkpoint under an id the store does not know. */
  lemma RunIsKept(env: Env, g: CompiledGraph, w: World, checkpoint: Checkpoint)
    requires Inv(env, g, w) && Sane(env, g, w.log, w.started, RunOf(checkpoint), Kept(checkpoint))
    requires !Known(w.store, checkpoint.id)
    requires forall q :: q in w.callers && Holds(w.callers[q]) ==> w.callers[q].run.id != checkpoint.runId
    requires forall i :: i in w.store.live ==> w.store.live[i].runId != checkpoint.runId
    ensures Inv(env, g, w.(store := Serve(w.store, SaveCall(checkpoint)).0))
  {
  }

  lemma AdvanceKeeps(env: Env, g: CompiledGraph, w: World, p: nat, run: RunInfo, c: Config, next: Config)
    requires WellFormed(g) && Inv(env, g, w) && p in w.callers && w.callers[p] == Running(run, c)
    requires Sound(env, g, run, next) && c.log <= next.log
    ensures Inv(env, g, w.(callers := With(w, p, Running(run, next)), log := w.log + NewCalls(c.log, next.log)))
  {
    assert Sane(env, g, w.log, w.started, run, c);
    IterationKeepsOthers(env, g, w, p, next.log);
    var between := w.(callers := With(w, p, Returned), log := w.log + NewCalls(c.log, next.log));
    RunGoesOn(env, g, between, p, run, next);
    assert With(between, p, Running(run, next)) == With(w, p, Running(run, next));
  }

  lemma PauseKeeps(env: Env, g: CompiledGraph, w: World, p: nat, run: RunInfo, c: Config, paused: Config,
                   request: SuspendRequest, newId: CheckpointId)
    requires WellFormed(g) && Inv(env, g, w) && p in w.callers && w.callers[p] == Running(run, c)
    requires StepOnce(env, g, run, true, c) == Pause(paused, request)
    ensures 1 <= paused.usage.steps
    ensures Inv(env, g, w.(store := Serve(w.store, SaveCall(CheckpointOf(newId, env, g, run, paused, request))).0,
                      callers := With(w, p, Returned), log := w.log + NewCalls(c.log, paused.log)))
  {
    assert Sane(env, g, w.log, w.started, run, c);
    StepIsSound(env, g, run, true, c);
    StepUsesOneStep(env, g, run, true, c);
    IterationKeepsOthers(env, g, w, p, paused.log);
    var between := w.(callers := With(w, p, Returned), log := w.log + NewCalls(c.log, paused.log));
    var checkpoint := CheckpointOf(newId, env, g, run, paused, request);
    assert Kept(checkpoint) == paused && RunOf(checkpoint) == run;
    if !Known(w.store, newId) {
      RunIsKept(env, g, between, checkpoint);
    }
  }

  lemma FinishKeeps(env: Env, g: CompiledGraph, w: World, p: nat, run: RunInfo, c: Config, last: Config)
    requires WellFormed(g) && Inv(env, g, w) && p in w.callers && w.callers[p] == Running(run, c)
    requires EndedWell(env, g, run, last) && c.log <= last.log
    ensures Inv(env, g, w.(callers := With(w, p, Finished(run, last)), log := w.log + NewCalls(c.log, last.log)))
  {
    assert Sane(env, g, w.log, w.started, run, c);
    IterationKeepsOthers(env, g, w, p, last.log);
    var between := w.(callers := With(w, p, Returned), log := w.log + NewCalls(c.log, last.log));
    RunEnds(env, g, between, p, run, last);
    assert With(between, p, Finished(run, last)) == With(w, p, Finished(run, last));
  }

  lemma IterateKeeps(env: Env, g: CompiledGraph, w: World, a: Action)
    requires WellFormed(g) && Inv(env, g, w) && a.Iterate?
    ensures Inv(env, g, Perform(env, g, w, a))
  {
    var p := a.caller;
    if p in w.callers && w.callers[p].Running? {
      var run, c := w.callers[p].run, w.callers[p].config;
      assert Sane(env, g, w.log, w.started, run, c);
      StepIsSound(env, g, run, true, c);
      match StepOnce(env, g, run, true, c)
      case Abort(_, log) => IterationKeepsOthers(env, g, w, p, log);
      case Finish(last) => FinishKeeps(env, g, w, p, run, c, last);
      case Advance(next) => AdvanceKeeps(env, g, w, p, run, c, next);
      case Pause(paused, request) => PauseKeeps(env, g, w, p, run, c, paused, request, a.newId);
    }
  }

  /** In every reachable world, however callers interleave: no effect was ever handed
      to the executor twice; every run is held by at most one caller or checkpoint;
      and the log holds exactly the receipts of every run held or completed. */
  lemma {:induction false} EveryWorldIsSafe(env: Env, g: CompiledGraph, w: World, actions: seq<Action>)
    requires WellFormed(g) && Inv(env, g, w)
    ensures Inv(env, g, PerformAll(env, g, w, actions))
    decreases |actions|
  {
    if actions != [] {
      match actions[0] {
        case Begin(_, _, _) => BeginKeeps(env, g, w, actions[0]);
        case Load(_, _, _) => LoadKeeps(env, g, w, actions[0]);
        case Take(_) => TakeKeeps(env, g, w, actions[0]);
        case Iterate(_, _) => IterateKeeps(env, g, w, actions[0]);
      }
      EveryWorldIsSafe(env, g, Perform(env, g, w, actions[0]), actions[1..]);
    }
  }

  lemma NoEffectIsDispatchedTwice(env: Env, g: CompiledGraph, actions: seq<Action>)
    requires WellFormed(g)
    ensures NoDuplicates(PerformAll(env, g, NEW_WORLD, actions).log)
  {
    EveryWorldIsSafe(env, g, NEW_WORLD, actions);
  }

  /** The executor calls ever made for a completed run, whoever resumed it and however
      often, are exactly those its receipts name; each was made once. */
  lemma CompletedRunsAreAccounted(env: Env, g: CompiledGraph, actions: seq<Action>, p: nat)
    requires WellFormed(g)
    requires var w := PerformAll(env, g, NEW_WORLD, actions); p in w.callers && w.callers[p].Finished?
    ensures var w := PerformAll(env, g, NEW_WORLD, actions);
            var run, last := w.callers[p].run, w.callers[p].last;
            && EndedWell(env, g, run, last) && NoDuplicates(Ids(last.receipts))
            && (forall e: EffectId :: e.run == run.id ==> (e in w.log <==> e in Ids(last.receipts)))
  {
    EveryWorldIsSafe(env, g, NEW_WORLD, actions);
    var w := PerformAll(env, g, NEW_WORLD, actions);
    assert Done(env, g, w.log, w.started, w.callers[p].run, w.callers[p].last);
    TrailHasNoRepeats(w.callers[p].last.log, w.callers[p].run.id, w.callers[p].last.visited);
  }

  /** An action that changes the store: a take of a live checkpoint, or a pause under a new id. */
  predicate ChangesStore(env: Env, g: CompiledGraph, w: World, a: Action) {
    match a
    case Take(p) => p in w.callers && w.callers[p].Validated? && w.callers[p].checkpoint.id in w.store.live
    case Iterate(p, newId) =>
      && p in w.callers && w.callers[p].Running? && !Known(w.store, newId)
      && StepOnce(env, g, w.callers[p].run, true, w.callers[p].config).Pause?
    case _ => false
  }

  lemma StepChangesStoreExactly(env: Env, g: CompiledGraph, w: World, a: Action)
    requires WellFormed(g) && Inv(env, g, w)
    ensures Perform(env, g, w, a).store != w.store <==> ChangesStore(env, g, w, a)
  {
    match a
    case Iterate(p, newId) =>
      if p in w.callers && w.callers[p].Running? {
        var run, c := w.callers[p].run, w.callers[p].config;
        assert Sane(env, g, w.log, w.started, run, c);
        StepUsesOneStep(env, g, run, true, c);
        var end := StepOnce(env, g, run, true, c);
        if end.Pause? && !Known(w.store, newId) {
          assert newId in Perform(env, g, w, a).store.live;
        }
      }
    case Take(p) =>
      if ChangesStore(env, g, w, a) {
        assert w.callers[p].checkpoint.id !in Perform(env, g, w, a).store.live;
      }
    case _ =>
  }

  predicate NeverChangesStore(env: Env, g: CompiledGraph, w: World, actions: seq<Action>)
    decreases |actions|
  {
    actions == []
    || (!ChangesStore(env, g, w, actions[0]) && NeverChangesStore(env, g, Perform(env, g, w, actions[0]), actions[1..]))
  }

  predicate StoreNeverMoves(env: Env, g: CompiledGraph, w: World, actions: seq<Action>)
    decreases |actions|
  {
    actions == []
    || var next := Perform(env, g, w, actions[0]);
       next.store == w.store && StoreNeverMoves(env, g, next, actions[1..])
  }

  /** However loads, refused validations, lost races for a take and iterations interleave, the
      store stays as it is throughout a run iff nobody takes a live checkpoint or pauses. */
  lemma {:induction false} OnlyTakesAndPausesChangeTheStore(env: Env, g: CompiledGraph, w: World, actions: seq<Action>)
    requires WellFormed(g) && Inv(env, g, w)
    ensures StoreNeverMoves(env, g, w, actions) <==> NeverChangesStore(env, g, w, actions)
    ensures NeverChangesStore(env, g, w, actions) ==> PerformAll(env, g, w, actions).store == w.store
    decreases |actions|
  {
    if actions != [] {
      StepChangesStoreExactly(env, g, w, actions[0]);
      EveryWorldIsSafe(env, g, w, [actions[0]]);
      assert [actions[0]][1..] == [];
      var next := Perform(env, g, w, actions[0]);
      assert PerformAll(env, g, w, [actions[0]]) == PerformAll(env, g, next, []);
      OnlyTakesAndPausesChangeTheStore(env, g, next, actions[1..]);
    }
  }
}
