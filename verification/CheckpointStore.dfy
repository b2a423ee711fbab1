// Effect identities, checkpoints and the store that keeps them
// (agent-core/src/graph/effect.rs, checkpoint.rs, checkpoint_store.rs).
module Checkpoints {
  import opened Wrappers
  import opened Integers
  import opened AgentStates
  import opened Budgets
  import opened Graphs

  type RunId(==,!new)
  type CheckpointId(==,!new)
  type Receipt(==,!new)
  type SuspendData(==,!new)

  datatype EffectId = EffectId(run: RunId, step: NonZeroU32, node: NodeId, ordinal: U32)

  datatype EffectReceipt = EffectReceipt(id: EffectId, value: Receipt)

  datatype SuspendReason = ExternalInput | Approval | ExternalEvent | BusinessReason

  datatype SuspendRequest = SuspendRequest(reason: SuspendReason, data: SuspendData)

  datatype Checkpoint = Checkpoint(
    id: CheckpointId,
    graphId: string,
    graphVersion: NonZeroU32,
    schemaVersion: nat,
    runId: RunId,
    completedStep: NonZeroU32,
    nextNode: NodeId,
    state: Snapshot,
    limits: Limits,
    usage: Usage,
    visited: seq<NodeId>,
    receipts: seq<EffectReceipt>,
    suspend: SuspendRequest)

  datatype CheckpointError = NotFound(id: CheckpointId) | Duplicate(id: CheckpointId)

  /** The value of a store: saved checkpoints not yet taken, and every id taken. */
  datatype Store = Store(live: map<CheckpointId, Checkpoint>, consumed: set<CheckpointId>)

  const EMPTY_STORE := Store(map[], {})

  /** An id is known once a checkpoint was saved under it, taken since or not. */
  predicate Known(s: Store, id: CheckpointId) {
    id in s.live || id in s.consumed
  }

  predicate IsLive(s: Store, checkpoint: Checkpoint) {
    checkpoint.id in s.live && s.live[checkpoint.id] == checkpoint
  }

  predicate Separate(s: Store) {
    s.live.Keys !! s.consumed
  }

  datatype Call = SaveCall(checkpoint: Checkpoint) | LoadCall(id: CheckpointId) | TakeCall(id: CheckpointId)

  datatype Reply = Saved | Found(checkpoint: Checkpoint) | Refused(error: CheckpointError)

  /** One call under the store's lock. */
  function Serve(s: Store, call: Call): (Store, Reply) {
    match call
    case SaveCall(cp) =>
      if Known(s, cp.id) then (s, Refused(Duplicate(cp.id)))
      else (s.(live := s.live[cp.id := cp]), Saved)
    case LoadCall(id) =>
      (s, if id in s.live then Found(s.live[id]) else Refused(NotFound(id)))
    case TakeCall(id) =>
      if id in s.live then (Store(s.live - {id}, s.consumed + {id}), Found(s.live[id]))
      else (s, Refused(NotFound(id)))
  }

  class InMemoryCheckpointStore {
    var checkpoints: map<CheckpointId, Checkpoint>
    var consumed: set<CheckpointId>

    function Value(): Store
      reads this
    {
      Store(checkpoints, consumed)
    }

    constructor New()
      ensures Value() == EMPTY_STORE
    {
      checkpoints, consumed := map[], {};
    }

    method Save(checkpoint: Checkpoint) returns (error: Option<CheckpointError>)
      modifies this
      ensures (Value(), if error == None then Saved else Refused(error.value))
              == Serve(old(Value()), SaveCall(checkpoint))
    {
      if checkpoint.id in checkpoints || checkpoint.id in consumed {
        return Some(Duplicate(checkpoint.id));
      }
      checkpoints := checkpoints[checkpoint.id := checkpoint];
      return None;
    }

    method Load(id: CheckpointId) returns (r: Result<Checkpoint, CheckpointError>)
      ensures (Value(), if r.Ok? then Found(r.value) else Refused(r.error)) == Serve(Value(), LoadCall(id))
    {
      if id !in checkpoints {
        return Err(NotFound(id));
      }
      return Ok(checkpoints[id]);
    }

    method Take(id: CheckpointId) returns (r: Result<Checkpoint, CheckpointError>)
      modifies this
      ensures (Value(), if r.Ok? then Found(r.value) else Refused(r.error)) == Serve(old(Value()), TakeCall(id))
    {
      if id !in checkpoints {
        return Err(NotFound(id));
      }
      r := Ok(checkpoints[id]);
      checkpoints := checkpoints - {id};
      consumed := consumed + {id};
    }
  }

  // ---- Every interleaving of every client's calls ----

  /** The store after a sequence of calls, whoever made them. */
  function After(s: Store, calls: seq<Call>): Store
    decreases |calls|
  {
    if calls == [] then s else After(Serve(s, calls[0]).0, calls[1..])
  }

  function ReplyTo(s: Store, calls: seq<Call>, i: nat): Reply
    requires i < |calls|
  {
    Serve(After(s, calls[..i]), calls[i]).1
  }

  lemma {:induction false} AfterSplits(s: Store, a: seq<Call>, b: seq<Call>)
    ensures After(s, a + b) == After(After(s, a), b)
    decreases |a|
  {
    if a == [] {
      assert a + b == b;
    } else {
      assert (a + b)[0] == a[0] && (a + b)[1..] == a[1..] + b;
      AfterSplits(Serve(s, a[0]).0, a[1..], b);
    }
  }

  /** What may still happen to an id: a consumed one stays consumed for ever, a
      live one keeps its checkpoint until it is consumed, and the two never mix. */
  predicate Fate(before: Store, after: Store, id: CheckpointId) {
    && (id in before.consumed ==> id in after.consumed && id !in after.live)
    && (id in before.live ==> id in after.consumed || (id in after.live && after.live[id] == before.live[id]))
  }

  lemma {:induction false} FateOfIds(s: Store, calls: seq<Call>)
    requires Separate(s)
    ensures Separate(After(s, calls))
    ensures forall id :: Fate(s, After(s, calls), id)
    decreases |calls|
  {
    if calls != [] {
      var next := Serve(s, calls[0]).0;
      FateOfIds(next, calls[1..]);
      forall id ensures Fate(s, After(s, calls), id) {
        assert Fate(s, next, id) && Fate(next, After(next, calls[1..]), id);
      }
    }
  }

  /** The store between two of the calls. */
  lemma FateBetween(s: Store, calls: seq<Call>, i: nat, j: nat)
    requires Separate(s) && i < j <= |calls|
    ensures var before, after := After(s, calls[..i]), After(s, calls[..j]);
            && Separate(before) && Separate(after)
            && forall id :: Fate(Serve(before, calls[i]).0, after, id)
  {
    FateOfIds(s, calls[..i]);
    FateOfIds(s, calls[..j]);
    assert calls[..j] == calls[..i] + calls[i..j];
    AfterSplits(s, calls[..i], calls[i..j]);
    assert calls[i..j][0] == calls[i];
    FateOfIds(Serve(After(s, calls[..i]), calls[i]).0, calls[i..j][1..]);
  }

  /** However calls interleave, at most one take of an id succeeds. */
  lemma TakenAtMostOnce(s: Store, calls: seq<Call>, i: nat, j: nat)
    requires Separate(s) && i < j < |calls|
    requires calls[i].TakeCall? && calls[j] == calls[i]
    ensures !(ReplyTo(s, calls, i).Found? && ReplyTo(s, calls, j).Found?)
  {
    FateBetween(s, calls, i, j);
    var id := calls[i].id;
    assert Fate(Serve(After(s, calls[..i]), calls[i]).0, After(s, calls[..j]), id);
  }

  /** The checkpoint a client loaded is the one any later take hands out. */
  lemma LoadedIsTaken(s: Store, calls: seq<Call>, i: nat, j: nat)
    requires Separate(s) && i < j < |calls|
    requires calls[i].LoadCall? && calls[j] == TakeCall(calls[i].id)
    requires ReplyTo(s, calls, i).Found? && ReplyTo(s, calls, j).Found?
    ensures ReplyTo(s, calls, i) == ReplyTo(s, calls, j)
  {
    FateBetween(s, calls, i, j);
    assert Fate(Serve(After(s, calls[..i]), calls[i]).0, After(s, calls[..j]), calls[i].id);
  }

  /** And it is the one that was saved under that id. */
  lemma SavedIsHandedOut(s: Store, calls: seq<Call>, i: nat, j: nat)
    requires Separate(s) && i < j < |calls| && calls[i].SaveCall? && ReplyTo(s, calls, i) == Saved
    requires calls[j] == LoadCall(calls[i].checkpoint.id) || calls[j] == TakeCall(calls[i].checkpoint.id)
    ensures ReplyTo(s, calls, j).Found? ==> ReplyTo(s, calls, j) == Found(calls[i].checkpoint)
  {
    FateBetween(s, calls, i, j);
    assert Fate(Serve(After(s, calls[..i]), calls[i]).0, After(s, calls[..j]), calls[i].checkpoint.id);
  }

  /** A used id is never saved again, whether its checkpoint was taken or not. */
  lemma SavedAtMostOnce(s: Store, calls: seq<Call>, i: nat, j: nat)
    requires Separate(s) && i < j < |calls|
    requires calls[i].SaveCall? && calls[j].SaveCall? && calls[i].checkpoint.id == calls[j].checkpoint.id
    ensures ReplyTo(s, calls, j).Refused?
  {
    FateBetween(s, calls, i, j);
    assert Fate(Serve(After(s, calls[..i]), calls[i]).0, After(s, calls[..j]), calls[i].checkpoint.id);
  }

  /** The ids a sequence of calls took. */
  ghost function TakenIds(s: Store, calls: seq<Call>): set<CheckpointId> {
    set i | 0 <= i < |calls| && calls[i].TakeCall? && ReplyTo(s, calls, i).Found? :: calls[i].id
  }

  /** consumed records exactly the ids some take succeeded on. */
  lemma {:induction false} ConsumedIsTaken(s: Store, calls: seq<Call>)
    ensures After(s, calls).consumed == s.consumed + TakenIds(s, calls)
    decreases |calls|
  {
    if calls == [] {
    } else {
      var front, last := calls[..|calls| - 1], calls[|calls| - 1];
      ConsumedIsTaken(s, front);
      assert calls == front + [last];
      AfterSplits(s, front, [last]);
      assert forall i :: 0 <= i < |front| ==> front[..i] == calls[..i];
      assert forall i :: 0 <= i < |front| ==> ReplyTo(s, front, i) == ReplyTo(s, calls, i);
      assert After(s, calls) == Serve(After(s, front), last).0;
      var taken := if last.TakeCall? && ReplyTo(s, calls, |front|).Found? then {last.id} else {};
      assert TakenIds(s, calls) == TakenIds(s, front) + taken by {
        assert calls[|front|] == last;
        forall i | 0 <= i < |front| && front[i].TakeCall? && ReplyTo(s, front, i).Found?
          ensures front[i].id in TakenIds(s, calls)
        {
          assert calls[i] == front[i];
        }
      }
    }
  }
}
