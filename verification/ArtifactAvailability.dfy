// How long a stored artifact stays available
// (personal-secretary-mysql/src/repo/mysql_artifact.rs, mysql_recall.rs, mysql_inbound.rs).
module ArtifactAvailability {
  import opened Wrappers
  import opened Recalls

  /** The step invalidates the artifacts of this source outright. */
  predicate Invalidates(step: Step, source: string) {
    step == Invalidate(source)
  }

  /** The step expires artifacts at a time not below this limit. */
  predicate Expires(step: Step, ttl: Option<int>) {
    step.Expire? && ttl.Some? && ttl.value <= step.now
  }

  /** A row once stored keeps its source and its limit; only its availability may change, and
      only from available to recalled or expired. */
  predicate SameArtifact(a: Artifact, b: Artifact) {
    && b.source == a.source && b.ttl == a.ttl
    && (b.availability == a.availability
        || (a.availability == Available && b.availability in {RecalledContent, ExpiredContent}))
  }

  lemma RecalledStaysRecalled(s: State, book: map<string, Conversation>, step: Step, source: string)
    requires Inv(s, book) && IsRecalled(s, source)
    ensures IsRecalled(Perform(s, step), source)
  {
    var key :| key in s.tombstones && s.tombstones[key].applied && s.tombstones[key].source == Some(source);
    var t := Perform(s, step);
    assert key in s.recalls;
    assert key in t.tombstones && t.tombstones[key] == s.tombstones[key];
  }

  lemma AppliedRecalls(s: State, key: string, source: string, a: ArtifactId)
    requires a in s.artifacts
    ensures var t := ApplyPending(s, key, source);
            && a in t.artifacts
            && (t.artifacts[a] == s.artifacts[a]
                || (s.artifacts[a].source == source && s.artifacts[a].availability == Available
                    && IsRecalled(t, source) && t.artifacts[a] == s.artifacts[a].(availability := RecalledContent)))
  {
    var t := ApplyPending(s, key, source);
    if key in s.tombstones && !s.tombstones[key].applied {
      assert t.tombstones[key].applied && t.tombstones[key].source == Some(source);
    }
  }

  lemma RecordedRecalls(s: State, c: Conversation, m: string, a: ArtifactId)
    requires a in s.artifacts
    ensures var t := RecordRecall(s, c, m);
            && a in t.artifacts
            && (t.artifacts[a] == s.artifacts[a]
                || (s.artifacts[a].source == m && s.artifacts[a].availability == Available
                    && IsRecalled(t, m) && t.artifacts[a] == s.artifacts[a].(availability := RecalledContent)))
  {
    var t, key := RecordRecall(s, c, m), Key(c, m);
    if key !in s.recalls && m in s.events && s.events[m] == c {
      assert t.tombstones[key].applied && t.tombstones[key].source == Some(m);
    }
  }

  /** One step ends an artifact's availability iff its own source is recalled by then, or the
      step invalidates its own source, or expires it. */
  lemma StepEndsExactly(s: State, book: map<string, Conversation>, step: Step, a: ArtifactId)
    requires Inv(s, book) && Allowed(book, step) && a in s.artifacts
    ensures var t, row := Perform(s, step), s.artifacts[a];
            && a in t.artifacts && SameArtifact(row, t.artifacts[a])
            && (row.availability == Available ==>
                  (t.artifacts[a].availability == Available <==>
                     !IsRecalled(t, row.source) && !Invalidates(step, row.source) && !Expires(step, row.ttl)))
  {
    StepKeeps(s, book, step);
    var t := Perform(s, step);
    assert a in t.artifacts && ArtifactOk(s, a) by {
      StepKeepsArtifact(s, step, a);
    }
    assert ArtifactOk(t, a);
    match step
    case DeliverMessage(c, m) =>
      AppliedRecalls(if m in s.events then s else s.(events := s.events[m := c]), Key(c, m), m, a);
    case RecallMessage(c, m) => RecordedRecalls(s, c, m, a);
    case ApplyLater(c, m) => AppliedRecalls(s, Key(c, m), m, a);
    case StoreArtifact(_, _, _, _) => assert t.tombstones == s.tombstones;
    case Invalidate(_) => assert t.tombstones == s.tombstones;
    case Expire(_) => assert t.tombstones == s.tombstones;
  }

  lemma StepKeepsArtifact(s: State, step: Step, a: ArtifactId)
    requires a in s.artifacts
    ensures a in Perform(s, step).artifacts
  {
  }

  predicate NeverEnds(steps: seq<Step>, row: Artifact) {
    forall i :: 0 <= i < |steps| ==> !Invalidates(steps[i], row.source) && !Expires(steps[i], row.ttl)
  }

  /** Over every run an available artifact is available at the end iff by then its own source
      is not recalled, and no step invalidated its own source or expired it. */
  lemma {:induction false} AvailableExactly(s: State, book: map<string, Conversation>, steps: seq<Step>, a: ArtifactId)
    requires Inv(s, book) && forall i :: 0 <= i < |steps| ==> Allowed(book, steps[i])
    requires a in s.artifacts
    ensures var t, row := PerformAll(s, steps), s.artifacts[a];
            && a in t.artifacts && SameArtifact(row, t.artifacts[a])
            && (IsRecalled(s, row.source) ==> IsRecalled(t, row.source))
            && (row.availability != Available ==> t.artifacts[a] == row)
            && (row.availability == Available ==>
                  (t.artifacts[a].availability == Available <==> !IsRecalled(t, row.source) && NeverEnds(steps, row)))
    decreases |steps|
  {
    var row := s.artifacts[a];
    if steps == [] {
      assert ArtifactOk(s, a);
    } else {
      var next := Perform(s, steps[0]);
      StepEndsExactly(s, book, steps[0], a);
      StepKeeps(s, book, steps[0]);
      AvailableExactly(next, book, steps[1..], a);
      if IsRecalled(s, row.source) {
        RecalledStaysRecalled(s, book, steps[0], row.source);
      }
      assert NeverEnds(steps, row) <==>
             !Invalidates(steps[0], row.source) && !Expires(steps[0], row.ttl) && NeverEnds(steps[1..], row) by {
        assert forall i :: 0 < i < |steps| ==> steps[i] == steps[1..][i - 1];
        assert forall i :: 0 <= i < |steps[1..]| ==> steps[1..][i] == steps[i + 1];
      }
    }
  }

  /** In the terms of a whole run: an artifact of a delivered message, stored available after
      some steps, is available at the end iff the message was not recalled at any time, and no
      later step invalidated the message's artifacts or expired this one. */
  lemma StoredStaysAvailableExactly(book: map<string, Conversation>, before: seq<Step>, later: seq<Step>,
                                    c: Conversation, m: string, id: ArtifactId, ttl: Option<int>)
    requires ColonFree(c.id) && Delivered(before, c, m)
    requires forall i :: 0 <= i < |before| ==> Allowed(book, before[i])
    requires forall i :: 0 <= i < |later| ==> Allowed(book, later[i])
    requires id !in PerformAll(NEW_STATE, before).artifacts
    ensures var stored := Perform(PerformAll(NEW_STATE, before), StoreArtifact(id, m, Available, ttl));
            var t := PerformAll(stored, later);
            && id in t.artifacts && t.artifacts[id].source == m && t.artifacts[id].ttl == ttl
            && (t.artifacts[id].availability == Available <==>
                  && !Recalled(before, c, m) && !Recalled(later, c, m)
                  && NeverEnds(later, Artifact(m, Available, ttl)))
  {
    var s := PerformAll(NEW_STATE, before);
    RunRecords(NEW_STATE, book, before, c, m);
    RecallsConverge(book, before, c, m);
    var store := StoreArtifact(id, m, Available, ttl);
    var stored := Perform(s, store);
    StepKeeps(s, book, store);
    RunRecords(stored, book, later, c, m);
    AvailableExactly(stored, book, later, id);
    var t := PerformAll(stored, later);
    RecalledByKey(t, book, c, m);
    assert IsRecalled(stored, m) <==> IsRecalled(s, m);
  }

  /** A delivered message counts as recalled iff its own recall is recorded. */
  lemma RecalledByKey(s: State, book: map<string, Conversation>, c: Conversation, m: string)
    requires Inv(s, book) && ColonFree(c.id) && m in s.events && s.events[m] == c
    ensures IsRecalled(s, m) <==> Key(c, m) in s.recalls
  {
    var key := Key(c, m);
    if key in s.recalls {
      assert TombstoneOk(s, key);
      KeysDiffer(c, m, s.tombstones[key].conversation, s.tombstones[key].message);
    }
    if k :| k in s.tombstones && s.tombstones[k].applied && s.tombstones[k].source == Some(m) {
      assert TombstoneOk(s, k);
    }
  }

  /** What storing does: an unknown source or a known id changes nothing; otherwise the row is
      as asked for, except that content of a recalled message is stored as recalled. */
  lemma StoresExactly(s: State, id: ArtifactId, source: string, availability: Availability, ttl: Option<int>)
    ensures var t := CreateArtifact(s, id, source, availability, ttl);
            && t == s.(artifacts := t.artifacts)
            && (forall a :: a != id ==> (a in t.artifacts <==> a in s.artifacts)
                                        && (a in s.artifacts ==> t.artifacts[a] == s.artifacts[a]))
            && (id in t.artifacts <==> id in s.artifacts || source in s.events)
            && (id in s.artifacts ==> t.artifacts[id] == s.artifacts[id])
            && (id !in s.artifacts && source in s.events ==>
                  && t.artifacts[id].source == source && t.artifacts[id].ttl == ttl
                  && t.artifacts[id].availability == if IsRecalled(s, source) then RecalledContent else availability)
  {
  }
}
