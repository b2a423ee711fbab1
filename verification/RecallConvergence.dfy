// Recalls that may arrive before the message they recall, and the artifacts they
// make unavailable, for one account
// (personal-secretary-mysql/src/repo/mysql_recall.rs, mysql_inbound.rs, mysql_artifact.rs).
module Recalls {
  import opened Wrappers

  type ArtifactId(==,!new)

  datatype ConversationKind = Private | Group | OwnerControl

  datatype Conversation = Conversation(kind: ConversationKind, id: string)

  datatype Tombstone = Tombstone(conversation: Conversation, message: string, source: Option<string>, applied: bool)

  datatype Availability = Available | ExpiredContent | RecalledContent | OwnerDeleted | PolicyBlocked

  datatype Artifact = Artifact(source: string, availability: Availability, ttl: Option<int>)

  /** Events are known by their platform message id, which is unique in an account. */
  datatype State = State(
    events: map<string, Conversation>,
    recalls: set<string>,
    tombstones: map<string, Tombstone>,
    artifacts: map<ArtifactId, Artifact>)

  // ---- The correlation key ----

  function KindName(kind: ConversationKind): string {
    match kind
    case Private => "private"
    case Group => "group"
    case OwnerControl => "owner_control"
  }

  /** Channel and account come first in every key and are the same for all of them. */
  function Key(c: Conversation, m: string): string {
    KindName(c.kind) + ":" + (c.id + ":" + m)
  }

  predicate ColonFree(s: string) {
    forall i :: 0 <= i < |s| ==> s[i] != ':'
  }

  lemma SplitsAtFirstColon(a: string, x: string, b: string, y: string)
    requires ColonFree(a) && ColonFree(b) && a + ":" + x == b + ":" + y
    ensures a == b && x == y
  {
    var s := a + ":" + x;
    var t := b + ":" + y;
    assert s[|a|] == ':' && t[|b|] == ':';
    assert forall i :: 0 <= i < |a| ==> s[i] == a[i];
    assert forall i :: 0 <= i < |b| ==> t[i] == b[i];
    assert a == s[..|a|] && b == t[..|b|];
    assert x == s[|a| + 1..] && y == t[|b| + 1..];
  }

  lemma KindNamesAreColonFree(kind: ConversationKind)
    ensures ColonFree(KindName(kind))
  {
  }

  lemma KindNamesDiffer(k: ConversationKind, l: ConversationKind)
    requires KindName(k) == KindName(l)
    ensures k == l
  {
    assert |"private"| == 7 && |"group"| == 5 && |"owner_control"| == 13;
  }

  /** Among conversation ids without a colon, keys tell messages apart. */
  lemma KeysDiffer(c: Conversation, m: string, d: Conversation, n: string)
    requires ColonFree(c.id) && ColonFree(d.id) && Key(c, m) == Key(d, n)
    ensures c == d && m == n
  {
    KindNamesAreColonFree(c.kind);
    KindNamesAreColonFree(d.kind);
    SplitsAtFirstColon(KindName(c.kind), c.id + ":" + m, KindName(d.kind), d.id + ":" + n);
    SplitsAtFirstColon(c.id, m, d.id, n);
    KindNamesDiffer(c.kind, d.kind);
  }

  ghost predicate SharesItsKey(c: Conversation, m: string) {
    exists d, n :: Key(c, m) == Key(d, n) && (d != c || n != m)
  }

  /** A message shares its key with another one exactly if its conversation id or its
      own id contains a colon. */
  lemma SharedKeysExactly(c: Conversation, m: string)
    ensures SharesItsKey(c, m) <==> !(ColonFree(c.id) && ColonFree(m))
  {
    if !ColonFree(m) {
      var i :| 0 <= i < |m| && m[i] == ':';
      var d, n := Conversation(c.kind, c.id + ":" + m[..i]), m[i + 1..];
      assert m == m[..i] + ":" + n;
      assert c.id + ":" + m == d.id + ":" + n;
      assert |n| < |m|;
      assert Key(c, m) == Key(d, n);
    } else if !ColonFree(c.id) {
      var i :| 0 <= i < |c.id| && c.id[i] == ':';
      var d, n := Conversation(c.kind, c.id[..i]), c.id[i + 1..] + ":" + m;
      assert c.id == c.id[..i] + ":" + c.id[i + 1..];
      assert c.id + ":" + m == d.id + ":" + n;
      assert |d.id| < |c.id|;
      assert Key(c, m) == Key(d, n);
    } else if SharesItsKey(c, m) {
      var d, n :| Key(c, m) == Key(d, n) && (d != c || n != m);
      KindNamesAreColonFree(c.kind);
      KindNamesAreColonFree(d.kind);
      SplitsAtFirstColon(KindName(c.kind), c.id + ":" + m, KindName(d.kind), d.id + ":" + n);
      KindNamesDiffer(c.kind, d.kind);
      OneColonOnly(c.id, m, d.id, n);
    }
  }

  lemma OneColonOnly(a: string, x: string, b: string, y: string)
    requires ColonFree(a) && ColonFree(x) && a + ":" + x == b + ":" + y
    ensures a == b && x == y
  {
    var s := a + ":" + x;
    assert s[|b|] == ':' by {
      assert (b + ":" + y)[|b|] == ':';
    }
    assert forall i :: 0 <= i < |a| ==> s[i] == a[i];
    assert forall i :: |a| < i < |s| ==> s[i] == x[i - |a| - 1];
    assert a == s[..|a|] && b == s[..|b|];
    assert x == s[|a| + 1..] && y == s[|b| + 1..];
  }

  // ---- The transactions ----

  function Invalidated(artifacts: map<ArtifactId, Artifact>, source: string): map<ArtifactId, Artifact> {
    map a | a in artifacts ::
      if artifacts[a].source == source && artifacts[a].availability == Available
      then artifacts[a].(availability := RecalledContent) else artifacts[a]
  }

  /** Turns a pending tombstone under the key into an applied one for the event. */
  function ApplyPending(s: State, key: string, source: string): State {
    if key in s.tombstones && !s.tombstones[key].applied
    then s.(tombstones := s.tombstones[key := s.tombstones[key].(source := Some(source), applied := true)],
            artifacts := Invalidated(s.artifacts, source))
    else s
  }

  /** The part of a message's delivery that concerns recalls; a repeated delivery does it again. */
  function Deliver(s: State, c: Conversation, m: string): State {
    ApplyPending(if m in s.events then s else s.(events := s.events[m := c]), Key(c, m), m)
  }

  function RecordRecall(s: State, c: Conversation, m: string): State {
    var key := Key(c, m);
    if key in s.recalls then s
    else if m in s.events && s.events[m] == c then
      s.(recalls := s.recalls + {key}, tombstones := s.tombstones[key := Tombstone(c, m, Some(m), true)],
         artifacts := Invalidated(s.artifacts, m))
    else
      s.(recalls := s.recalls + {key}, tombstones := s.tombstones[key := Tombstone(c, m, None, false)])
  }

  predicate IsRecalled(s: State, source: string) {
    exists key :: key in s.tombstones && s.tombstones[key].applied && s.tombstones[key].source == Some(source)
  }

  /** An artifact of a recalled event is stored as recalled; an existing id is kept. */
  function CreateArtifact(s: State, id: ArtifactId, source: string, availability: Availability,
                          ttl: Option<int>): State {
    if source !in s.events || id in s.artifacts then s
    else
      var shown := if IsRecalled(s, source) then RecalledContent else availability;
      s.(artifacts := s.artifacts[id := Artifact(source, shown, ttl)])
  }

  function ExpireDue(s: State, now: int): State {
    s.(artifacts := map a | a in s.artifacts ::
                      if s.artifacts[a].ttl.Some? && s.artifacts[a].ttl.value <= now
                         && s.artifacts[a].availability == Available
                      then s.artifacts[a].(availability := ExpiredContent) else s.artifacts[a])
  }

  datatype TombstoneStatus = Pending | Applied | IdempotentReapply

  class MySqlRecallStore {
    var events: map<string, Conversation>
    var recalls: set<string>
    var tombstones: map<string, Tombstone>
    var artifacts: map<ArtifactId, Artifact>

    function Value(): State
      reads this
    {
      State(events, recalls, tombstones, artifacts)
    }

    method InvalidateForRecall(source: string) returns (affected: nat)
      modifies this`artifacts
      ensures artifacts == Invalidated(old(artifacts), source)
      ensures affected == |set a | a in old(artifacts) && old(artifacts)[a].source == source
                                   && old(artifacts)[a].availability == Available|
    {
      affected := |set a | a in artifacts && artifacts[a].source == source && artifacts[a].availability == Available|;
      artifacts := map a | a in artifacts ::
        if artifacts[a].source == source && artifacts[a].availability == Available
        then artifacts[a].(availability := RecalledContent) else artifacts[a];
    }

    method ApplyPendingTombstone(c: Conversation, m: string, source: string) returns (applied: bool)
      modifies this
      ensures Value() == ApplyPending(old(Value()), Key(c, m), source)
      ensures applied <==> Key(c, m) in old(tombstones) && !old(tombstones)[Key(c, m)].applied
    {
      var key := Key(c, m);
      if key !in tombstones || tombstones[key].applied {
        return false;
      }
      tombstones := tombstones[key := tombstones[key].(source := Some(source), applied := true)];
      var _ := InvalidateForRecall(source);
      return true;
    }

    method IngestMessage(c: Conversation, m: string)
      modifies this
      ensures Value() == Deliver(old(Value()), c, m)
    {
      if m !in events {
        events := events[m := c];
      }
      var _ := ApplyPendingTombstone(c, m, m);
    }

    method RecordRecallEvent(c: Conversation, m: string) returns (status: TombstoneStatus)
      modifies this
      ensures Value() == RecordRecall(old(Value()), c, m)
      ensures status == if Key(c, m) in old(recalls) then IdempotentReapply
                        else if m in old(events) && old(events)[m] == c then Applied else Pending
    {
      var key := Key(c, m);
      if key in recalls {
        return IdempotentReapply;
      }
      recalls := recalls + {key};
      if m in events && events[m] == c {
        tombstones := tombstones[key := Tombstone(c, m, Some(m), true)];
        var _ := InvalidateForRecall(m);
        return Applied;
      }
      tombstones := tombstones[key := Tombstone(c, m, None, false)];
      return Pending;
    }

    method ExpireDueArtifacts(now: int)
      modifies this`artifacts
      ensures Value() == ExpireDue(old(Value()), now)
    {
      artifacts := map a | a in artifacts ::
        if artifacts[a].ttl.Some? && artifacts[a].ttl.value <= now && artifacts[a].availability == Available
        then artifacts[a].(availability := ExpiredContent) else artifacts[a];
    }

    method CreateArtifactEnvelope(id: ArtifactId, source: string, availability: Availability, ttl: Option<int>)
      returns (stored: bool)
      modifies this`artifacts
      ensures Value() == CreateArtifact(old(Value()), id, source, availability, ttl)
      ensures stored <==> source in events
    {
      if source !in events {
        return false;
      }
      if id !in artifacts {
        var shown := if IsRecalled(Value(), source) then RecalledContent else availability;
        artifacts := artifacts[id := Artifact(source, shown, ttl)];
      }
      return true;
    }
  }

  // ---- Convergence ----

  datatype Step =
    | DeliverMessage(conversation: Conversation, message: string)
    | RecallMessage(conversation: Conversation, message: string)
    | ApplyLater(conversation: Conversation, message: string)
    | StoreArtifact(id: ArtifactId, source: string, availability: Availability, ttl: Option<int>)
    | Invalidate(source: string)
    | Expire(now: int)

  /** ApplyLater is the service's own look for a tombstone once a message is stored. */
  function Perform(s: State, step: Step): State {
    match step
    case DeliverMessage(c, m) => Deliver(s, c, m)
    case RecallMessage(c, m) => RecordRecall(s, c, m)
    case ApplyLater(c, m) => if m in s.events && s.events[m] == c then ApplyPending(s, Key(c, m), m) else s
    case StoreArtifact(id, source, availability, ttl) => CreateArtifact(s, id, source, availability, ttl)
    case Invalidate(source) => s.(artifacts := Invalidated(s.artifacts, source))
    case Expire(now) => ExpireDue(s, now)
  }

  /** A message id belongs to one conversation of the account, and no conversation id
      contains a colon. */
  predicate Allowed(book: map<string, Conversation>, step: Step) {
    match step
    case DeliverMessage(c, m) => m in book && book[m] == c && ColonFree(c.id)
    case RecallMessage(c, m) => ColonFree(c.id)
    case _ => true
  }

  predicate TombstoneOk(s: State, key: string)
    requires key in s.tombstones
  {
    var t := s.tombstones[key];
    && key == Key(t.conversation, t.message) && ColonFree(t.conversation.id)
    && (t.applied <==> t.message in s.events && s.events[t.message] == t.conversation)
    && t.source == if t.applied then Some(t.message) else None
  }

  predicate ArtifactOk(s: State, a: ArtifactId)
    requires a in s.artifacts
  {
    s.artifacts[a].availability == Available ==> !IsRecalled(s, s.artifacts[a].source)
  }

  predicate Inv(s: State, book: map<string, Conversation>) {
    && s.tombstones.Keys == s.recalls
    && (forall m :: m in s.events ==> m in book && book[m] == s.events[m] && ColonFree(s.events[m].id))
    && (forall key :: key in s.tombstones ==> TombstoneOk(s, key))
    && (forall a :: a in s.artifacts ==> ArtifactOk(s, a))
  }

  /** Which event a change of tombstones newly recalls: this one and no other. */
  lemma RecallingOne(s: State, t: State, source: string)
    requires forall m :: m != source ==> (IsRecalled(t, m) ==> IsRecalled(s, m))
    requires forall a :: a in s.artifacts ==> ArtifactOk(s, a)
    requires t.artifacts == Invalidated(s.artifacts, source)
    ensures forall a :: a in t.artifacts ==> ArtifactOk(t, a)
  {
    forall a | a in t.artifacts ensures ArtifactOk(t, a) {
      assert ArtifactOk(s, a);
    }
  }

  lemma ApplyKeeps(s: State, book: map<string, Conversation>, c: Conversation, m: string, before: State)
    requires Inv(before, book) && m in book && book[m] == c && ColonFree(c.id)
    requires s == before.(events := before.events[m := c])
    requires m in before.events ==> before.events[m] == c
    ensures Inv(ApplyPending(s, Key(c, m), m), book)
  {
    var key, t := Key(c, m), ApplyPending(s, Key(c, m), m);
    forall k | k in t.tombstones ensures TombstoneOk(t, k) {
      assert TombstoneOk(before, k);
      if before.tombstones[k].message == m && before.tombstones[k].conversation == c {
        assert k == key;
      } else if k == key {
        KeysDiffer(c, m, before.tombstones[k].conversation, before.tombstones[k].message);
      }
    }
    forall n | n != m && IsRecalled(t, n) ensures IsRecalled(before, n) {
      var k :| k in t.tombstones && t.tombstones[k].applied && t.tombstones[k].source == Some(n);
      assert k != key || before.tombstones[k].applied;
    }
    if key in s.tombstones && !s.tombstones[key].applied {
      RecallingOne(before, t, m);
    } else {
      ArtifactsStay(before, t);
    }
  }

  lemma ArtifactsStay(s: State, t: State)
    requires forall a :: a in s.artifacts ==> ArtifactOk(s, a)
    requires t.artifacts == s.artifacts && t.tombstones == s.tombstones
    ensures forall a :: a in t.artifacts ==> ArtifactOk(t, a)
  {
    assert forall m :: IsRecalled(t, m) ==> IsRecalled(s, m);
    forall a | a in t.artifacts ensures ArtifactOk(t, a) {
      assert ArtifactOk(s, a);
    }
  }

  lemma RecordKeeps(s: State, book: map<string, Conversation>, c: Conversation, m: string)
    requires Inv(s, book) && ColonFree(c.id)
    ensures Inv(RecordRecall(s, c, m), book)
  {
    var key, t := Key(c, m), RecordRecall(s, c, m);
    if key !in s.recalls {
      forall k | k in t.tombstones ensures TombstoneOk(t, k) {
        if k != key {
          assert TombstoneOk(s, k);
        }
      }
      forall n | n != m && IsRecalled(t, n) ensures IsRecalled(s, n) {
        var k :| k in t.tombstones && t.tombstones[k].applied && t.tombstones[k].source == Some(n);
        assert k != key;
      }
      if m in s.events && s.events[m] == c {
        RecallingOne(s, t, m);
      } else {
        forall n | IsRecalled(t, n) ensures IsRecalled(s, n) {
          var k :| k in t.tombstones && t.tombstones[k].applied && t.tombstones[k].source == Some(n);
          assert k != key;
        }
        forall a | a in t.artifacts ensures ArtifactOk(t, a) {
          assert ArtifactOk(s, a);
        }
      }
    }
  }

  /** Steps that touch only artifacts, and only to make them less available. */
  lemma ArtifactStepKeeps(s: State, book: map<string, Conversation>, t: State)
    requires Inv(s, book) && t == s.(artifacts := t.artifacts)
    requires forall a :: a in t.artifacts && t.artifacts[a].availability == Available ==>
               !IsRecalled(s, t.artifacts[a].source)
    ensures Inv(t, book)
  {
    forall k | k in t.tombstones ensures TombstoneOk(t, k) {
      assert TombstoneOk(s, k);
    }
    forall a | a in t.artifacts ensures ArtifactOk(t, a) {
    }
  }

  lemma StepKeeps(s: State, book: map<string, Conversation>, step: Step)
    requires Inv(s, book) && Allowed(book, step)
    ensures Inv(Perform(s, step), book)
  {
    match step
    case DeliverMessage(c, m) =>
      ApplyKeeps(s.(events := s.events[m := c]), book, c, m, s);
      assert m in s.events ==> s.events[m := c] == s.events;
    case RecallMessage(c, m) => RecordKeeps(s, book, c, m);
    case ApplyLater(c, m) =>
      if m in s.events && s.events[m] == c {
        assert s.events[m := c] == s.events;
        ApplyKeeps(s, book, c, m, s);
      }
    case StoreArtifact(id, source, availability, ttl) =>
      var t := CreateArtifact(s, id, source, availability, ttl);
      forall a | a in t.artifacts && t.artifacts[a].availability == Available
        ensures !IsRecalled(s, t.artifacts[a].source)
      {
        assert a in s.artifacts ==> ArtifactOk(s, a);
      }
      ArtifactStepKeeps(s, book, t);
    case Invalidate(source) =>
      assert forall a :: a in s.artifacts ==> ArtifactOk(s, a);
      ArtifactStepKeeps(s, book, s.(artifacts := Invalidated(s.artifacts, source)));
    case Expire(now) =>
      assert forall a :: a in s.artifacts ==> ArtifactOk(s, a);
      ArtifactStepKeeps(s, book, ExpireDue(s, now));
  }

  function PerformAll(s: State, steps: seq<Step>): State
    decreases |steps|
  {
    if steps == [] then s else PerformAll(Perform(s, steps[0]), steps[1..])
  }

  const NEW_STATE := State(map[], {}, map[], map[])

  /** What a run delivered and recalled, in any order. */
  predicate Delivered(steps: seq<Step>, c: Conversation, m: string) {
    exists i :: 0 <= i < |steps| && steps[i] == DeliverMessage(c, m)
  }

  predicate Recalled(steps: seq<Step>, c: Conversation, m: string) {
    exists i :: 0 <= i < |steps| && steps[i] == RecallMessage(c, m)
  }

  lemma StepRecords(s: State, book: map<string, Conversation>, step: Step, c: Conversation, m: string)
    requires Inv(s, book) && Allowed(book, step) && ColonFree(c.id)
    ensures var t := Perform(s, step);
            && (m in t.events && t.events[m] == c <==>
                  (m in s.events && s.events[m] == c) || step == DeliverMessage(c, m))
            && (Key(c, m) in t.recalls <==> Key(c, m) in s.recalls || step == RecallMessage(c, m))
  {
    match step
    case RecallMessage(d, n) =>
      if Key(c, m) == Key(d, n) {
        KeysDiffer(c, m, d, n);
      }
    case _ =>
  }

  lemma {:induction false} RunRecords(s: State, book: map<string, Conversation>, steps: seq<Step>, c: Conversation,
                                      m: string)
    requires Inv(s, book) && ColonFree(c.id) && forall i :: 0 <= i < |steps| ==> Allowed(book, steps[i])
    ensures var t := PerformAll(s, steps);
            && Inv(t, book)
            && (m in t.events && t.events[m] == c <==> (m in s.events && s.events[m] == c) || Delivered(steps, c, m))
            && (Key(c, m) in t.recalls <==> Key(c, m) in s.recalls || Recalled(steps, c, m))
    decreases |steps|
  {
    if steps != [] {
      StepKeeps(s, book, steps[0]);
      StepRecords(s, book, steps[0], c, m);
      RunRecords(Perform(s, steps[0]), book, steps[1..], c, m);
      assert steps == [steps[0]] + steps[1..];
      assert Delivered(steps, c, m) <==> steps[0] == DeliverMessage(c, m) || Delivered(steps[1..], c, m) by {
        if i :| 0 <= i < |steps[1..]| && steps[1..][i] == DeliverMessage(c, m) {
          assert steps[i + 1] == DeliverMessage(c, m);
        }
        if i :| 0 < i < |steps| && steps[i] == DeliverMessage(c, m) {
          assert steps[1..][i - 1] == DeliverMessage(c, m);
        }
      }
      assert Recalled(steps, c, m) <==> steps[0] == RecallMessage(c, m) || Recalled(steps[1..], c, m) by {
        if i :| 0 <= i < |steps[1..]| && steps[1..][i] == RecallMessage(c, m) {
          assert steps[i + 1] == RecallMessage(c, m);
        }
        if i :| 0 < i < |steps| && steps[i] == RecallMessage(c, m) {
          assert steps[1..][i - 1] == RecallMessage(c, m);
        }
      }
    }
  }

  /** After any run, in whatever order and with whatever replays: a recall that was
      processed has its tombstone, applied to the message exactly if that was delivered;
      the message counts as recalled exactly if both were processed, and then none of
      its stored artifacts is available. */
  lemma RecallsConverge(book: map<string, Conversation>, steps: seq<Step>, c: Conversation, m: string)
    requires ColonFree(c.id) && forall i :: 0 <= i < |steps| ==> Allowed(book, steps[i])
    ensures var s := PerformAll(NEW_STATE, steps);
            && (Key(c, m) in s.tombstones <==> Recalled(steps, c, m))
            && (Recalled(steps, c, m) ==>
                  s.tombstones[Key(c, m)] == (if Delivered(steps, c, m) then Tombstone(c, m, Some(m), true)
                                              else Tombstone(c, m, None, false)))
            && (Delivered(steps, c, m) ==> (IsRecalled(s, m) <==> Recalled(steps, c, m)))
            && (Delivered(steps, c, m) && Recalled(steps, c, m) ==>
                  forall a :: a in s.artifacts && s.artifacts[a].source == m ==>
                      s.artifacts[a].availability != Available)
  {
    var s, key := PerformAll(NEW_STATE, steps), Key(c, m);
    RunRecords(NEW_STATE, book, steps, c, m);
    if key in s.tombstones {
      assert TombstoneOk(s, key);
      KeysDiffer(c, m, s.tombstones[key].conversation, s.tombstones[key].message);
    }
    if IsRecalled(s, m) && Delivered(steps, c, m) {
      var k :| k in s.tombstones && s.tombstones[k].applied && s.tombstones[k].source == Some(m);
      assert TombstoneOk(s, k);
    }
    if Delivered(steps, c, m) && Recalled(steps, c, m) {
      assert IsRecalled(s, m);
      forall a | a in s.artifacts && s.artifacts[a].source == m ensures s.artifacts[a].availability != Available {
        assert ArtifactOk(s, a);
      }
    }
  }

  /** Whose recall a new message is taken for: one recorded just before marks it iff the
      two share their key and the recall still waits for its message. The message itself is
      not compared, so with shared keys the recall of another one does. */
  lemma RecallMarksExactlyTheKey(s: State, c: Conversation, m: string, d: Conversation, n: string)
    requires s.tombstones.Keys == s.recalls && Key(c, m) !in s.recalls
    requires n !in s.events && !IsRecalled(s, n)
    ensures IsRecalled(Deliver(RecordRecall(s, c, m), d, n), n) <==>
            || (Key(c, m) == Key(d, n) && !(m in s.events && s.events[m] == c))
            || (Key(d, n) in s.tombstones && !s.tombstones[Key(d, n)].applied)
  {
    var recalled := RecordRecall(s, c, m);
    var t := Deliver(recalled, d, n);
    if key :| key in t.tombstones && t.tombstones[key].applied && t.tombstones[key].source == Some(n) {
      assert key == Key(c, m) || key == Key(d, n) || key in s.tombstones;
    }
    if Key(d, n) in recalled.tombstones && !recalled.tombstones[Key(d, n)].applied {
      assert t.tombstones[Key(d, n)].applied && t.tombstones[Key(d, n)].source == Some(n);
    }
  }

  /** From an empty store: a message is marked by the recall of any message with its key. */
  lemma FirstRecallMarksExactlyTheKey(c: Conversation, m: string, d: Conversation, n: string)
    ensures IsRecalled(Deliver(RecordRecall(NEW_STATE, c, m), d, n), n) <==> Key(c, m) == Key(d, n)
  {
    RecallMarksExactlyTheKey(NEW_STATE, c, m, d, n);
  }

  /** So with a colon in a conversation id a message nobody recalled is treated as recalled. */
  lemma CollidingKeyRecallsAnotherMessage()
    ensures var recalled, other := Conversation(Group, "a:b"), Conversation(Group, "a");
            IsRecalled(Deliver(RecordRecall(NEW_STATE, recalled, "c"), other, "b:c"), "b:c")
  {
    assert "a:b" + ":" + "c" == "a" + ":" + "b:c";
    FirstRecallMarksExactlyTheKey(Conversation(Group, "a:b"), "c", Conversation(Group, "a"), "b:c");
  }
}
