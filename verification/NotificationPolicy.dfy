// Versioned notification rules: families of revisions and the account's policy epoch
// (personal-secretary-mysql/src/repo/mysql_notification_policy.rs).
module NotificationPolicies {
  import opened Wrappers

  type AccountId = nat
  type FamilyId(==,!new)
  type RevisionId(==,!new)
  type CommandId(==,!new)
  type Rule(==,!new)

  datatype PolicyKind =
    | AccountDefault | Conversation | Contact | Category | QuietHours | SimilarNotification | AutomaticReplyDenied

  datatype RevisionKind = RuleRevision | Tombstone

  /** A feedback's id is a digest of exactly these, which are also its unique key. */
  datatype FeedbackKey = FeedbackKey(account: AccountId, command: CommandId, important: bool)

  datatype Family = Family(
    account: AccountId, scope: string, kind: PolicyKind, head: Option<RevisionId>, generation: nat)

  datatype Revision = Revision(
    family: FamilyId,
    number: nat,
    supersedes: Option<RevisionId>,
    kind: RevisionKind,
    rule: Option<Rule>,
    command: Option<CommandId>)

  /** Every account has an epoch; its families and their revisions hang below it. */
  datatype Policies = Policies(
    epochs: map<AccountId, nat>,
    families: map<FamilyId, Family>,
    revisions: map<RevisionId, Revision>,
    feedback: set<FeedbackKey>)

  datatype PolicyError = Rejected | Conflict | Database

  // ---- One write: a revision, the new head, the next epoch ----

  datatype Content = Content(kind: RevisionKind, rule: Option<Rule>, command: Option<CommandId>)

  /** A fresh revision takes the family's generation as its number and supersedes
      the head; head, generation and epoch move on together. */
  function Append(p: Policies, f: FamilyId, id: RevisionId, content: Content): Result<Policies, PolicyError>
    requires f in p.families && p.families[f].account in p.epochs
  {
    if id in p.revisions then Err(Database)
    else
      var family := p.families[f];
      Ok(p.(revisions := p.revisions[id := Revision(f, family.generation, family.head, content.kind, content.rule,
                                                    content.command)],
            families := p.families[f := family.(head := Some(id), generation := family.generation + 1)],
            epochs := p.epochs[family.account := p.epochs[family.account] + 1]))
  }

  function ScopeFamilies(p: Policies, a: AccountId, scope: string, kind: PolicyKind): set<FamilyId> {
    set f | f in p.families && p.families[f].account == a && p.families[f].scope == scope && p.families[f].kind == kind
  }

  lemma NoneFound(p: Policies, a: AccountId, scope: string, kind: PolicyKind)
    requires ScopeFamilies(p, a, scope, kind) == {}
    ensures forall f :: f in p.families ==>
              p.families[f].account != a || p.families[f].scope != scope || p.families[f].kind != kind
  {
    forall f | f in p.families
      ensures p.families[f].account != a || p.families[f].scope != scope || p.families[f].kind != kind
    {
      assert f !in ScopeFamilies(p, a, scope, kind);
    }
  }

  /** The unique key of the family table. */
  predicate ScopesUnique(p: Policies) {
    forall f, g :: f in p.families && g in p.families && f != g ==>
      !(p.families[f].account == p.families[g].account && p.families[f].scope == p.families[g].scope
        && p.families[f].kind == p.families[g].kind)
  }

  /** Finds the family a write is about, or creates it. */
  ghost function Locate(p: Policies, a: AccountId, id: Option<FamilyId>, scope: string, kind: PolicyKind,
                        newFamily: FamilyId): Result<(Policies, FamilyId), PolicyError>
  {
    if id.Some? then
      if id.value in p.families && p.families[id.value].account == a then Ok((p, id.value)) else Err(Conflict)
    else
      var found := ScopeFamilies(p, a, scope, kind);
      if found != {} then var f :| f in found; Ok((p, f))
      else if newFamily in p.families then Err(Database)
      else Ok((p.(families := p.families[newFamily := Family(a, scope, kind, None, 1)]), newFamily))
  }

  ghost function WriteRule(p: Policies, a: AccountId, id: Option<FamilyId>, scope: string, kind: PolicyKind,
                           content: Content, newFamily: FamilyId, newRevision: RevisionId)
    : Result<Policies, PolicyError>
    requires a in p.epochs
  {
    match Locate(p, a, id, scope, kind, newFamily)
    case Err(e) => Err(e)
    case Ok((located, f)) => Append(located, f, newRevision, content)
  }

  predicate CommandSeen(p: Policies, a: AccountId, command: Option<CommandId>) {
    && command.Some?
    && exists r :: r in p.revisions && p.revisions[r].command == command
                   && p.revisions[r].family in p.families && p.families[p.revisions[r].family].account == a
  }

  /** The family an accepted command is answered with: the one it wrote, now or before. */
  predicate AnswersWith(p: Policies, q: Policies, a: AccountId, command: Option<CommandId>, newRevision: RevisionId,
                        f: FamilyId)
  {
    if CommandSeen(p, a, command)
    then exists r :: r in q.revisions && q.revisions[r].command == command && q.revisions[r].family == f
    else newRevision in q.revisions && q.revisions[newRevision].family == f
  }

  /** The writes of the store. valid stands for the request checks made by domain
      code; scope and kind of a feedback are those its match key derives, if any. */
  datatype Write =
    | CreateOrReplace(account: AccountId, valid: bool, id: Option<FamilyId>, scope: string, kind: PolicyKind,
                      rule: Rule, command: Option<CommandId>, newFamily: FamilyId, newRevision: RevisionId)
    | Disable(account: AccountId, valid: bool, family: FamilyId, expected: nat, command: Option<CommandId>,
              newRevision: RevisionId)
    | RecordFeedback(account: AccountId, valid: bool, candidateKnown: bool, important: bool, promote: bool,
                     derived: Option<(string, PolicyKind)>, rule: Rule, event: CommandId,
                     newFamily: FamilyId, newRevision: RevisionId)
    | WriteEffect(account: AccountId, valid: bool, scope: string, kind: PolicyKind, rule: Rule, event: CommandId,
                  newFamily: FamilyId, newRevision: RevisionId)
    | DisableEffect(account: AccountId, family: FamilyId, expected: nat, event: CommandId, newRevision: RevisionId)

  function Outcome(p: Policies, r: Result<Policies, PolicyError>): (Policies, Option<PolicyError>) {
    match r
    case Ok(after) => (after, None)
    case Err(e) => (p, Some(e))
  }

  function DisableFamily(p: Policies, a: AccountId, f: FamilyId, expected: nat, command: Option<CommandId>,
                         newRevision: RevisionId): Result<Policies, PolicyError>
    requires a in p.epochs
  {
    if f !in p.families || p.families[f].account != a || p.families[f].generation != expected then Err(Conflict)
    else Append(p, f, newRevision, Content(Tombstone, None, command))
  }

  ghost function Promote(p: Policies, w: Write): Result<Policies, PolicyError>
    requires w.RecordFeedback? && w.account in p.epochs
  {
    if !w.promote then Ok(p)
    else if w.derived.None? then Err(Conflict)
    else WriteRule(p, w.account, None, w.derived.value.0, w.derived.value.1,
                   Content(RuleRevision, Some(w.rule), Some(w.event)), w.newFamily, w.newRevision)
  }

  /** One write transaction: the tables after it, and its error if it was rolled back. */
  ghost function Perform(p: Policies, w: Write): (Policies, Option<PolicyError>) {
    match w
    case CreateOrReplace(a, valid, id, scope, kind, rule, command, newFamily, newRevision) =>
      if !valid then (p, Some(Rejected))
      else if a !in p.epochs then (p, Some(Conflict))
      else if CommandSeen(p, a, command) then (p, None)
      else Outcome(p, WriteRule(p, a, id, scope, kind, Content(RuleRevision, Some(rule), command),
                                newFamily, newRevision))
    case Disable(a, valid, family, expected, command, newRevision) =>
      if !valid then (p, Some(Conflict))
      else if a !in p.epochs then (p, Some(Conflict))
      else if CommandSeen(p, a, command) then (p, None)
      else Outcome(p, DisableFamily(p, a, family, expected, command, newRevision))
    case RecordFeedback(a, valid, candidateKnown, important, promote, derived, rule, event, newFamily, newRevision) =>
      if !valid then (p, Some(Rejected))
      else if a !in p.epochs || !candidateKnown then (p, Some(Conflict))
      else
        var key := FeedbackKey(a, event, important);
        if key in p.feedback then (p, None)
        else Outcome(p, Promote(p.(feedback := p.feedback + {key}), w))
    case WriteEffect(a, valid, scope, kind, rule, event, newFamily, newRevision) =>
      if a !in p.epochs then (p, Some(Conflict))
      else if !valid then (p, Some(Rejected))
      else Outcome(p, WriteRule(p, a, None, scope, kind, Content(RuleRevision, Some(rule), Some(event)),
                                newFamily, newRevision))
    case DisableEffect(a, family, expected, event, newRevision) =>
      if a !in p.epochs then (p, Some(Conflict))
      else Outcome(p, DisableFamily(p, a, family, expected, Some(event), newRevision))
  }

  // ---- The store ----

  class MySqlNotificationPolicyStore {
    var epochs: map<AccountId, nat>
    var families: map<FamilyId, Family>
    var revisions: map<RevisionId, Revision>
    var feedback: set<FeedbackKey>

    function Value(): Policies
      reads this
    {
      Policies(epochs, families, revisions, feedback)
    }

    predicate Valid()
      reads this
    {
      ScopesUnique(Value()) && forall f :: f in families ==> families[f].account in epochs
    }

    method FindCommandRevision(a: AccountId, command: Option<CommandId>) returns (found: Option<FamilyId>)
      ensures found.Some? <==> CommandSeen(Value(), a, command)
      ensures found.Some? ==> found.value in families && families[found.value].account == a
      ensures found.Some? ==> exists r :: r in revisions && revisions[r].command == command
                                          && revisions[r].family == found.value
    {
      if command.None? {
        return None;
      }
      if r :| r in revisions && revisions[r].command == command
              && revisions[r].family in families && families[revisions[r].family].account == a {
        return Some(revisions[r].family);
      }
      return None;
    }

    /** Loads the family by its id or its scope, or inserts one with no head yet. */
    method OpenFamily(a: AccountId, id: Option<FamilyId>, scope: string, kind: PolicyKind, newFamily: FamilyId)
      returns (r: Result<FamilyId, PolicyError>)
      requires Valid() && a in epochs
      modifies this`families
      ensures Valid()
      ensures match Locate(old(Value()), a, id, scope, kind, newFamily)
              case Ok((located, f)) => r == Ok(f) && Value() == located
              case Err(e) => r == Err(e) && Value() == old(Value())
      ensures r.Ok? ==> r.value in families && families[r.value].account == a
    {
      if id.Some? {
        if id.value !in families || families[id.value].account != a {
          return Err(Conflict);
        }
        return Ok(id.value);
      }
      var found := ScopeFamilies(Value(), a, scope, kind);
      if f :| f in found {
        assert forall g :: g in found ==> g == f;
        return Ok(f);
      }
      if newFamily in families {
        return Err(Database);
      }
      NoneFound(Value(), a, scope, kind);
      families := families[newFamily := Family(a, scope, kind, None, 1)];
      return Ok(newFamily);
    }

    /** append_revision, update_family_head and increment_policy_epoch in a row. */
    method AppendRevision(f: FamilyId, newRevision: RevisionId, content: Content) returns (error: Option<PolicyError>)
      requires Valid() && f in families
      modifies this
      ensures Valid()
      ensures (Value(), error) == Outcome(old(Value()), Append(old(Value()), f, newRevision, content))
    {
      var family := families[f];
      if newRevision in revisions {
        return Some(Database);
      }
      revisions := revisions[newRevision := Revision(f, family.generation, family.head, content.kind, content.rule,
                                                     content.command)];
      families := families[f := family.(head := Some(newRevision), generation := family.generation + 1)];
      epochs := epochs[family.account := epochs[family.account] + 1];
      return None;
    }

    method WriteRuleRevision(a: AccountId, id: Option<FamilyId>, scope: string, kind: PolicyKind, content: Content,
                             newFamily: FamilyId, newRevision: RevisionId, ghost p: Policies)
      returns (error: Option<PolicyError>)
      requires Valid() && a in epochs && p == Value()
      modifies this
      ensures Valid()
      ensures (Value(), error) == Outcome(p, WriteRule(p, a, id, scope, kind, content, newFamily, newRevision))
    {
      var before := families;
      var family := OpenFamily(a, id, scope, kind, newFamily);
      if family.Err? {
        return Some(family.error);
      }
      error := AppendRevision(family.value, newRevision, content);
      if error.Some? {
        families := before;
      }
    }

    method CreateOrReplacePolicy(w: Write) returns (r: Result<FamilyId, PolicyError>)
      requires Valid() && w.CreateOrReplace?
      modifies this
      ensures Valid()
      ensures (Value(), if r.Ok? then None else Some(r.error)) == Perform(old(Value()), w)
      ensures r.Ok? ==> r.value in families && families[r.value].account == w.account
      ensures r.Ok? ==> AnswersWith(old(Value()), Value(), w.account, w.command, w.newRevision, r.value)
    {
      if !w.valid {
        return Err(Rejected);
      }
      if w.account !in epochs {
        return Err(Conflict);
      }
      var seen := FindCommandRevision(w.account, w.command);
      if seen.Some? {
        return Ok(seen.value);
      }
      ghost var p := Value();
      var before := families;
      var family := OpenFamily(w.account, w.id, w.scope, w.kind, w.newFamily);
      if family.Err? {
        return Err(family.error);
      }
      var error := AppendRevision(family.value, w.newRevision, Content(RuleRevision, Some(w.rule), w.command));
      if error.Some? {
        families := before;
        return Err(error.value);
      }
      return Ok(family.value);
    }

    method DisablePolicy(w: Write) returns (r: Result<FamilyId, PolicyError>)
      requires Valid() && w.Disable?
      modifies this
      ensures Valid()
      ensures (Value(), if r.Ok? then None else Some(r.error)) == Perform(old(Value()), w)
      ensures r.Ok? ==> r.value in families && families[r.value].account == w.account
      ensures r.Ok? ==> AnswersWith(old(Value()), Value(), w.account, w.command, w.newRevision, r.value)
    {
      if !w.valid || w.account !in epochs {
        return Err(Conflict);
      }
      var seen := FindCommandRevision(w.account, w.command);
      if seen.Some? {
        return Ok(seen.value);
      }
      if w.family !in families || families[w.family].account != w.account
         || families[w.family].generation != w.expected {
        return Err(Conflict);
      }
      var error := AppendRevision(w.family, w.newRevision, Content(Tombstone, None, w.command));
      if error.Some? {
        return Err(error.value);
      }
      return Ok(w.family);
    }

    method RecordFeedbackOnce(w: Write) returns (error: Option<PolicyError>)
      requires Valid() && w.RecordFeedback?
      modifies this
      ensures Valid()
      ensures (Value(), error) == Perform(old(Value()), w)
    {
      if !w.valid {
        return Some(Rejected);
      }
      if w.account !in epochs || !w.candidateKnown {
        return Some(Conflict);
      }
      var key := FeedbackKey(w.account, w.event, w.important);
      if key in feedback {
        return None;
      }
      var before := feedback;
      feedback := feedback + {key};
      if w.promote {
        if w.derived.None? {
          feedback := before;
          return Some(Conflict);
        }
        error := WriteRuleRevision(w.account, None, w.derived.value.0, w.derived.value.1,
                                   Content(RuleRevision, Some(w.rule), Some(w.event)), w.newFamily, w.newRevision,
                                   old(Value()).(feedback := before + {key}));
        if error.Some? {
          feedback := before;
        }
        return error;
      }
      return None;
    }

    method ApplyWriteEffect(w: Write) returns (error: Option<PolicyError>)
      requires Valid() && w.WriteEffect?
      modifies this
      ensures Valid()
      ensures (Value(), error) == Perform(old(Value()), w)
    {
      if w.account !in epochs {
        return Some(Conflict);
      }
      if !w.valid {
        return Some(Rejected);
      }
      error := WriteRuleRevision(w.account, None, w.scope, w.kind, Content(RuleRevision, Some(w.rule), Some(w.event)),
                                 w.newFamily, w.newRevision, Value());
    }

    method ApplyDisableEffect(w: Write) returns (error: Option<PolicyError>)
      requires Valid() && w.DisableEffect?
      modifies this
      ensures Valid()
      ensures (Value(), error) == Perform(old(Value()), w)
    {
      if w.account !in epochs || w.family !in families || families[w.family].account != w.account
         || families[w.family].generation != w.expected {
        return Some(Conflict);
      }
      error := AppendRevision(w.family, w.newRevision, Content(Tombstone, None, Some(w.event)));
    }
  }

  // ---- History is conserved ----

  /** Revision i of a family has number i + 1 and supersedes the one before it. */
  predicate Link(revisions: map<RevisionId, Revision>, f: FamilyId, history: seq<RevisionId>, i: nat)
    requires i < |history|
  {
    && history[i] in revisions
    && var r := revisions[history[i]];
       r.family == f && r.number == i + 1 && r.supersedes == if i == 0 then None else Some(history[i - 1])
  }

  /** All revisions of a family, oldest first: numbered without gaps up to the
      generation, each superseding the one before, the head being the last. */
  predicate IsHistory(revisions: map<RevisionId, Revision>, f: FamilyId, family: Family, history: seq<RevisionId>) {
    && family.generation == |history| + 1
    && family.head == (if history == [] then None else Some(history[|history| - 1]))
    && (forall i :: 0 <= i < |history| ==> Link(revisions, f, history, i))
    && (forall r :: r in revisions && revisions[r].family == f ==> r in history)
  }

  ghost predicate HasHistory(revisions: map<RevisionId, Revision>, f: FamilyId, family: Family) {
    exists history :: IsHistory(revisions, f, family, history)
  }

  /** The sum over an account's families of generation - 1. */
  ghost function WritesOf(families: map<FamilyId, Family>, a: AccountId): int
    decreases |families|
  {
    if families == map[] then 0
    else
      var f :| f in families;
      Share(families[f], a) + WritesOf(families - {f}, a)
  }

  function Share(f: Family, a: AccountId): int {
    if f.account == a then f.generation - 1 else 0
  }

  /** The sum may be taken in any order. */
  lemma {:induction false} WritesSplit(families: map<FamilyId, Family>, a: AccountId, f: FamilyId)
    requires f in families
    ensures WritesOf(families, a) == Share(families[f], a) + WritesOf(families - {f}, a)
    decreases |families|
  {
    var g :| g in families && WritesOf(families, a) == Share(families[g], a) + WritesOf(families - {g}, a);
    if g != f {
      WritesSplit(families - {g}, a, f);
      WritesSplit(families - {f}, a, g);
      assert (families - {g}) - {f} == (families - {f}) - {g};
    }
  }

  /** An account's epoch counts the writes made since the start. */
  ghost predicate EpochCounts(p: Policies, start: map<AccountId, nat>, a: AccountId) {
    a in p.epochs && a in start && p.epochs[a] == start[a] + WritesOf(p.families, a)
  }

  ghost predicate Conserved(p: Policies, start: map<AccountId, nat>) {
    && (forall a :: a in p.epochs ==> EpochCounts(p, start, a))
    && (forall f :: f in p.families ==> HasHistory(p.revisions, f, p.families[f]))
  }

  predicate Consistent(p: Policies) {
    && ScopesUnique(p) && (forall f :: f in p.families ==> p.families[f].account in p.epochs)
    && (forall r :: r in p.revisions ==> p.revisions[r].family in p.families)
  }

  // ---- The epoch tells whether anything changed ----

  datatype Head = Head(revision: RevisionId, generation: nat, kind: PolicyKind, revisionKind: RevisionKind,
                       rule: Option<Rule>)

  /** What an evaluation reads of a family: its head joined with that revision. */
  function HeadOf(p: Policies, a: AccountId, f: FamilyId): Option<Head> {
    if f in p.families && p.families[f].account == a && p.families[f].head.Some?
       && p.families[f].head.value in p.revisions
    then
      var family, r := p.families[f], p.revisions[p.families[f].head.value];
      Some(Head(family.head.value, family.generation, family.kind, r.kind, r.rule))
    else None
  }

  ghost predicate SameHeads(p: Policies, q: Policies, a: AccountId) {
    forall f :: HeadOf(p, a, f) == HeadOf(q, a, f)
  }

  /** Between two moments an account's epoch rose, or neither it nor the heads changed. */
  ghost predicate EpochTells(p: Policies, q: Policies, a: AccountId) {
    && a in p.epochs && a in q.epochs
    && (p.epochs[a] < q.epochs[a] || (p.epochs[a] == q.epochs[a] && SameHeads(p, q, a)))
  }

  /** What a write does to history and epochs, whichever it is. */
  ghost predicate WriteOk(p: Policies, start: map<AccountId, nat>, q: Policies) {
    && Consistent(q) && Conserved(q, start)
    && forall a :: a in p.epochs ==> EpochTells(p, q, a)
  }

  // ---- Creating a family ----

  function WithFamily(p: Policies, f: FamilyId, family: Family): Policies {
    p.(families := p.families[f := family])
  }

  lemma NewFamilyKeeps(p: Policies, start: map<AccountId, nat>, a: AccountId, scope: string, kind: PolicyKind,
                       f: FamilyId)
    requires Consistent(p) && Conserved(p, start) && a in p.epochs
    requires f !in p.families && ScopeFamilies(p, a, scope, kind) == {}
    ensures var q := WithFamily(p, f, Family(a, scope, kind, None, 1));
            Consistent(q) && Conserved(q, start) && forall b :: SameHeads(p, q, b)
  {
    var family := Family(a, scope, kind, None, 1);
    var q := WithFamily(p, f, family);
    NewFamilyIsConsistent(p, a, scope, kind, f);
    forall b | b in q.epochs ensures EpochCounts(q, start, b) {
      NewFamilyCountsNothing(p, start, f, family, b);
    }
    forall g | g in q.families ensures HasHistory(q.revisions, g, q.families[g]) {
      if g == f {
        assert IsHistory(q.revisions, f, family, []);
      } else {
        assert HasHistory(p.revisions, g, p.families[g]);
      }
    }
  }

  lemma NewFamilyIsConsistent(p: Policies, a: AccountId, scope: string, kind: PolicyKind, f: FamilyId)
    requires Consistent(p) && a in p.epochs && f !in p.families && ScopeFamilies(p, a, scope, kind) == {}
    ensures Consistent(WithFamily(p, f, Family(a, scope, kind, None, 1)))
  {
    NoneFound(p, a, scope, kind);
  }

  lemma NewFamilyCountsNothing(p: Policies, start: map<AccountId, nat>, f: FamilyId, family: Family, b: AccountId)
    requires f !in p.families && family.generation == 1 && b in p.epochs && EpochCounts(p, start, b)
    ensures EpochCounts(WithFamily(p, f, family), start, b)
  {
    var q := WithFamily(p, f, family);
    WritesSplit(q.families, b, f);
    assert q.families - {f} == p.families;
  }

  lemma LocateKeeps(p: Policies, start: map<AccountId, nat>, a: AccountId, id: Option<FamilyId>, scope: string,
                    kind: PolicyKind, newFamily: FamilyId)
    requires Consistent(p) && Conserved(p, start) && a in p.epochs
    requires Locate(p, a, id, scope, kind, newFamily).Ok?
    ensures var (located, f) := Locate(p, a, id, scope, kind, newFamily).value;
            && Consistent(located) && Conserved(located, start) && located.epochs == p.epochs
            && f in located.families && forall b :: SameHeads(p, located, b)
  {
    if id.None? && ScopeFamilies(p, a, scope, kind) == {} {
      NewFamilyKeeps(p, start, a, scope, kind, newFamily);
    }
  }

  // ---- Appending a revision ----

  lemma HistoryGrows(p: Policies, f: FamilyId, id: RevisionId, content: Content)
    requires f in p.families && p.families[f].account in p.epochs && id !in p.revisions
    requires HasHistory(p.revisions, f, p.families[f])
    ensures var q := Append(p, f, id, content).value;
            HasHistory(q.revisions, f, q.families[f])
  {
    var q := Append(p, f, id, content).value;
    var history :| IsHistory(p.revisions, f, p.families[f], history);
    var longer := history + [id];
    forall i | 0 <= i < |longer| ensures Link(q.revisions, f, longer, i) {
      if i < |history| {
        assert Link(p.revisions, f, history, i);
      }
    }
    assert IsHistory(q.revisions, f, q.families[f], longer);
  }

  lemma OtherHistoriesStay(p: Policies, f: FamilyId, id: RevisionId, content: Content, g: FamilyId)
    requires f in p.families && p.families[f].account in p.epochs && id !in p.revisions && g != f && g in p.families
    requires HasHistory(p.revisions, g, p.families[g])
    ensures HasHistory(Append(p, f, id, content).value.revisions, g, p.families[g])
  {
    var q := Append(p, f, id, content).value;
    var history :| IsHistory(p.revisions, g, p.families[g], history);
    forall i | 0 <= i < |history| ensures Link(q.revisions, g, history, i) {
      assert Link(p.revisions, g, history, i);
    }
    assert IsHistory(q.revisions, g, p.families[g], history);
  }

  lemma EpochsKeepCounting(p: Policies, start: map<AccountId, nat>, f: FamilyId, id: RevisionId, content: Content,
                           a: AccountId)
    requires f in p.families && p.families[f].account in p.epochs && id !in p.revisions
    requires EpochCounts(p, start, a)
    ensures EpochCounts(Append(p, f, id, content).value, start, a)
  {
    var q := Append(p, f, id, content).value;
    WritesSplit(p.families, a, f);
    WritesSplit(q.families, a, f);
    assert q.families - {f} == p.families - {f};
  }

  lemma AppendTells(p: Policies, f: FamilyId, id: RevisionId, content: Content, a: AccountId)
    requires f in p.families && p.families[f].account in p.epochs && id !in p.revisions && a in p.epochs
    requires forall g :: g in p.families ==> HasHistory(p.revisions, g, p.families[g])
    ensures EpochTells(p, Append(p, f, id, content).value, a)
  {
    var q := Append(p, f, id, content).value;
    if p.families[f].account != a {
      forall g ensures HeadOf(p, a, g) == HeadOf(q, a, g) {
        HeadUnlessNew(p, f, id, content, a, g);
      }
    }
  }

  /** A head can only change in the family written to, or by pointing at the new
      revision, which no stored head did. */
  lemma HeadUnlessNew(p: Policies, f: FamilyId, id: RevisionId, content: Content, a: AccountId, g: FamilyId)
    requires f in p.families && p.families[f].account in p.epochs && id !in p.revisions && p.families[f].account != a
    requires g in p.families ==> HasHistory(p.revisions, g, p.families[g])
    ensures HeadOf(p, a, g) == HeadOf(Append(p, f, id, content).value, a, g)
  {
    if g in p.families && p.families[g].head.Some? {
      HeadExists(p, g);
    }
  }

  lemma HeadExists(p: Policies, g: FamilyId)
    requires g in p.families && HasHistory(p.revisions, g, p.families[g])
    ensures p.families[g].head.Some? ==> p.families[g].head.value in p.revisions
  {
    var history :| IsHistory(p.revisions, g, p.families[g], history);
    if history != [] {
      assert Link(p.revisions, g, history, |history| - 1);
    }
  }

  lemma AppendKeeps(p: Policies, start: map<AccountId, nat>, f: FamilyId, id: RevisionId, content: Content)
    requires Consistent(p) && Conserved(p, start) && f in p.families && id !in p.revisions
    ensures WriteOk(p, start, Append(p, f, id, content).value)
  {
    var q := Append(p, f, id, content).value;
    forall g | g in q.families ensures HasHistory(q.revisions, g, q.families[g]) {
      if g == f {
        HistoryGrows(p, f, id, content);
      } else {
        OtherHistoriesStay(p, f, id, content, g);
      }
    }
    forall a | a in q.epochs ensures EpochCounts(q, start, a) {
      EpochsKeepCounting(p, start, f, id, content, a);
    }
    forall a | a in p.epochs ensures EpochTells(p, q, a) {
      AppendTells(p, f, id, content, a);
    }
  }

  // ---- Every write ----

  lemma WriteRuleKeeps(p: Policies, start: map<AccountId, nat>, a: AccountId, id: Option<FamilyId>, scope: string,
                       kind: PolicyKind, content: Content, newFamily: FamilyId, newRevision: RevisionId)
    requires Consistent(p) && Conserved(p, start) && a in p.epochs
    ensures var r := WriteRule(p, a, id, scope, kind, content, newFamily, newRevision);
            r.Ok? ==> WriteOk(p, start, r.value)
  {
    var r := WriteRule(p, a, id, scope, kind, content, newFamily, newRevision);
    if r.Ok? {
      LocateKeeps(p, start, a, id, scope, kind, newFamily);
      var (located, f) := Locate(p, a, id, scope, kind, newFamily).value;
      AppendKeeps(located, start, f, newRevision, content);
      TellsThrough(p, located, start, r.value);
    }
  }

  lemma TellsThrough(p: Policies, located: Policies, start: map<AccountId, nat>, q: Policies)
    requires WriteOk(located, start, q)
    requires located.epochs == p.epochs && forall b :: SameHeads(p, located, b)
    ensures WriteOk(p, start, q)
  {
    forall b | b in p.epochs ensures EpochTells(p, q, b) {
      assert EpochTells(located, q, b) && SameHeads(p, located, b);
      assert forall f :: HeadOf(p, b, f) == HeadOf(located, b, f);
    }
  }

  lemma DisableKeeps(p: Policies, start: map<AccountId, nat>, a: AccountId, f: FamilyId, expected: nat,
                     command: Option<CommandId>, newRevision: RevisionId)
    requires Consistent(p) && Conserved(p, start) && a in p.epochs
    ensures var r := DisableFamily(p, a, f, expected, command, newRevision);
            r.Ok? ==> WriteOk(p, start, r.value)
  {
    if DisableFamily(p, a, f, expected, command, newRevision).Ok? {
      AppendKeeps(p, start, f, newRevision, Content(Tombstone, None, command));
    }
  }

  lemma NothingWritten(p: Policies, start: map<AccountId, nat>, feedback: set<FeedbackKey>)
    requires Consistent(p) && Conserved(p, start)
    ensures WriteOk(p, start, p.(feedback := feedback)) && forall b :: SameHeads(p, p.(feedback := feedback), b)
  {
    var q := p.(feedback := feedback);
    forall a | a in q.epochs ensures EpochCounts(q, start, a) {
      assert EpochCounts(p, start, a);
    }
  }

  lemma FeedbackKeeps(p: Policies, start: map<AccountId, nat>, w: Write)
    requires Consistent(p) && Conserved(p, start) && w.RecordFeedback?
    ensures WriteOk(p, start, Perform(p, w).0)
  {
    NothingWritten(p, start, p.feedback);
    assert p.(feedback := p.feedback) == p;
    if w.account in p.epochs {
      var noted := p.(feedback := p.feedback + {FeedbackKey(w.account, w.event, w.important)});
      NothingWritten(p, start, noted.feedback);
      if w.derived.Some? {
        var content := Content(RuleRevision, Some(w.rule), Some(w.event));
        WriteRuleKeeps(noted, start, w.account, None, w.derived.value.0, w.derived.value.1, content,
                       w.newFamily, w.newRevision);
        var r := WriteRule(noted, w.account, None, w.derived.value.0, w.derived.value.1, content,
                           w.newFamily, w.newRevision);
        if r.Ok? {
          TellsThrough(p, noted, start, r.value);
        }
      }
    }
  }

  /** Whatever is written, repeated or refused: every family's revisions stay numbered
      1 to generation - 1 without gaps, each superseding the one before, the head the
      last; epochs stay the start plus the number of revisions; and an account's epoch
      stands still only if its heads do. */
  lemma EveryWriteKeepsHistory(p: Policies, start: map<AccountId, nat>, w: Write)
    requires Consistent(p) && Conserved(p, start)
    ensures WriteOk(p, start, Perform(p, w).0)
  {
    NothingWritten(p, start, p.feedback);
    assert p.(feedback := p.feedback) == p;
    if w.account in p.epochs {
      match w
      case CreateOrReplace(a, _, id, scope, kind, rule, command, newFamily, newRevision) =>
        WriteRuleKeeps(p, start, a, id, scope, kind, Content(RuleRevision, Some(rule), command), newFamily,
                       newRevision);
      case Disable(a, _, family, expected, command, newRevision) =>
        DisableKeeps(p, start, a, family, expected, command, newRevision);
      case RecordFeedback(_, _, _, _, _, _, _, _, _, _) =>
        FeedbackKeeps(p, start, w);
      case WriteEffect(a, _, scope, kind, rule, event, newFamily, newRevision) =>
        WriteRuleKeeps(p, start, a, None, scope, kind, Content(RuleRevision, Some(rule), Some(event)),
                       newFamily, newRevision);
      case DisableEffect(a, family, expected, event, newRevision) =>
        DisableKeeps(p, start, a, family, expected, Some(event), newRevision);
    }
  }

  ghost function PerformAll(p: Policies, writes: seq<Write>): Policies
    decreases |writes|
  {
    if writes == [] then p else PerformAll(Perform(p, writes[0]).0, writes[1..])
  }

  lemma {:induction false} HistoryIsConserved(p: Policies, start: map<AccountId, nat>, writes: seq<Write>)
    requires Consistent(p) && Conserved(p, start)
    ensures WriteOk(p, start, PerformAll(p, writes))
    decreases |writes|
  {
    if writes == [] {
      NothingWritten(p, start, p.feedback);
      assert p.(feedback := p.feedback) == p;
    } else {
      var next := Perform(p, writes[0]).0;
      EveryWriteKeepsHistory(p, start, writes[0]);
      HistoryIsConserved(next, start, writes[1..]);
      var q := PerformAll(next, writes[1..]);
      forall a | a in p.epochs ensures EpochTells(p, q, a) {
        assert EpochTells(p, next, a) && EpochTells(next, q, a);
        TellsAgain(p, next, q, a);
      }
    }
  }

  lemma TellsAgain(p: Policies, q: Policies, r: Policies, a: AccountId)
    requires EpochTells(p, q, a) && EpochTells(q, r, a)
    ensures EpochTells(p, r, a)
  {
    if p.epochs[a] == r.epochs[a] {
      forall f ensures HeadOf(p, a, f) == HeadOf(r, a, f) {
        assert HeadOf(p, a, f) == HeadOf(q, a, f) && HeadOf(q, a, f) == HeadOf(r, a, f);
      }
    }
  }
}
