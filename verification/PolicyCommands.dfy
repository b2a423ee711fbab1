// What each policy write leaves behind, when it is accepted, and that commands and feedback
// are carried out once (personal-secretary-mysql/src/repo/mysql_notification_policy.rs).
module PolicyCommands {
  import opened Wrappers
  import opened NotificationPolicies

  // ---- One write ----

  /** A revision with this content was added to family f and is its head; the account's epoch
      moved on by one, and nothing else changed. */
  predicate Wrote(p: Policies, q: Policies, a: AccountId, f: FamilyId, id: RevisionId, content: Content) {
    && f in q.families && q.families[f].account == a && q.families[f].head == Some(id)
    && id !in p.revisions && q.revisions.Keys == p.revisions.Keys + {id}
    && (forall r :: r in p.revisions ==> q.revisions[r] == p.revisions[r])
    && q.revisions[id].family == f && q.revisions[id].kind == content.kind
    && q.revisions[id].rule == content.rule && q.revisions[id].command == content.command
    && q.families.Keys == p.families.Keys + {f}
    && (forall g :: g in p.families && g != f ==> q.families[g] == p.families[g])
    && (f in p.families ==> q.families[f].scope == p.families[f].scope && q.families[f].kind == p.families[f].kind)
    && q.epochs.Keys == p.epochs.Keys && a in p.epochs && q.epochs[a] == p.epochs[a] + 1
    && (forall b :: b in p.epochs && b != a ==> q.epochs[b] == p.epochs[b])
  }

  predicate InScope(p: Policies, f: FamilyId, a: AccountId, scope: string, kind: PolicyKind) {
    f in p.families && p.families[f].account == a && p.families[f].scope == scope && p.families[f].kind == kind
  }

  /** A rule may be written into the family named, or into the one family of the scope, which
      is created if there is none. */
  ghost predicate Writable(p: Policies, a: AccountId, id: Option<FamilyId>, scope: string, kind: PolicyKind,
                     newFamily: FamilyId, newRevision: RevisionId)
  {
    && newRevision !in p.revisions
    && if id.Some? then id.value in p.families && p.families[id.value].account == a
       else newFamily !in p.families || exists f :: InScope(p, f, a, scope, kind)
  }

  ghost predicate RuleWritten(p: Policies, q: Policies, a: AccountId, id: Option<FamilyId>, scope: string,
                              kind: PolicyKind, rule: Rule, command: Option<CommandId>, newRevision: RevisionId)
  {
    exists f ::
      && Wrote(p, q, a, f, newRevision, Content(RuleRevision, Some(rule), command))
      && if id.Some? then f == id.value else InScope(q, f, a, scope, kind)
  }

  /** The write asks for what was done already. */
  predicate Repeats(p: Policies, w: Write) {
    match w
    case CreateOrReplace(a, _, _, _, _, _, command, _, _) => CommandSeen(p, a, command)
    case Disable(a, _, _, _, command, _) => CommandSeen(p, a, command)
    case RecordFeedback(a, _, _, important, _, _, _, event, _, _) => FeedbackKey(a, event, important) in p.feedback
    case _ => false
  }

  predicate MayDisable(p: Policies, a: AccountId, f: FamilyId, expected: nat, newRevision: RevisionId) {
    f in p.families && p.families[f].account == a && p.families[f].generation == expected && newRevision !in p.revisions
  }

  /** The request itself is in order. */
  predicate Checked(p: Policies, w: Write) {
    && w.account in p.epochs
    && match w
       case RecordFeedback(_, valid, candidateKnown, _, _, _, _, _, _, _) => valid && candidateKnown
       case DisableEffect(_, _, _, _, _) => true
       case CreateOrReplace(_, valid, _, _, _, _, _, _, _) => valid
       case Disable(_, valid, _, _, _, _) => valid
       case WriteEffect(_, valid, _, _, _, _, _, _) => valid
  }

  /** Carrying it out for the first time is possible. */
  ghost predicate Feasible(p: Policies, w: Write) {
    match w
    case CreateOrReplace(a, _, id, scope, kind, _, _, newFamily, newRevision) =>
      Writable(p, a, id, scope, kind, newFamily, newRevision)
    case Disable(a, _, f, expected, _, newRevision) => MayDisable(p, a, f, expected, newRevision)
    case RecordFeedback(a, _, _, _, promote, derived, _, _, newFamily, newRevision) =>
      promote ==> derived.Some? && Writable(p, a, None, derived.value.0, derived.value.1, newFamily, newRevision)
    case WriteEffect(a, _, scope, kind, _, _, newFamily, newRevision) =>
      Writable(p, a, None, scope, kind, newFamily, newRevision)
    case DisableEffect(a, f, expected, _, newRevision) => MayDisable(p, a, f, expected, newRevision)
  }

  /** What a write does that is carried out for the first time. */
  ghost predicate CarriedOut(p: Policies, w: Write, q: Policies) {
    match w
    case CreateOrReplace(a, _, id, scope, kind, rule, command, _, newRevision) =>
      RuleWritten(p, q, a, id, scope, kind, rule, command, newRevision) && q.feedback == p.feedback
    case Disable(a, _, f, _, command, newRevision) =>
      Wrote(p, q, a, f, newRevision, Content(Tombstone, None, command)) && q.feedback == p.feedback
    case RecordFeedback(a, _, _, important, promote, derived, rule, event, _, newRevision) =>
      && q.feedback == p.feedback + {FeedbackKey(a, event, important)}
      && if promote then derived.Some?
                         && RuleWritten(p, q, a, None, derived.value.0, derived.value.1, rule, Some(event), newRevision)
         else q == p.(feedback := q.feedback)
    case WriteEffect(a, _, scope, kind, rule, event, _, newRevision) =>
      RuleWritten(p, q, a, None, scope, kind, rule, Some(event), newRevision) && q.feedback == p.feedback
    case DisableEffect(a, f, _, event, newRevision) =>
      Wrote(p, q, a, f, newRevision, Content(Tombstone, None, Some(event))) && q.feedback == p.feedback
  }

  lemma AppendWrites(p: Policies, a: AccountId, f: FamilyId, id: RevisionId, content: Content)
    requires f in p.families && p.families[f].account == a && a in p.epochs
    ensures var r := Append(p, f, id, content);
            && (r.Ok? <==> id !in p.revisions)
            && (r.Ok? ==> Wrote(p, r.value, a, f, id, content) && r.value.feedback == p.feedback)
  {
  }

  lemma RuleIsWritten(p: Policies, a: AccountId, id: Option<FamilyId>, scope: string, kind: PolicyKind, rule: Rule,
                      command: Option<CommandId>, newFamily: FamilyId, newRevision: RevisionId)
    requires a in p.epochs
    ensures var r := WriteRule(p, a, id, scope, kind, Content(RuleRevision, Some(rule), command), newFamily,
                               newRevision);
            && (r.Ok? <==> Writable(p, a, id, scope, kind, newFamily, newRevision))
            && (r.Ok? ==> RuleWritten(p, r.value, a, id, scope, kind, rule, command, newRevision)
                          && r.value.feedback == p.feedback)
  {
    var content := Content(RuleRevision, Some(rule), command);
    var place := Locate(p, a, id, scope, kind, newFamily);
    LocatesExactly(p, a, id, scope, kind, newFamily);
    if place.Ok? {
      var (located, f) := place.value;
      AppendWrites(located, a, f, newRevision, content);
      var r := WriteRule(p, a, id, scope, kind, content, newFamily, newRevision);
      if r.Ok? {
        assert Wrote(p, r.value, a, f, newRevision, content);
      }
    }
  }

  /** The family named, or the one of the scope, or a new one without a head. */
  lemma LocatesExactly(p: Policies, a: AccountId, id: Option<FamilyId>, scope: string, kind: PolicyKind,
                       newFamily: FamilyId)
    ensures var place := Locate(p, a, id, scope, kind, newFamily);
            && (place.Ok? <==> if id.Some? then id.value in p.families && p.families[id.value].account == a
                               else newFamily !in p.families || exists f :: InScope(p, f, a, scope, kind))
            && (place.Ok? ==>
                  var (located, f) := place.value;
                  && f in located.families && located.families[f].account == a
                  && (if id.Some? then f == id.value else InScope(located, f, a, scope, kind))
                  && (located == p || (f !in p.families
                                       && located == p.(families := p.families[f := located.families[f]]))))
  {
    if id.None? {
      var found := ScopeFamilies(p, a, scope, kind);
      assert found != {} <==> exists f :: InScope(p, f, a, scope, kind) by {
        if f :| InScope(p, f, a, scope, kind) {
          assert f in found;
        }
        if f :| f in found {
          assert InScope(p, f, a, scope, kind);
        }
      }
    }
  }

  /** A write is accepted iff its request is in order and it is a repetition or feasible. A
      repetition and a refusal change nothing; otherwise it does exactly what it says. */
  lemma WritesExactly(p: Policies, w: Write)
    ensures var (q, error) := Perform(p, w);
            && (error.None? <==> Checked(p, w) && (Repeats(p, w) || Feasible(p, w)))
            && (error.Some? || Repeats(p, w) ==> q == p)
            && (error.None? && !Repeats(p, w) ==> CarriedOut(p, w, q))
  {
    if w.account in p.epochs {
      match w
      case CreateOrReplace(a, _, id, scope, kind, rule, command, newFamily, newRevision) =>
        RuleIsWritten(p, a, id, scope, kind, rule, command, newFamily, newRevision);
      case Disable(a, _, f, _, command, newRevision) =>
        if f in p.families && p.families[f].account == a {
          AppendWrites(p, a, f, newRevision, Content(Tombstone, None, command));
        }
      case RecordFeedback(_, _, _, _, _, _, _, _, _, _) => FeedbackWritesExactly(p, w);
      case WriteEffect(a, _, scope, kind, rule, event, newFamily, newRevision) =>
        RuleIsWritten(p, a, None, scope, kind, rule, Some(event), newFamily, newRevision);
      case DisableEffect(a, f, _, event, newRevision) =>
        if f in p.families && p.families[f].account == a {
          AppendWrites(p, a, f, newRevision, Content(Tombstone, None, Some(event)));
        }
    }
  }

  lemma FeedbackWritesExactly(p: Policies, w: Write)
    requires w.RecordFeedback? && w.account in p.epochs
    ensures var (q, error) := Perform(p, w);
            && (error.None? <==> Checked(p, w) && (Repeats(p, w) || Feasible(p, w)))
            && (error.Some? || Repeats(p, w) ==> q == p)
            && (error.None? && !Repeats(p, w) ==> CarriedOut(p, w, q))
  {
    var noted := p.(feedback := p.feedback + {FeedbackKey(w.account, w.event, w.important)});
    if w.derived.Some? {
      var (scope, kind) := w.derived.value;
      RuleIsWritten(noted, w.account, None, scope, kind, w.rule, Some(w.event), w.newFamily, w.newRevision);
      assert Writable(noted, w.account, None, scope, kind, w.newFamily, w.newRevision) <==>
             Writable(p, w.account, None, scope, kind, w.newFamily, w.newRevision) by {
        assert forall f :: InScope(noted, f, w.account, scope, kind) <==> InScope(p, f, w.account, scope, kind);
      }
      var q := Perform(p, w).0;
      if RuleWritten(noted, q, w.account, None, scope, kind, w.rule, Some(w.event), w.newRevision) {
        var content := Content(RuleRevision, Some(w.rule), Some(w.event));
        var f :| Wrote(noted, q, w.account, f, w.newRevision, content) && InScope(q, f, w.account, scope, kind);
        assert Wrote(p, q, w.account, f, w.newRevision, content);
      }
    }
  }

  // ---- Over every run ----

  /** Revisions stay with their family, families with their account, feedback stays. */
  predicate Outlives(p: Policies, q: Policies) {
    && p.epochs.Keys <= q.epochs.Keys && p.feedback <= q.feedback
    && (forall r :: r in p.revisions ==> r in q.revisions && q.revisions[r] == p.revisions[r])
    && (forall f :: f in p.families ==> f in q.families && q.families[f].account == p.families[f].account)
  }

  lemma WriteOutlives(p: Policies, w: Write)
    requires Consistent(p)
    ensures Outlives(p, Perform(p, w).0)
  {
    WritesExactly(p, w);
    var q := Perform(p, w).0;
    if q != p {
      forall f, id, content | Wrote(p, q, w.account, f, id, content) ensures Outlives(p, q) {
        WroteKeepsOwner(p, q, w, f);
      }
    }
  }

  lemma WroteKeepsOwner(p: Policies, q: Policies, w: Write, f: FamilyId)
    requires q == Perform(p, w).0
    ensures f in p.families ==> f in q.families && q.families[f].account == p.families[f].account
    ensures p.feedback <= q.feedback
  {
  }

  lemma {:induction false} RunOutlives(p: Policies, start: map<AccountId, nat>, writes: seq<Write>)
    requires Consistent(p) && Conserved(p, start)
    ensures Outlives(p, PerformAll(p, writes))
    decreases |writes|
  {
    if writes != [] {
      WriteOutlives(p, writes[0]);
      EveryWriteKeepsHistory(p, start, writes[0]);
      RunOutlives(Perform(p, writes[0]).0, start, writes[1..]);
    }
  }

  /** Two writes that ask for the same thing: the same command of one account, or the same
      verdict on one event; everything else may differ, the new ids in particular. */
  predicate SameRequest(w: Write, v: Write) {
    && w.account == v.account
    && match w
       case CreateOrReplace(_, _, _, _, _, _, command, _, _) =>
         command.Some? && ((v.CreateOrReplace? && v.command == command) || (v.Disable? && v.command == command))
       case Disable(_, _, _, _, command, _) =>
         command.Some? && ((v.CreateOrReplace? && v.command == command) || (v.Disable? && v.command == command))
       case RecordFeedback(_, _, _, important, _, _, _, event, _, _) =>
         v.RecordFeedback? && v.event == event && v.important == important
       case _ => false
  }

  lemma DoneIsSeen(p: Policies, w: Write, v: Write)
    requires Consistent(p) && Perform(p, w).1 == None && SameRequest(w, v)
    ensures Repeats(Perform(p, w).0, v)
  {
    WritesExactly(p, w);
    var q := Perform(p, w).0;
    if !Repeats(p, w) {
      match w
      case CreateOrReplace(a, _, _, _, _, rule, command, _, newRevision) =>
        assert newRevision in q.revisions && q.revisions[newRevision].command == command;
      case Disable(a, _, _, _, command, newRevision) =>
        assert newRevision in q.revisions && q.revisions[newRevision].command == command;
      case _ =>
    }
  }

  lemma SeenStaysSeen(p: Policies, q: Policies, v: Write)
    requires Consistent(p) && Outlives(p, q) && Repeats(p, v)
    ensures Repeats(q, v)
  {
    if v.CreateOrReplace? || v.Disable? {
      var r :| r in p.revisions && p.revisions[r].command == v.command
               && p.revisions[r].family in p.families && p.families[p.revisions[r].family].account == v.account;
      assert r in q.revisions && q.revisions[r].command == v.command;
    }
  }

  /** A command or a feedback that was carried out is never carried out again: whatever is
      written in between, and whatever new ids the repetition brings, it is accepted and
      changes nothing. */
  lemma CommandsAreCarriedOutOnce(p: Policies, start: map<AccountId, nat>, w: Write, writes: seq<Write>, v: Write)
    requires Consistent(p) && Conserved(p, start) && Perform(p, w).1 == None && SameRequest(w, v)
    requires var q := PerformAll(Perform(p, w).0, writes); Checked(q, v)
    ensures var q := PerformAll(Perform(p, w).0, writes); Perform(q, v) == (q, None)
  {
    var after := Perform(p, w).0;
    EveryWriteKeepsHistory(p, start, w);
    DoneIsSeen(p, w, v);
    RunOutlives(after, start, writes);
    var q := PerformAll(after, writes);
    SeenStaysSeen(after, q, v);
    WritesExactly(q, v);
  }
}
