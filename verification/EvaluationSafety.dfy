// Every run of producers, policy writers and evaluating workers: decisions are made
// once, on rules that hold at the moment of the decision
// (personal-secretary-mysql/src/repo/mysql_notification_policy.rs,
// mysql_notification_candidate_producer.rs).
module EvaluationSafety {
  import opened Wrappers
  import opened NotificationPolicies
  import opened NotificationEvaluation

  /** The tables, the lease tokens generated so far, and what workers have read. */
  datatype World = World(t: Tables, used: set<Token>, glimpses: set<Glimpse>, snapshots: set<Snapshot>)

  datatype Action =
    | ProduceFrom(account: AccountId, source: Source, newCandidate: CandidateId)
    | WritePolicy(write: Write)
    | ClaimOne(candidate: CandidateId, now: int, leaseSecs: nat, token: Token)
    | Recover(chosen: set<CandidateId>, now: int)
    | ReadFirst(candidate: CandidateId, token: Token, now: int)
    | ReadSecond(glimpse: Glimpse)
    | CommitOne(candidate: CandidateId, token: Token, now: int, snapshot: Snapshot, plan: Plan, id: DecisionId)
    | ChangeBindings(bindings: set<Binding>)
    | ChangeSources(current: set<(AccountId, Source)>)

  ghost function Perform(w: World, a: Action): World {
    match a
    case ProduceFrom(account, source, c) => w.(t := Produce(w.t, account, source, c))
    case WritePolicy(write) => w.(t := w.t.(policies := NotificationPolicies.Perform(w.t.policies, write).0))
    case ClaimOne(r, now, leaseSecs, token) =>
      if r in w.t.requests && Claimable(w.t.requests[r], now) && token !in w.used
      then w.(t := ClaimRequest(w.t, r, now, leaseSecs, token), used := w.used + {token}) else w
    case Recover(chosen, now) =>
      if forall r :: r in chosen ==> r in w.t.requests && ExpiredClaim(w.t.requests[r], now)
      then w.(t := w.t.(requests := Recovered(w.t.requests, chosen))) else w
    case ReadFirst(r, token, now) =>
      var g := Look(w.t, r, token, now);
      if g.Some? then w.(glimpses := w.glimpses + {g.value}) else w
    case ReadSecond(g) =>
      if g in w.glimpses && LookAtHeads(w.t, g).Some?
      then w.(snapshots := w.snapshots + {LookAtHeads(w.t, g).value}) else w
    case CommitOne(r, token, now, s, plan, id) =>
      if s in w.snapshots && s.glimpse.candidate == r then w.(t := Commit(w.t, r, token, now, s, plan, id).0) else w
    case ChangeBindings(bindings) => w.(t := w.t.(bindings := bindings))
    case ChangeSources(current) => w.(t := w.t.(current := current))
  }

  // ---- The invariant ----

  predicate OpenRequest(r: Request) {
    r.status == Pending || r.status == Claimed
  }

  predicate RowOk(t: Tables, r: CandidateId)
    requires r in t.requests
  {
    && r in t.candidates
    && (t.requests[r].status == Claimed <==> t.requests[r].lease.Some?)
    && (OpenRequest(t.requests[r]) <==> OpenCandidate(t.candidates[r]))
  }

  predicate DecisionOk(t: Tables, d: DecisionId)
    requires d in t.decisions
  {
    var row := t.decisions[d];
    && row.candidate in t.requests && row.candidate in t.candidates
    && (row.outcome != Delay ==>
          t.requests[row.candidate].status == RequestStatusAfter(row.outcome)
          && t.candidates[row.candidate].status == StatusAfter(row.outcome))
    && (row.outcome == Remind ==> t.candidates[row.candidate].source in t.outbox)
  }

  predicate ReminderOk(t: Tables, s: Source)
    requires s in t.outbox
  {
    var row := t.outbox[s];
    && row.decision in t.decisions && t.decisions[row.decision].outcome == Remind
    && t.decisions[row.decision].candidate == row.candidate
    && row.candidate in t.candidates && t.candidates[row.candidate].source == s
  }

  /** A candidate gets at most one decision that is not a delay. */
  predicate DecidedOnce(t: Tables) {
    forall d, e ::
      (&& d in t.decisions && e in t.decisions && t.decisions[d].candidate == t.decisions[e].candidate
       && t.decisions[d].outcome != Delay && t.decisions[e].outcome != Delay)
      ==> d == e
  }

  predicate TablesOk(t: Tables) {
    && SourcesUnique(t) && DecidedOnce(t) && t.requests.Keys == t.candidates.Keys
    && (forall r :: r in t.requests ==> RowOk(t, r))
    && (forall d :: d in t.decisions ==> DecisionOk(t, d))
    && (forall s :: s in t.outbox ==> ReminderOk(t, s))
  }

  /** What was read about a request stays true of its candidate; epochs only rise. */
  predicate GlimpseOk(t: Tables, g: Glimpse) {
    && g.candidate in t.candidates
    && t.candidates[g.candidate].account == g.account && t.candidates[g.candidate].source == g.source
    && g.account in t.policies.epochs && g.epoch <= t.policies.epochs[g.account]
  }

  /** The heads read are the account's heads, entry for entry, none missing. */
  ghost predicate HeadsExact(p: Policies, a: AccountId, heads: map<FamilyId, Head>) {
    forall f :: HeadOf(p, a, f) == if f in heads then Some(heads[f]) else None
  }

  /** As long as the epoch read first still stands, so do the heads read later. */
  ghost predicate SnapshotOk(t: Tables, s: Snapshot) {
    && GlimpseOk(t, s.glimpse)
    && (s.glimpse.epoch == t.policies.epochs[s.glimpse.account] ==>
          HeadsExact(t.policies, s.glimpse.account, s.heads))
  }

  predicate HasToken(t: Tables, r: CandidateId, token: Token) {
    r in t.requests && t.requests[r].lease.Some? && t.requests[r].lease.value.token == token
  }

  /** Tokens in use were generated, and no two requests share one. */
  predicate TokensUsed(t: Tables, used: set<Token>) {
    && (forall r :: r in t.requests && t.requests[r].lease.Some? ==> t.requests[r].lease.value.token in used)
    && (forall q, r :: q in t.requests && r in t.requests && q != r && t.requests[r].lease.Some? ==>
          !HasToken(t, q, t.requests[r].lease.value.token))
  }

  ghost predicate Inv(w: World, start: map<AccountId, nat>) {
    && TablesOk(w.t) && TokensUsed(w.t, w.used)
    && Consistent(w.t.policies) && Conserved(w.t.policies, start)
    && (forall g :: g in w.glimpses ==> GlimpseOk(w.t, g))
    && (forall s :: s in w.snapshots ==> SnapshotOk(w.t, s))
  }

  // ---- Torn reads are harmless ----

  lemma HeadsReadAreExact(p: Policies, a: AccountId)
    ensures HeadsExact(p, a, HeadsOf(p, a))
  {
    forall f ensures HeadOf(p, a, f) == if f in HeadsOf(p, a) then Some(HeadsOf(p, a)[f]) else None {
    }
  }

  lemma WriteKeepsSnapshots(t: Tables, start: map<AccountId, nat>, write: Write, s: Snapshot)
    requires Consistent(t.policies) && Conserved(t.policies, start) && SnapshotOk(t, s)
    ensures SnapshotOk(t.(policies := NotificationPolicies.Perform(t.policies, write).0), s)
  {
    EveryWriteKeepsHistory(t.policies, start, write);
    var p, q, a := t.policies, NotificationPolicies.Perform(t.policies, write).0, s.glimpse.account;
    assert EpochTells(p, q, a);
    if s.glimpse.epoch == q.epochs[a] {
      forall f ensures HeadOf(q, a, f) == if f in s.heads then Some(s.heads[f]) else None {
        assert HeadOf(p, a, f) == HeadOf(q, a, f);
      }
    }
  }

  // ---- Every action keeps the invariant ----

  /** Rows of other requests and candidates are untouched, and none disappears. */
  predicate Extends(t: Tables, u: Tables) {
    && t.candidates.Keys <= u.candidates.Keys
    && (forall c :: c in t.candidates ==>
          u.candidates[c].account == t.candidates[c].account && u.candidates[c].source == t.candidates[c].source)
    && u.policies == t.policies
  }

  lemma ReadingsStay(w: World, start: map<AccountId, nat>, u: Tables, used: set<Token>)
    requires Inv(w, start) && Extends(w.t, u) && TablesOk(u) && TokensUsed(u, used)
    ensures Inv(w.(t := u, used := used), start)
  {
    forall g | g in w.glimpses ensures GlimpseOk(u, g) {
      assert GlimpseOk(w.t, g);
    }
    forall s | s in w.snapshots ensures SnapshotOk(u, s) {
      assert SnapshotOk(w.t, s);
    }
  }

  /** A request row moves between open states; nothing else changes. */
  lemma OpenMoveKeepsTables(t: Tables, r: CandidateId, row: Request)
    requires TablesOk(t) && r in t.requests && OpenRequest(t.requests[r])
    requires OpenRequest(row) && (row.status == Claimed <==> row.lease.Some?)
    ensures TablesOk(t.(requests := t.requests[r := row]))
  {
    var u := t.(requests := t.requests[r := row]);
    assert RowOk(t, r);
    forall q | q in u.requests ensures RowOk(u, q) {
      assert RowOk(t, q);
    }
    forall d | d in u.decisions ensures DecisionOk(u, d) {
      assert DecisionOk(t, d);
    }
    forall s | s in u.outbox ensures ReminderOk(u, s) {
      assert ReminderOk(t, s);
    }
  }

  lemma {:induction false} RecoverKeepsTables(t: Tables, chosen: set<CandidateId>, now: int)
    requires TablesOk(t) && forall r :: r in chosen ==> r in t.requests && ExpiredClaim(t.requests[r], now)
    ensures TablesOk(t.(requests := Recovered(t.requests, chosen)))
    decreases |chosen|
  {
    if chosen == {} {
      assert Recovered(t.requests, chosen) == t.requests;
    } else {
      var r :| r in chosen;
      var rest := chosen - {r};
      RecoverKeepsTables(t, rest, now);
      RecoveredOneMore(t.requests, rest, r);
      assert rest + {r} == chosen;
      OpenMoveKeepsTables(t.(requests := Recovered(t.requests, rest)), r, Reopened(t.requests[r]));
    }
  }

  lemma NothingFoundMeansNew(t: Tables, a: AccountId, s: Source)
    requires CandidatesOf(t, a, s) == {}
    ensures forall c :: c in t.candidates ==> t.candidates[c].account != a || t.candidates[c].source != s
  {
    forall c | c in t.candidates ensures t.candidates[c].account != a || t.candidates[c].source != s {
      assert c !in CandidatesOf(t, a, s);
    }
  }

  lemma ProduceKeeps(w: World, start: map<AccountId, nat>, a: AccountId, s: Source, newCandidate: CandidateId)
    requires Inv(w, start)
    ensures Inv(w.(t := Produce(w.t, a, s, newCandidate)), start)
  {
    var t, u := w.t, Produce(w.t, a, s, newCandidate);
    if CandidatesOf(t, a, s) == {} && newCandidate !in t.candidates {
      NothingFoundMeansNew(t, a, s);
      AddRowsKeepsTables(t, a, s, newCandidate);
      ReadingsStay(w, start, u, w.used);
    } else {
      assert u == t;
    }
  }

  lemma NewSourceStaysUnique(t: Tables, a: AccountId, s: Source, c: CandidateId, u: Tables)
    requires SourcesUnique(t) && u.candidates == t.candidates[c := Candidate(a, s, Waiting)]
    requires forall d :: d in t.candidates ==> t.candidates[d].account != a || t.candidates[d].source != s
    ensures SourcesUnique(u)
  {
  }

  function WithRows(t: Tables, a: AccountId, s: Source, c: CandidateId): Tables {
    t.(candidates := t.candidates[c := Candidate(a, s, Waiting)], requests := t.requests[c := NEW_REQUEST])
  }

  lemma AddRowsKeepsDecisions(t: Tables, a: AccountId, s: Source, c: CandidateId)
    requires TablesOk(t) && c !in t.candidates
    ensures forall d :: d in t.decisions ==> DecisionOk(WithRows(t, a, s, c), d)
    ensures forall x :: x in t.outbox ==> ReminderOk(WithRows(t, a, s, c), x)
  {
    var u := WithRows(t, a, s, c);
    forall d | d in t.decisions ensures DecisionOk(u, d) {
      assert DecisionOk(t, d);
    }
    forall x | x in t.outbox ensures ReminderOk(u, x) {
      assert ReminderOk(t, x);
    }
  }

  lemma AddRowsKeepsRows(t: Tables, a: AccountId, s: Source, c: CandidateId)
    requires TablesOk(t) && c !in t.candidates
    ensures forall r :: r in WithRows(t, a, s, c).requests ==> RowOk(WithRows(t, a, s, c), r)
  {
    var u := WithRows(t, a, s, c);
    forall r | r in u.requests ensures RowOk(u, r) {
      if r != c {
        assert RowOk(t, r);
      }
    }
  }

  lemma AddRowsKeepsTables(t: Tables, a: AccountId, s: Source, c: CandidateId)
    requires TablesOk(t) && c !in t.candidates
    requires forall d :: d in t.candidates ==> t.candidates[d].account != a || t.candidates[d].source != s
    ensures TablesOk(WithRows(t, a, s, c))
  {
    NewSourceStaysUnique(t, a, s, c, WithRows(t, a, s, c));
    AddRowsKeepsRows(t, a, s, c);
    AddRowsKeepsDecisions(t, a, s, c);
  }

  lemma DecideKeepsTables(t: Tables, r: CandidateId, plan: Plan, id: DecisionId)
    requires TablesOk(t) && r in t.requests && t.requests[r].status == Claimed && !Refused(plan) && id !in t.decisions
    ensures r in t.candidates && TablesOk(Decide(t, r, plan, id))
  {
    assert RowOk(t, r);
    var u := Decide(t, r, plan, id);
    forall d | d in t.decisions && t.decisions[d].candidate == r ensures t.decisions[d].outcome == Delay {
      assert DecisionOk(t, d);
    }
    forall q | q in u.requests ensures RowOk(u, q) {
      assert RowOk(t, q);
    }
    forall d | d in u.decisions ensures DecisionOk(u, d) {
      assert d != id ==> DecisionOk(t, d);
    }
    forall s | s in u.outbox ensures ReminderOk(u, s) {
      if s in t.outbox {
        assert ReminderOk(t, s);
      }
    }
    forall d, e | d in u.decisions && e in u.decisions && u.decisions[d].candidate == u.decisions[e].candidate
                  && u.decisions[d].outcome != Delay && u.decisions[e].outcome != Delay
      ensures d == e
    {
      assert d != id && e != id ==> t.decisions[d].candidate == t.decisions[e].candidate;
    }
  }

  lemma RequeueKeeps(w: World, start: map<AccountId, nat>, r: CandidateId)
    requires Inv(w, start) && r in w.t.requests && w.t.requests[r].status == Claimed
    ensures Inv(w.(t := Requeue(w.t, r)), start)
  {
    var u := Requeue(w.t, r);
    OpenMoveKeepsTables(w.t, r, Reopened(w.t.requests[r]));
    ReadingsStay(w, start, u, w.used);
  }

  /** Giving up a lease cannot make tokens clash. */
  lemma UnleasedKeepsTokens(t: Tables, u: Tables, used: set<Token>, r: CandidateId, row: Request)
    requires TokensUsed(t, used) && u.requests == t.requests[r := row] && row.lease.None?
    ensures TokensUsed(u, used)
  {
  }

  lemma DecideExtends(t: Tables, r: CandidateId, plan: Plan, id: DecisionId)
    requires r in t.requests && r in t.candidates && !Refused(plan)
    ensures Extends(t, Decide(t, r, plan, id))
  {
  }

  lemma DecideKeeps(w: World, start: map<AccountId, nat>, r: CandidateId, plan: Plan, id: DecisionId)
    requires Inv(w, start) && r in w.t.requests && w.t.requests[r].status == Claimed
    requires !Refused(plan) && id !in w.t.decisions
    ensures r in w.t.candidates && Inv(w.(t := Decide(w.t, r, plan, id)), start)
  {
    DecideKeepsTables(w.t, r, plan, id);
    var u := Decide(w.t, r, plan, id);
    DecideExtends(w.t, r, plan, id);
    UnleasedKeepsTokens(w.t, u, w.used, r, u.requests[r]);
    ReadingsStay(w, start, u, w.used);
  }

  lemma CommitKeeps(w: World, start: map<AccountId, nat>, r: CandidateId, token: Token, now: int, s: Snapshot,
                    plan: Plan, id: DecisionId)
    requires Inv(w, start)
    ensures Inv(w.(t := Commit(w.t, r, token, now, s, plan, id).0), start)
  {
    match Commit(w.t, r, token, now, s, plan, id).1
    case None =>
    case Some(LeaseLost) =>
    case Some(SnapshotStale) => RequeueKeeps(w, start, r);
    case Some(Applied) => DecideKeeps(w, start, r, plan, id);
  }

  lemma ClaimKeeps(w: World, start: map<AccountId, nat>, r: CandidateId, now: int, leaseSecs: nat, token: Token)
    requires Inv(w, start) && r in w.t.requests && Claimable(w.t.requests[r], now) && token !in w.used
    ensures Inv(w.(t := ClaimRequest(w.t, r, now, leaseSecs, token), used := w.used + {token}), start)
  {
    var u := ClaimRequest(w.t, r, now, leaseSecs, token);
    OpenMoveKeepsTables(w.t, r, u.requests[r]);
    ReadingsStay(w, start, u, w.used + {token});
  }

  lemma RecoverKeeps(w: World, start: map<AccountId, nat>, chosen: set<CandidateId>, now: int)
    requires Inv(w, start) && forall r :: r in chosen ==> r in w.t.requests && ExpiredClaim(w.t.requests[r], now)
    ensures Inv(w.(t := w.t.(requests := Recovered(w.t.requests, chosen))), start)
  {
    var u := w.t.(requests := Recovered(w.t.requests, chosen));
    RecoverKeepsTables(w.t, chosen, now);
    ReadingsStay(w, start, u, w.used);
  }

  lemma SurroundingsKeep(w: World, start: map<AccountId, nat>, u: Tables)
    requires Inv(w, start) && u == w.t.(bindings := u.bindings, current := u.current)
    ensures Inv(w.(t := u), start)
  {
    PoliciesDoNotMatter(w.t, u);
    ReadingsStay(w, start, u, w.used);
  }

  lemma ReadKeeps(w: World, start: map<AccountId, nat>, a: Action)
    requires Inv(w, start) && (a.ReadFirst? || a.ReadSecond?)
    ensures Inv(Perform(w, a), start)
  {
    match a
    case ReadFirst(r, token, now) =>
    case ReadSecond(g) =>
      if g in w.glimpses && LookAtHeads(w.t, g).Some? {
        assert GlimpseOk(w.t, g);
        HeadsReadAreExact(w.t.policies, g.account);
      }
  }

  lemma WriteKeeps(w: World, start: map<AccountId, nat>, write: Write)
    requires Inv(w, start)
    ensures Inv(Perform(w, WritePolicy(write)), start)
  {
    var p, q := w.t.policies, NotificationPolicies.Perform(w.t.policies, write).0;
    var u := w.t.(policies := q);
    EveryWriteKeepsHistory(p, start, write);
    PoliciesDoNotMatter(w.t, u);
    forall g | g in w.glimpses ensures GlimpseOk(u, g) {
      assert GlimpseOk(w.t, g) && EpochTells(p, q, g.account);
    }
    forall s | s in w.snapshots ensures SnapshotOk(u, s) {
      assert SnapshotOk(w.t, s);
      WriteKeepsSnapshots(w.t, start, write, s);
    }
  }

  lemma PoliciesDoNotMatter(t: Tables, u: Tables)
    requires TablesOk(t)
    requires u.candidates == t.candidates && u.requests == t.requests && u.decisions == t.decisions
             && u.outbox == t.outbox
    ensures TablesOk(u)
  {
    forall r | r in u.requests ensures RowOk(u, r) {
      assert RowOk(t, r);
    }
    forall d | d in u.decisions ensures DecisionOk(u, d) {
      assert DecisionOk(t, d);
    }
    forall s | s in u.outbox ensures ReminderOk(u, s) {
      assert ReminderOk(t, s);
    }
  }

  lemma ActionKeeps(w: World, start: map<AccountId, nat>, a: Action)
    requires Inv(w, start)
    ensures Inv(Perform(w, a), start)
  {
    match a
    case ProduceFrom(account, source, c) => ProduceKeeps(w, start, account, source, c);
    case WritePolicy(write) => WriteKeeps(w, start, write);
    case ClaimOne(r, now, leaseSecs, token) =>
      if r in w.t.requests && Claimable(w.t.requests[r], now) && token !in w.used {
        ClaimKeeps(w, start, r, now, leaseSecs, token);
      }
    case Recover(chosen, now) =>
      if forall r :: r in chosen ==> r in w.t.requests && ExpiredClaim(w.t.requests[r], now) {
        RecoverKeeps(w, start, chosen, now);
      }
    case ReadFirst(_, _, _) => ReadKeeps(w, start, a);
    case ReadSecond(_) => ReadKeeps(w, start, a);
    case CommitOne(r, token, now, s, plan, id) => CommitKeeps(w, start, r, token, now, s, plan, id);
    case ChangeBindings(bindings) => SurroundingsKeep(w, start, w.t.(bindings := bindings));
    case ChangeSources(current) => SurroundingsKeep(w, start, w.t.(current := current));
  }

  // ---- Every run ----

  ghost function PerformAll(w: World, actions: seq<Action>): World
    decreases |actions|
  {
    if actions == [] then w else PerformAll(Perform(w, actions[0]), actions[1..])
  }

  /** Every candidate, one per account and source version, has in every reachable state at
      most one decision other than a delay. */
  lemma {:induction false} EveryRunDecidesOnce(w: World, start: map<AccountId, nat>, actions: seq<Action>)
    requires Inv(w, start)
    ensures Inv(PerformAll(w, actions), start) && DecidedOnce(PerformAll(w, actions).t)
    decreases |actions|
  {
    if actions != [] {
      ActionKeeps(w, start, actions[0]);
      EveryRunDecidesOnce(Perform(w, actions[0]), start, actions[1..]);
    }
  }

  lemma RemindedExactlyWhenDecided(w: World, start: map<AccountId, nat>, s: Source)
    requires Inv(w, start)
    ensures s in w.t.outbox <==>
            exists d :: d in w.t.decisions && w.t.decisions[d].outcome == Remind
                        && w.t.decisions[d].candidate in w.t.candidates
                        && w.t.candidates[w.t.decisions[d].candidate].source == s
  {
    if s in w.t.outbox {
      assert ReminderOk(w.t, s);
    }
    if d :| d in w.t.decisions && w.t.decisions[d].outcome == Remind && w.t.decisions[d].candidate in w.t.candidates
            && w.t.candidates[w.t.decisions[d].candidate].source == s {
      assert DecisionOk(w.t, d);
    }
  }

  /** The outbox is keyed by the source version alone. So a decision to remind gets a reminder
      of its own iff there is none for the source yet; the one that is there belongs to a
      candidate of the same source in another account. */
  lemma ReminderIsSharedExactly(w: World, start: map<AccountId, nat>, r: CandidateId, token: Token, now: int,
                                s: Snapshot, plan: Plan, id: DecisionId)
    requires Inv(w, start) && plan.outcome == Remind
    requires Commit(w.t, r, token, now, s, plan, id).1 == Some(Applied)
    ensures var u := Commit(w.t, r, token, now, s, plan, id).0;
            var source := w.t.candidates[r].source;
            && source in u.outbox && (u.outbox[source] == Reminder(r, id) <==> source !in w.t.outbox)
            && (source in w.t.outbox ==>
                  var owner := w.t.outbox[source].candidate;
                  && u.outbox == w.t.outbox && owner in w.t.candidates
                  && w.t.candidates[owner].source == source
                  && w.t.candidates[owner].account != w.t.candidates[r].account)
  {
    var source := w.t.candidates[r].source;
    if source in w.t.outbox {
      assert ReminderOk(w.t, source);
      assert DecisionOk(w.t, w.t.outbox[source].decision);
      assert w.t.outbox[source].candidate != r;
    }
  }

  // ---- What every run guarantees ----

  /** A store with policies but no candidates yet. */
  lemma NewStoreIsSane(p: Policies, bindings: set<Binding>, current: set<(AccountId, Source)>)
    requires p.families == map[] && p.revisions == map[]
    ensures Inv(World(Tables(p, map[], map[], map[], map[], bindings, current), {}, {}, {}), p.epochs)
  {
    forall a | a in p.epochs ensures EpochCounts(p, p.epochs, a) {
      assert WritesOf(p.families, a) == 0;
    }
  }

  /** Whatever is written between the epoch read, the heads read and the commit, in any
      run: an applied commit decided on exactly the heads its account has at that moment. */
  lemma AppliedMeansExactHeads(w: World, start: map<AccountId, nat>, actions: seq<Action>, r: CandidateId,
                               token: Token, now: int, s: Snapshot, plan: Plan, id: DecisionId)
    requires Inv(w, start)
    requires var v := PerformAll(w, actions); s in v.snapshots && s.glimpse.candidate == r
    requires Commit(PerformAll(w, actions).t, r, token, now, s, plan, id).1 == Some(Applied)
    ensures var v := PerformAll(w, actions);
            r in v.t.candidates && HeadsExact(v.t.policies, v.t.candidates[r].account, s.heads)
  {
    EveryRunDecidesOnce(w, start, actions);
    assert SnapshotOk(PerformAll(w, actions).t, s);
  }

  /** So the per-family fences never fire: a snapshot with the current epoch passes them. */
  lemma FencesNeverFire(w: World, start: map<AccountId, nat>, actions: seq<Action>, s: Snapshot)
    requires Inv(w, start) && s in PerformAll(w, actions).snapshots
    ensures var p := PerformAll(w, actions).t.policies;
            && s.glimpse.account in p.epochs
            && (s.glimpse.epoch == p.epochs[s.glimpse.account] ==> HeadsHeld(p, s.glimpse.account, s.heads))
  {
    EveryRunDecidesOnce(w, start, actions);
    var t := PerformAll(w, actions).t;
    assert SnapshotOk(t, s);
    if s.glimpse.epoch == t.policies.epochs[s.glimpse.account] {
      forall f | f in s.heads ensures HeadHeld(t.policies, s.glimpse.account, f, s.heads[f]) {
        assert HeadOf(t.policies, s.glimpse.account, f) == Some(s.heads[f]);
      }
    }
  }

  predicate SameRows(t: Tables, u: Tables, r: CandidateId) {
    && r in t.requests && r in u.requests && u.requests[r] == t.requests[r]
    && r in t.candidates && r in u.candidates && u.candidates[r] == t.candidates[r]
  }

  /** A finished request and its candidate never move again. */
  lemma {:induction false} FinishedNeverMoves(w: World, start: map<AccountId, nat>, actions: seq<Action>,
                                              r: CandidateId)
    requires Inv(w, start) && r in w.t.requests && !OpenRequest(w.t.requests[r])
    ensures SameRows(w.t, PerformAll(w, actions).t, r)
    decreases |actions|
  {
    assert RowOk(w.t, r);
    if actions != [] {
      ActionKeeps(w, start, actions[0]);
      FinishedStepNeverMoves(w, start, actions[0], r);
      FinishedNeverMoves(Perform(w, actions[0]), start, actions[1..], r);
    }
  }

  lemma ProduceLeavesRows(t: Tables, a: AccountId, s: Source, c: CandidateId, r: CandidateId)
    requires r in t.requests && r in t.candidates
    ensures SameRows(t, Produce(t, a, s, c), r)
  {
  }

  lemma CommitLeavesOpenRowsOnly(t: Tables, q: CandidateId, token: Token, now: int, s: Snapshot, plan: Plan,
                                 id: DecisionId, r: CandidateId)
    requires r in t.requests && r in t.candidates && !OpenRequest(t.requests[r])
    ensures SameRows(t, Commit(t, q, token, now, s, plan, id).0, r)
  {
  }

  lemma FinishedStepNeverMoves(w: World, start: map<AccountId, nat>, a: Action, r: CandidateId)
    requires Inv(w, start) && r in w.t.requests && !OpenRequest(w.t.requests[r])
    ensures SameRows(w.t, Perform(w, a).t, r)
  {
    assert RowOk(w.t, r);
    match a
    case ProduceFrom(account, source, c) => ProduceLeavesRows(w.t, account, source, c, r);
    case CommitOne(q, token, now, s, plan, id) => CommitLeavesOpenRowsOnly(w.t, q, token, now, s, plan, id, r);
    case _ =>
  }

  /** A token that was generated but holds no request any more. */
  predicate Retired(w: World, token: Token) {
    token in w.used
    && forall r :: r in w.t.requests && w.t.requests[r].lease.Some? ==> w.t.requests[r].lease.value.token != token
  }

  /** Once replaced, a token never holds a request again, and commits nothing. */
  lemma {:induction false} RetiredTokensStayRetired(w: World, actions: seq<Action>, token: Token)
    requires Retired(w, token)
    ensures var v := PerformAll(w, actions);
            && Retired(v, token)
            && forall r, now: int, s, plan, id :: Commit(v.t, r, token, now, s, plan, id) == (v.t, Some(LeaseLost))
    decreases |actions|
  {
    if actions != [] {
      assert Retired(Perform(w, actions[0]), token);
      RetiredTokensStayRetired(Perform(w, actions[0]), actions[1..], token);
    }
  }

  /** A lease after an action is one from before, or the claim's new one. */
  predicate LeaseKept(t: Tables, u: Tables, a: Action, q: CandidateId)
    requires q in u.requests
  {
    || u.requests[q].lease.None? || (q in t.requests && u.requests[q].lease == t.requests[q].lease)
    || (a.ClaimOne? && a.candidate == q && u.requests[q].lease.value.token == a.token)
  }

  lemma LeasesAreKept(w: World, a: Action)
    ensures forall q :: q in Perform(w, a).t.requests ==> LeaseKept(w.t, Perform(w, a).t, a, q)
    ensures Perform(w, a).t.requests != w.t.requests && a.ClaimOne? ==> a.token !in w.used
    ensures w.used <= Perform(w, a).used
  {
  }

  /** Claiming, recovering, requeueing or deciding a request takes its token away. */
  lemma NewHolderRetiresOldToken(w: World, start: map<AccountId, nat>, a: Action, r: CandidateId)
    requires Inv(w, start) && r in w.t.requests && w.t.requests[r].lease.Some?
    requires r in Perform(w, a).t.requests && Perform(w, a).t.requests[r].lease != w.t.requests[r].lease
    ensures Retired(Perform(w, a), w.t.requests[r].lease.value.token)
  {
    var token, v := w.t.requests[r].lease.value.token, Perform(w, a);
    LeasesAreKept(w, a);
    forall q | q in v.t.requests && v.t.requests[q].lease.Some? ensures v.t.requests[q].lease.value.token != token {
      assert LeaseKept(w.t, v.t, a, q);
      assert q in w.t.requests && q != r ==> !HasToken(w.t, q, token);
    }
  }
}
