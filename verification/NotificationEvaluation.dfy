// Evaluating notification candidates: leased requests, a snapshot read in two
// queries, and an optimistic commit
// (personal-secretary-mysql/src/repo/mysql_notification_policy.rs,
// mysql_notification_candidate_producer.rs).
module NotificationEvaluation {
  import opened Wrappers
  import opened Sets
  import opened NotificationPolicies

  type CandidateId(==,!new)
  type DecisionId(==,!new)
  type Token(==,!new)
  type OwnerId(==,!new)

  const MAX_FAMILIES: nat := 128

  /** What a candidate is about; an occurrence id is a digest of exactly this. */
  datatype Source = Source(kind: string, id: string, version: nat)

  datatype CandidateStatus = Waiting | Delayed | Reminded | Suppressed | Expired | FailedTerminal

  datatype Candidate = Candidate(account: AccountId, source: Source, status: CandidateStatus)

  datatype RequestStatus = Pending | Claimed | Done | Terminal

  datatype Lease = Lease(token: Token, expires: int)

  /** A candidate's request of generation 1, the only one ever made; the unique key
      (candidate, generation) lets the candidate stand for it. */
  datatype Request = Request(status: RequestStatus, lease: Option<Lease>, nextAllowed: Option<int>, attempt: nat)

  datatype NotificationOutcome =
    | Remind | Delay | Suppress | CandidateExpired | EvaluationFailed | DeliveryWindowExpired | ScheduleTimeAmbiguous

  /** What the evaluator decided; winner is its winning revision, if that is unambiguous. */
  datatype Plan = Plan(outcome: NotificationOutcome, nextAllowed: Option<int>, winner: Option<Option<RevisionId>>)

  datatype Decision = Decision(
    candidate: CandidateId, revision: Option<RevisionId>, outcome: NotificationOutcome, nextAllowed: Option<int>)

  datatype Reminder = Reminder(candidate: CandidateId, decision: DecisionId)

  datatype Binding = Binding(managed: AccountId, command: AccountId, owner: OwnerId)

  datatype Tables = Tables(
    policies: Policies,
    candidates: map<CandidateId, Candidate>,
    requests: map<CandidateId, Request>,
    decisions: map<DecisionId, Decision>,
    outbox: map<Source, Reminder>,
    bindings: set<Binding>,
    current: set<(AccountId, Source)>)

  /** The first query of a snapshot, and the whole snapshot. */
  datatype Glimpse = Glimpse(
    candidate: CandidateId, account: AccountId, source: Source, open: bool, epoch: nat, binding: Binding)

  datatype Snapshot = Snapshot(glimpse: Glimpse, heads: map<FamilyId, Head>)

  datatype CommitResult = Applied | SnapshotStale | LeaseLost

  // ---- Producing candidates ----

  function CandidatesOf(t: Tables, a: AccountId, s: Source): set<CandidateId> {
    set c | c in t.candidates && t.candidates[c].account == a && t.candidates[c].source == s
  }

  /** The unique key of the candidate table. */
  predicate SourcesUnique(t: Tables) {
    forall c, d :: c in t.candidates && d in t.candidates && c != d ==>
      t.candidates[c].account != t.candidates[d].account || t.candidates[c].source != t.candidates[d].source
  }

  const NEW_REQUEST := Request(Pending, None, None, 0)

  /** INSERT IGNORE of the candidate, then of its request; a candidate insert ignored
      without the row being there rolls everything back. */
  ghost function Produce(t: Tables, a: AccountId, s: Source, newCandidate: CandidateId): Tables {
    var found := CandidatesOf(t, a, s);
    if found == {} && newCandidate in t.candidates then t
    else
      var c := if found == {} then newCandidate else var x :| x in found; x;
      var with := if found == {} then t.(candidates := t.candidates[c := Candidate(a, s, Waiting)]) else t;
      if c in with.requests then with else with.(requests := with.requests[c := NEW_REQUEST])
  }

  // ---- Claiming, recovering, requeueing ----

  predicate Claimable(r: Request, now: int) {
    || (r.status == Pending && (r.nextAllowed.None? || r.nextAllowed.value <= now))
    || (r.status == Claimed && r.lease.Some? && r.lease.value.expires < now)
  }

  function ClaimRequest(t: Tables, r: CandidateId, now: int, leaseSecs: nat, token: Token): Tables
    requires r in t.requests
  {
    t.(requests := t.requests[r := t.requests[r].(status := Claimed, lease := Some(Lease(token, now + leaseSecs)),
                                                  attempt := t.requests[r].attempt + 1)])
  }

  predicate ExpiredClaim(r: Request, now: int) {
    r.status == Claimed && r.lease.Some? && r.lease.value.expires < now
  }

  function Expiry(r: Request): int {
    if r.lease.Some? then r.lease.value.expires else 0
  }

  /** ORDER BY lease expiry LIMIT 1. */
  lemma FirstToExpireExists(requests: map<CandidateId, Request>, rs: set<CandidateId>)
    requires rs != {} && rs <= requests.Keys
    ensures exists r :: r in rs && forall other :: other in rs ==> Expiry(requests[r]) <= Expiry(requests[other])
    decreases |rs|
  {
    var r :| r in rs;
    var rest := rs - {r};
    if rest != {} {
      FirstToExpireExists(requests, rest);
      var m :| m in rest && forall other :: other in rest ==> Expiry(requests[m]) <= Expiry(requests[other]);
      var first := if Expiry(requests[r]) <= Expiry(requests[m]) then r else m;
      assert forall other :: other in rs ==> other == r || other in rest;
      assert first in rs && forall other :: other in rs ==> Expiry(requests[first]) <= Expiry(requests[other]);
    } else {
      assert rs == {r};
    }
  }

  function ExpiredClaims(requests: map<CandidateId, Request>, now: int): set<CandidateId> {
    set r | r in requests && ExpiredClaim(requests[r], now)
  }

  predicate NoneExpiresBefore(requests: map<CandidateId, Request>, chosen: set<CandidateId>, others: set<CandidateId>)
    requires chosen <= requests.Keys && others <= requests.Keys
  {
    forall r, other :: r in chosen && other in others ==> Expiry(requests[r]) <= Expiry(requests[other])
  }

  method FirstToExpire(requests: map<CandidateId, Request>, rs: set<CandidateId>) returns (r: CandidateId)
    requires rs != {} && rs <= requests.Keys
    ensures r in rs && NoneExpiresBefore(requests, {r}, rs)
  {
    FirstToExpireExists(requests, rs);
    r :| r in rs && forall other :: other in rs ==> Expiry(requests[r]) <= Expiry(requests[other]);
  }

  function Reopened(r: Request): Request {
    r.(status := Pending, lease := None)
  }

  /** The request table with the chosen claims put back in the queue. */
  function Recovered(requests: map<CandidateId, Request>, chosen: set<CandidateId>): map<CandidateId, Request> {
    map r | r in requests :: if r in chosen then Reopened(requests[r]) else requests[r]
  }

  lemma RecoveredOneMore(requests: map<CandidateId, Request>, chosen: set<CandidateId>, r: CandidateId)
    requires r in requests && r !in chosen
    ensures Recovered(requests, chosen)[r := Reopened(requests[r])] == Recovered(requests, chosen + {r})
  {
  }

  predicate Holds(t: Tables, r: CandidateId, token: Token, now: int) {
    r in t.requests && t.requests[r].status == Claimed && t.requests[r].lease.Some?
    && t.requests[r].lease.value.token == token && t.requests[r].lease.value.expires >= now
  }

  function Requeue(t: Tables, r: CandidateId): Tables
    requires r in t.requests
  {
    t.(requests := t.requests[r := Reopened(t.requests[r])])
  }

  // ---- The two reads of a snapshot ----

  predicate OpenCandidate(c: Candidate) {
    c.status == Waiting || c.status == Delayed
  }

  function BindingsOf(t: Tables, a: AccountId): set<Binding> {
    set b | b in t.bindings && b.managed == a
  }

  /** The claimed request with its candidate, the epoch and the only active binding. */
  ghost function Look(t: Tables, r: CandidateId, token: Token, now: int): Option<Glimpse> {
    if !Holds(t, r, token, now) || r !in t.candidates then None
    else
      var c := t.candidates[r];
      if c.account !in t.policies.epochs || |BindingsOf(t, c.account)| != 1 then None
      else
        var b :| b in BindingsOf(t, c.account);
        Some(Glimpse(r, c.account, c.source, OpenCandidate(c), t.policies.epochs[c.account], b))
  }

  function HeadsOf(p: Policies, a: AccountId): map<FamilyId, Head> {
    map f | f in p.families && HeadOf(p, a, f).Some? :: HeadOf(p, a, f).value
  }

  /** The heads, unless there are too many to evaluate. */
  function LookAtHeads(t: Tables, g: Glimpse): Option<Snapshot> {
    if |HeadsOf(t.policies, g.account)| > MAX_FAMILIES then None
    else Some(Snapshot(g, HeadsOf(t.policies, g.account)))
  }

  // ---- Committing ----

  /** Whether the snapshot no longer describes the claimed request. */
  predicate Stale(t: Tables, r: CandidateId, s: Snapshot)
    requires r in t.requests && r in t.candidates
    requires t.candidates[r].account in t.policies.epochs
  {
    var c := t.candidates[r];
    || c.source != s.glimpse.source || t.policies.epochs[c.account] != s.glimpse.epoch || !OpenCandidate(c)
    || s.glimpse.binding.managed != s.glimpse.account || (c.account, c.source) !in t.current
    || Binding(c.account, s.glimpse.binding.command, s.glimpse.binding.owner) !in t.bindings
  }

  /** The fence on one family of the snapshot. */
  predicate HeadHeld(p: Policies, a: AccountId, f: FamilyId, head: Head) {
    && f in p.families && p.families[f].account == a
    && p.families[f].generation == head.generation && p.families[f].head == Some(head.revision)
  }

  predicate HeadsHeld(p: Policies, a: AccountId, heads: map<FamilyId, Head>) {
    forall f :: f in heads ==> HeadHeld(p, a, f, heads[f])
  }

  function StatusAfter(outcome: NotificationOutcome): CandidateStatus {
    match outcome
    case Remind => Reminded
    case Delay => Delayed
    case Suppress => Suppressed
    case CandidateExpired => Expired
    case DeliveryWindowExpired => Expired
    case EvaluationFailed => FailedTerminal
    case ScheduleTimeAmbiguous => FailedTerminal
  }

  function RequestStatusAfter(outcome: NotificationOutcome): RequestStatus {
    match outcome
    case Remind => Done
    case Delay => Pending
    case _ => Terminal
  }

  /** A plan the commit refuses, rolling back. */
  predicate Refused(plan: Plan) {
    plan.winner.None? || (plan.outcome == Delay && (plan.nextAllowed.None? || plan.nextAllowed.value <= 0))
  }

  function Decide(t: Tables, r: CandidateId, plan: Plan, id: DecisionId): Tables
    requires r in t.requests && r in t.candidates && !Refused(plan)
  {
    var next := if plan.outcome == Delay then plan.nextAllowed else None;
    var source := t.candidates[r].source;
    t.(decisions := t.decisions[id := Decision(r, plan.winner.value, plan.outcome, next)],
       outbox := if plan.outcome == Remind && source !in t.outbox
                 then t.outbox[source := Reminder(r, id)] else t.outbox,
       requests := t.requests[r := t.requests[r].(status := RequestStatusAfter(plan.outcome), lease := None,
                                                  nextAllowed := next)],
       candidates := t.candidates[r := t.candidates[r].(status := StatusAfter(plan.outcome))])
  }

  /** None for an error, which changes nothing. */
  function Commit(t: Tables, r: CandidateId, token: Token, now: int, s: Snapshot, plan: Plan, id: DecisionId)
    : (Tables, Option<CommitResult>)
  {
    if !Holds(t, r, token, now) || r !in t.candidates
       || t.candidates[r].account !in t.policies.epochs then (t, Some(LeaseLost))
    else if Stale(t, r, s) || !HeadsHeld(t.policies, t.candidates[r].account, s.heads)
    then (Requeue(t, r), Some(SnapshotStale))
    else if Refused(plan) || id in t.decisions then (t, None)
    else (Decide(t, r, plan, id), Some(Applied))
  }

  // ---- The store ----

  class MySqlNotificationEvaluationStore {
    const policies: MySqlNotificationPolicyStore
    var candidates: map<CandidateId, Candidate>
    var requests: map<CandidateId, Request>
    var decisions: map<DecisionId, Decision>
    var outbox: map<Source, Reminder>
    var bindings: set<Binding>
    var current: set<(AccountId, Source)>

    function Value(): Tables
      reads this, policies
    {
      Tables(policies.Value(), candidates, requests, decisions, outbox, bindings, current)
    }

    constructor New(policies: MySqlNotificationPolicyStore)
      ensures this.policies == policies
      ensures Value() == Tables(policies.Value(), map[], map[], map[], map[], {}, {})
    {
      this.policies := policies;
      candidates, requests, decisions, outbox := map[], map[], map[], map[];
      bindings, current := {}, {};
    }

    /** Tells whether the candidate and whether its request are new; None for an error. */
    method ProduceFromLockedSource(a: AccountId, s: Source, newCandidate: CandidateId)
      returns (created: Option<(bool, bool)>)
      requires SourcesUnique(Value())
      modifies this`candidates, this`requests
      ensures Value() == Produce(old(Value()), a, s, newCandidate)
      ensures created == if CandidatesOf(old(Value()), a, s) == {} && newCandidate in old(candidates) then None
                         else Some((candidates != old(candidates), requests != old(requests)))
    {
      var found := CandidatesOf(Value(), a, s);
      var c := newCandidate;
      var isNew := true;
      if existing :| existing in found {
        assert forall d :: d in found ==> d == existing;
        c, isNew := existing, false;
      } else if newCandidate in candidates {
        return None;
      } else {
        candidates := candidates[c := Candidate(a, s, Waiting)];
      }
      var requested := c !in requests;
      if requested {
        requests := requests[c := NEW_REQUEST];
      }
      return Some((isNew, requested));
    }

    /** None exactly when nothing can be claimed, or for a useless lease. */
    method ClaimEvaluation(now: int, leaseSecs: nat, token: Token) returns (claimed: Option<CandidateId>)
      modifies this`requests
      ensures claimed.None? ==> Value() == old(Value())
                                && (leaseSecs == 0 || forall r :: r in requests ==> !Claimable(requests[r], now))
      ensures claimed.Some? ==> leaseSecs > 0
                                && claimed.value in old(requests) && Claimable(old(requests)[claimed.value], now)
                                && Value() == ClaimRequest(old(Value()), claimed.value, now, leaseSecs, token)
    {
      if leaseSecs == 0 {
        return None;
      }
      if r :| r in requests && Claimable(requests[r], now) {
        requests := requests[r := requests[r].(status := Claimed, lease := Some(Lease(token, now + leaseSecs)),
                                               attempt := requests[r].attempt + 1)];
        return Some(r);
      }
      return None;
    }

    method ReadGlimpse(r: CandidateId, token: Token, now: int) returns (g: Option<Glimpse>)
      ensures g == Look(Value(), r, token, now)
    {
      if r !in requests || requests[r].status != Claimed || requests[r].lease.None?
         || requests[r].lease.value.token != token || requests[r].lease.value.expires < now
         || r !in candidates {
        return None;
      }
      var c := candidates[r];
      var rows := BindingsOf(Value(), c.account);
      if c.account !in policies.epochs || |rows| != 1 {
        return None;
      }
      var b :| b in rows;
      OnlyMember(rows, b);
      return Some(Glimpse(r, c.account, c.source, OpenCandidate(c), policies.epochs[c.account], b));
    }

    method ReadHeads(g: Glimpse) returns (s: Option<Snapshot>)
      ensures s == LookAtHeads(Value(), g)
    {
      var heads := HeadsOf(policies.Value(), g.account);
      if |heads| > MAX_FAMILIES {
        return None;
      }
      return Some(Snapshot(g, heads));
    }

    method FencesHold(a: AccountId, heads: map<FamilyId, Head>) returns (held: bool)
      ensures held <==> HeadsHeld(policies.Value(), a, heads)
    {
      var rest := heads.Keys;
      while rest != {}
        invariant rest <= heads.Keys
        invariant forall f :: f in heads.Keys - rest ==> HeadHeld(policies.Value(), a, f, heads[f])
      {
        var f :| f in rest;
        if !HeadHeld(policies.Value(), a, f, heads[f]) {
          return false;
        }
        rest := rest - {f};
      }
      return true;
    }

    method CommitEvaluation(r: CandidateId, token: Token, now: int, s: Snapshot, plan: Plan, id: DecisionId)
      returns (result: Option<CommitResult>)
      modifies this
      ensures (Value(), result) == Commit(old(Value()), r, token, now, s, plan, id)
    {
      if !Holds(Value(), r, token, now) || r !in candidates
         || candidates[r].account !in policies.epochs {
        return Some(LeaseLost);
      }
      var candidate := candidates[r];
      var held := false;
      if !Stale(Value(), r, s) {
        held := FencesHold(candidate.account, s.heads);
      }
      if !held {
        requests := requests[r := requests[r].(status := Pending, lease := None)];
        return Some(SnapshotStale);
      }
      if plan.winner.None? {
        return None;
      }
      if plan.outcome == Delay && (plan.nextAllowed.None? || plan.nextAllowed.value <= 0) {
        return None;
      }
      if id in decisions {
        return None;
      }
      var next := if plan.outcome == Delay then plan.nextAllowed else None;
      decisions := decisions[id := Decision(r, plan.winner.value, plan.outcome, next)];
      if plan.outcome == Remind && candidate.source !in outbox {
        outbox := outbox[candidate.source := Reminder(r, id)];
      }
      requests := requests[r := requests[r].(status := RequestStatusAfter(plan.outcome), lease := None,
                                             nextAllowed := next)];
      candidates := candidates[r := candidate.(status := StatusAfter(plan.outcome))];
      return Some(Applied);
    }

    /** Recovers up to limit expired claims, the first to expire first, one update per claim. */
    method RecoverExpiredEvaluations(now: int, limit: nat) returns (recovered: nat, ghost chosen: set<CandidateId>)
      modifies this`requests
      ensures requests == Recovered(old(requests), chosen) && recovered == |chosen| <= limit
      ensures chosen <= ExpiredClaims(old(requests), now)
      ensures recovered < limit ==> chosen == ExpiredClaims(old(requests), now)
      ensures NoneExpiresBefore(old(requests), chosen, ExpiredClaims(old(requests), now) - chosen)
    {
      recovered, chosen := 0, {};
      var expired := ExpiredClaims(requests, now);
      var claims := requests;
      ghost var all := expired;
      assert Recovered(claims, {}) == claims;
      while recovered < limit && expired != {}
        invariant recovered == |chosen| <= limit && chosen !! expired && chosen + expired == all
        invariant requests == Recovered(claims, chosen)
        invariant NoneExpiresBefore(claims, chosen, expired)
        decreases limit - recovered
      {
        var r := FirstToExpire(claims, expired);
        RecoveredOneMore(claims, chosen, r);
        expired := expired - {r};
        requests := requests[r := Reopened(requests[r])];
        chosen := chosen + {r};
        recovered := recovered + 1;
      }
    }
  }
}
