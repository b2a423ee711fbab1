// What a claim, a decision and its refusals leave behind, and how long they last
// (personal-secretary-mysql/src/repo/mysql_notification_policy.rs).
module EvaluationOutcomes {
  import opened Wrappers
  import NotificationPolicies
  import opened NotificationEvaluation
  import opened EvaluationSafety

  // ---- One commit ----

  /** Everything else is as it was. */
  predicate OnlyThisMoved(t: Tables, u: Tables, r: CandidateId) {
    && u.policies == t.policies && u.bindings == t.bindings && u.current == t.current
    && u.requests.Keys == t.requests.Keys && u.candidates.Keys == t.candidates.Keys
    && (forall q :: q in t.requests && q != r ==> u.requests[q] == t.requests[q])
    && (forall q :: q in t.candidates && q != r ==> u.candidates[q] == t.candidates[q])
  }

  /** The decision is recorded with the winning revision, the request and the candidate have
      the status that tells it, and a delay says from when on. */
  predicate Decided(t: Tables, u: Tables, r: CandidateId, plan: Plan, id: DecisionId)
    requires r in t.requests && r in t.candidates
  {
    && OnlyThisMoved(t, u, r) && r in u.requests && r in u.candidates
    && id !in t.decisions && u.decisions.Keys == t.decisions.Keys + {id}
    && (forall d :: d in t.decisions ==> u.decisions[d] == t.decisions[d])
    && u.decisions[id].candidate == r && u.decisions[id].outcome == plan.outcome
    && plan.winner == Some(u.decisions[id].revision)
    && u.decisions[id].nextAllowed == u.requests[r].nextAllowed
    && u.requests[r].lease == None && u.requests[r].attempt == t.requests[r].attempt
    && (u.requests[r].status == Pending <==> plan.outcome == Delay)
    && (u.requests[r].status == Done <==> plan.outcome == Remind) && u.requests[r].status != Claimed
    && u.requests[r].nextAllowed == (if plan.outcome == Delay then plan.nextAllowed else None)
    && (plan.outcome == Delay ==> plan.nextAllowed.Some? && plan.nextAllowed.value > 0)
    && u.candidates[r].account == t.candidates[r].account && u.candidates[r].source == t.candidates[r].source
    && (u.candidates[r].status == Reminded <==> plan.outcome == Remind)
    && (u.candidates[r].status == Delayed <==> plan.outcome == Delay)
    && (u.candidates[r].status == Suppressed <==> plan.outcome == Suppress)
    && (u.candidates[r].status == Expired <==> plan.outcome in {CandidateExpired, DeliveryWindowExpired})
    && (u.candidates[r].status == FailedTerminal <==> plan.outcome in {EvaluationFailed, ScheduleTimeAmbiguous})
    && (plan.outcome != Remind ==> u.outbox == t.outbox)
  }

  /** What the worker read still holds: its request under an unexpired lease, its candidate
      open and of a current source version, its binding active, its account's epoch. */
  predicate StillHolds(t: Tables, r: CandidateId, token: Token, now: int, s: Snapshot) {
    && r in t.requests && r in t.candidates && t.requests[r].status == Claimed
    && t.requests[r].lease.Some? && t.requests[r].lease.value.token == token && now <= t.requests[r].lease.value.expires
    && var c := t.candidates[r];
       && c.status in {Waiting, Delayed} && c.source == s.glimpse.source && (c.account, c.source) in t.current
       && c.account in t.policies.epochs && t.policies.epochs[c.account] == s.glimpse.epoch
       && s.glimpse.binding.managed == s.glimpse.account
       && Binding(c.account, s.glimpse.binding.command, s.glimpse.binding.owner) in t.bindings
       && HeadsHeld(t.policies, c.account, s.heads)
  }

  /** A commit is applied iff what the worker read still holds and its plan is complete; then
      it decides. Found stale it puts the request back in the queue, and any other refusal
      changes nothing. */
  lemma CommitsExactly(t: Tables, r: CandidateId, token: Token, now: int, s: Snapshot, plan: Plan, id: DecisionId)
    ensures var (u, result) := Commit(t, r, token, now, s, plan, id);
            && (result == Some(Applied) <==>
                  && StillHolds(t, r, token, now, s) && plan.winner.Some? && id !in t.decisions
                  && (plan.outcome == Delay ==> plan.nextAllowed.Some? && plan.nextAllowed.value > 0))
            && (result == Some(Applied) ==> Decided(t, u, r, plan, id))
            && (result == Some(SnapshotStale) ==>
                  && Holds(t, r, token, now) && OnlyThisMoved(t, u, r) && u.requests[r].status == Pending
                  && u.requests[r].lease == None && u.requests[r].nextAllowed == t.requests[r].nextAllowed
                  && u.requests[r].attempt == t.requests[r].attempt
                  && u.candidates == t.candidates && u.decisions == t.decisions && u.outbox == t.outbox)
            && (result == Some(LeaseLost) || result == None ==> u == t)
            && (result == Some(LeaseLost) <==>
                  !Holds(t, r, token, now) || r !in t.candidates || t.candidates[r].account !in t.policies.epochs)
  {
  }

  /** A worker whose account and bindings nobody touched between its two reads and its commit
      is applied: reading the heads of the same state is never found stale. */
  lemma UndisturbedCommitApplies(t: Tables, r: CandidateId, token: Token, now: int, g: Glimpse, plan: Plan,
                                 id: DecisionId)
    requires Look(t, r, token, now) == Some(g) && LookAtHeads(t, g).Some?
    requires g.open && (g.account, g.source) in t.current && plan.winner.Some? && id !in t.decisions
    requires plan.outcome == Delay ==> plan.nextAllowed.Some? && plan.nextAllowed.value > 0
    ensures Commit(t, r, token, now, LookAtHeads(t, g).value, plan, id).1 == Some(Applied)
  {
    var s := LookAtHeads(t, g).value;
    forall f | f in s.heads ensures HeadHeld(t.policies, g.account, f, s.heads[f]) {
      assert NotificationPolicies.HeadOf(t.policies, g.account, f) == Some(s.heads[f]);
    }
    var b :| b in BindingsOf(t, g.account) && b == g.binding;
    assert Binding(g.account, b.command, b.owner) == b && b in t.bindings;
    CommitsExactly(t, r, token, now, s, plan, id);
  }

  // ---- Claims ----

  /** A claim holds exactly until its lease runs out, and then the request may be claimed. */
  lemma ClaimLastsExactly(t: Tables, r: CandidateId, now: int, leaseSecs: nat, token: Token, later: int)
    requires r in t.requests
    ensures var u := ClaimRequest(t, r, now, leaseSecs, token);
            && OnlyThisMoved(t, u, r) && u.candidates == t.candidates && u.decisions == t.decisions
            && u.outbox == t.outbox
            && (Holds(u, r, token, later) <==> later <= now + leaseSecs)
            && (Claimable(u.requests[r], later) <==> now + leaseSecs < later)
            && u.requests[r].attempt == t.requests[r].attempt + 1
            && u.requests[r].nextAllowed == t.requests[r].nextAllowed
  {
  }

  /** Recovering puts exactly the chosen claims back in the queue, with their waits and attempts. */
  lemma RecoversExactly(requests: map<CandidateId, Request>, chosen: set<CandidateId>, r: CandidateId, later: int)
    requires r in requests
    ensures var after := Recovered(requests, chosen);
            && after.Keys == requests.Keys
            && (r !in chosen ==> after[r] == requests[r])
            && (r in chosen ==>
                  && after[r].status == Pending && after[r].lease == None && after[r].attempt == requests[r].attempt
                  && after[r].nextAllowed == requests[r].nextAllowed
                  && (requests[r].nextAllowed == None ==> Claimable(after[r], later)))
  {
  }

  /** The action is a claim, a recovery or a commit that may move this claimed request. */
  predicate Disturbs(w: World, a: Action, r: CandidateId)
    requires r in w.t.requests && w.t.requests[r].lease.Some?
  {
    var lease := w.t.requests[r].lease.value;
    match a
    case ClaimOne(q, now, _, _) => q == r && now > lease.expires
    case Recover(chosen, now) => r in chosen && now > lease.expires
    case CommitOne(q, token, _, _, _, _) => q == r && token == lease.token
    case _ => false
  }

  lemma ClaimIsLeftAlone(w: World, a: Action, r: CandidateId)
    requires r in w.t.requests && w.t.requests[r].status == Claimed && w.t.requests[r].lease.Some?
    requires r in w.t.candidates && !Disturbs(w, a, r)
    ensures r in Perform(w, a).t.requests && Perform(w, a).t.requests[r] == w.t.requests[r]
    ensures r in Perform(w, a).t.candidates
  {
    match a
    case ProduceFrom(account, source, c) => ProduceLeavesRows(w.t, account, source, c, r);
    case CommitOne(q, token, now, s, plan, id) => CommitsExactly(w.t, q, token, now, s, plan, id);
    case _ =>
  }

  ghost predicate NeverDisturbed(w: World, actions: seq<Action>, r: CandidateId, lease: Lease)
    decreases |actions|
  {
    actions == []
    || (&& r in w.t.requests && w.t.requests[r].lease == Some(lease) && !Disturbs(w, actions[0], r)
        && NeverDisturbed(Perform(w, actions[0]), actions[1..], r, lease))
  }

  /** While a lease lasts nobody else can take the request: it is the holder's until it expires
      or the holder commits. */
  lemma {:induction false} ClaimIsExclusive(w: World, actions: seq<Action>, r: CandidateId, lease: Lease, later: int)
    requires r in w.t.requests && w.t.requests[r].status == Claimed && w.t.requests[r].lease == Some(lease)
    requires r in w.t.candidates && NeverDisturbed(w, actions, r, lease)
    ensures var t := PerformAll(w, actions).t;
            && r in t.requests && t.requests[r] == w.t.requests[r]
            && (Holds(t, r, lease.token, later) <==> later <= lease.expires)
    decreases |actions|
  {
    if actions != [] {
      ClaimIsLeftAlone(w, actions[0], r);
      ClaimIsExclusive(Perform(w, actions[0]), actions[1..], r, lease, later);
    }
  }

  // ---- Delays ----

  /** The action claims the request at or after the moment it may be evaluated again. */
  predicate ClaimsFrom(a: Action, r: CandidateId, from: int) {
    a.ClaimOne? && a.candidate == r && from <= a.now
  }

  lemma WaitingIsLeftAlone(w: World, a: Action, r: CandidateId, from: int)
    requires r in w.t.requests && r in w.t.candidates && !ClaimsFrom(a, r, from)
    requires w.t.requests[r].status == Pending && w.t.requests[r].nextAllowed == Some(from)
    ensures r in Perform(w, a).t.requests && Perform(w, a).t.requests[r] == w.t.requests[r]
    ensures r in Perform(w, a).t.candidates
  {
    match a
    case ProduceFrom(account, source, c) => ProduceLeavesRows(w.t, account, source, c, r);
    case CommitOne(q, token, now, s, plan, id) => CommitsExactly(w.t, q, token, now, s, plan, id);
    case _ =>
  }

  /** A delayed request waits out its delay in every run: whatever happens, unless somebody
      claims it at a time not before the one decided, it stays in the queue, claimable from
      that time on and not earlier. */
  lemma {:induction false} DelayIsKept(w: World, actions: seq<Action>, r: CandidateId, from: int, later: int)
    requires r in w.t.requests && r in w.t.candidates
    requires w.t.requests[r].status == Pending && w.t.requests[r].nextAllowed == Some(from)
    requires forall i :: 0 <= i < |actions| ==> !ClaimsFrom(actions[i], r, from)
    ensures var t := PerformAll(w, actions).t;
            && r in t.requests && t.requests[r] == w.t.requests[r]
            && (Claimable(t.requests[r], later) <==> from <= later)
    decreases |actions|
  {
    if actions != [] {
      WaitingIsLeftAlone(w, actions[0], r, from);
      assert forall i :: 0 <= i < |actions[1..]| ==> actions[1..][i] == actions[i + 1];
      DelayIsKept(Perform(w, actions[0]), actions[1..], r, from, later);
    }
  }

  /** So it is with every applied delay. */
  lemma DecidedDelayIsKept(w: World, r: CandidateId, token: Token, now: int, s: Snapshot, plan: Plan, id: DecisionId,
                           actions: seq<Action>, later: int)
    requires s in w.snapshots && s.glimpse.candidate == r && plan.outcome == Delay
    requires Commit(w.t, r, token, now, s, plan, id).1 == Some(Applied)
    requires forall i :: 0 <= i < |actions| ==> !ClaimsFrom(actions[i], r, plan.nextAllowed.value)
    ensures var t := PerformAll(Perform(w, CommitOne(r, token, now, s, plan, id)), actions).t;
            && r in t.requests && (Claimable(t.requests[r], later) <==> plan.nextAllowed.value <= later)
  {
    CommitsExactly(w.t, r, token, now, s, plan, id);
    DelayIsKept(Perform(w, CommitOne(r, token, now, s, plan, id)), actions, r, plan.nextAllowed.value, later);
  }

  // ---- Decisions ----

  lemma ActionKeepsDecisions(w: World, a: Action, d: DecisionId)
    requires d in w.t.decisions
    ensures d in Perform(w, a).t.decisions && Perform(w, a).t.decisions[d] == w.t.decisions[d]
  {
    match a
    case CommitOne(q, token, now, s, plan, id) => CommitsExactly(w.t, q, token, now, s, plan, id);
    case _ =>
  }

  /** A decision once made is never changed or lost, its winning revision included. */
  lemma {:induction false} DecisionsAreKept(w: World, actions: seq<Action>, d: DecisionId)
    requires d in w.t.decisions
    ensures var t := PerformAll(w, actions).t; d in t.decisions && t.decisions[d] == w.t.decisions[d]
    decreases |actions|
  {
    if actions != [] {
      ActionKeepsDecisions(w, actions[0], d);
      DecisionsAreKept(Perform(w, actions[0]), actions[1..], d);
    }
  }

  // ---- Producing and reading ----

  /** A source version the account has no candidate for gets one, waiting, with a request that
      can be claimed at once; one it has a candidate for gets at most the missing request. */
  lemma ProducesExactly(t: Tables, a: NotificationPolicies.AccountId, s: Source, c: CandidateId, now: int)
    ensures var u := Produce(t, a, s, c);
            && u == t.(candidates := u.candidates, requests := u.requests)
            && (forall x :: x in t.candidates ==> x in u.candidates && u.candidates[x] == t.candidates[x])
            && (forall x :: x in t.requests ==> x in u.requests && u.requests[x] == t.requests[x])
            && (CandidatesOf(t, a, s) == {} && c !in t.candidates ==>
                  && u.candidates.Keys == t.candidates.Keys + {c} && u.candidates[c] == Candidate(a, s, Waiting)
                  && c in u.requests
                  && (c !in t.requests ==> Claimable(u.requests[c], now) && u.requests[c].attempt == 0))
            && (CandidatesOf(t, a, s) == {} && c in t.candidates ==> u == t)
            && (CandidatesOf(t, a, s) != {} ==>
                  u.candidates == t.candidates && exists x :: x in CandidatesOf(t, a, s) && x in u.requests)
  {
  }

  /** A worker reads its own request and candidate, the epoch of its account and the account's
      only binding; without a valid lease or exactly one binding it reads nothing. */
  lemma LooksExactly(t: Tables, r: CandidateId, token: Token, now: int)
    ensures Look(t, r, token, now).Some? <==>
            && Holds(t, r, token, now) && r in t.candidates && t.candidates[r].account in t.policies.epochs
            && |BindingsOf(t, t.candidates[r].account)| == 1
    ensures Look(t, r, token, now).Some? ==>
              var g, c := Look(t, r, token, now).value, t.candidates[r];
              && g.candidate == r && g.account == c.account && g.source == c.source
              && (g.open <==> c.status in {Waiting, Delayed}) && g.epoch == t.policies.epochs[c.account]
              && g.binding in t.bindings && g.binding.managed == c.account
              && forall b :: b in t.bindings && b.managed == c.account ==> b == g.binding
  {
    if Look(t, r, token, now).Some? {
      var a := t.candidates[r].account;
      var g := Look(t, r, token, now).value;
      assert g.binding in BindingsOf(t, a);
      forall b | b in t.bindings && b.managed == a ensures b == g.binding {
        OneOnly(BindingsOf(t, a), g.binding, b);
      }
    }
  }

  lemma OneOnly(s: set<Binding>, x: Binding, y: Binding)
    requires |s| == 1 && x in s && y in s
    ensures x == y
  {
    assert |s - {x}| == 0;
  }

  /** The second read has an entry for exactly the account's families that have a head, each
      with the generation, the kinds and the rule that stand in the tables. */
  lemma ReadsHeadsExactly(t: Tables, g: Glimpse, f: NotificationPolicies.FamilyId)
    requires LookAtHeads(t, g).Some?
    ensures var heads, p := LookAtHeads(t, g).value.heads, t.policies;
            && LookAtHeads(t, g).value.glimpse == g
            && (f in heads <==> && f in p.families && p.families[f].account == g.account
                                && p.families[f].head.Some? && p.families[f].head.value in p.revisions)
            && (f in heads ==>
                  && heads[f].generation == p.families[f].generation && heads[f].kind == p.families[f].kind
                  && p.families[f].head == Some(heads[f].revision)
                  && heads[f].revisionKind == p.revisions[heads[f].revision].kind
                  && heads[f].rule == p.revisions[heads[f].revision].rule)
  {
  }
}
