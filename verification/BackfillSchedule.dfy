// When a gap may be backfilled again, how long a lease lasts, and what a finalisation and a
// progress report record (personal-secretary-mysql/src/repo/mysql_backfill.rs).
module BackfillSchedules {
  import opened Wrappers
  import opened Backfills

  // ---- The next claim of a gap ----

  /** The first moment at which a gap put back in the queue may be claimed again: at once after
      a final verdict, a while later when nothing could be proved, practically never when the
      reachable history is exhausted. */
  predicate MayReturn(o: Outcome, now: int, later: int) {
    if o.cutoffReached || o.completeness == KnownScopesComplete then SUSPENDED_UNTIL <= later
    else if o.completeness == Unprovable then now + BACKOFF_SECS <= later
    else true
  }

  /** After the finalisation of an active run that puts its gap back in the queue. */
  lemma ReturnsExactly(t: Tables, now: int, o: Outcome, token: Token, later: int)
    requires Fenced(t) && Finalize(t, now, o, token).1 == Ok(()) && t.runs[o.run].status == Active
    requires o.target == Uncertain && (t.gaps[o.gap].ended || t.gaps[o.gap].signalled)
    ensures ClaimableGap(Finalize(t, now, o, token).0, o.gap, later) <==> MayReturn(o, now, later)
  {
    FinishKeepsFenceExactly(t, now, o);
  }

  /** The action finalises an active run of the gap. */
  predicate FinalisesGap(w: World, a: Action, g: GapId) {
    && a.FinalizeOne? && a.outcome.gap == g && Finalize(w.t, a.now, a.outcome, a.token).1 == Ok(())
    && w.t.runs[a.outcome.run].status == Active
  }

  predicate NeverFinalised(w: World, actions: seq<Action>, g: GapId)
    decreases |actions|
  {
    actions == [] || (!FinalisesGap(w, actions[0], g) && NeverFinalised(Perform(w, actions[0]), actions[1..], g))
  }

  predicate SameSchedule(t: Tables, u: Tables, g: GapId) {
    && (g in u.schedule <==> g in t.schedule) && (g in t.schedule ==> u.schedule[g] == t.schedule[g])
  }

  lemma ActionKeepsSchedule(w: World, a: Action, g: GapId)
    requires !FinalisesGap(w, a, g) && g in w.t.gaps
    ensures var u := Perform(w, a).t;
            && g in u.gaps && SameSchedule(w.t, u, g)
            && (w.t.gaps[g].ended ==> u.gaps[g].ended) && (w.t.gaps[g].signalled ==> u.gaps[g].signalled)
            && (w.t.gaps[g].status == Uncertain && !(a.Claim? && a.gap == g) ==> u.gaps[g].status == Uncertain)
            && (a.Claim? && a.gap == g && u.gaps[g].status != w.t.gaps[g].status ==> ClaimableGap(w.t, g, a.now))
  {
  }

  /** Whatever else happens, the wait lasts until the gap is finalised again: nobody can claim
      it earlier, and if nobody tries later it stays in the queue. */
  lemma {:induction false} WaitLasts(w: World, actions: seq<Action>, g: GapId)
    requires g in w.t.gaps && NeverFinalised(w, actions, g)
    ensures var u := PerformAll(w, actions).t;
            && g in u.gaps && SameSchedule(w.t, u, g)
            && (w.t.gaps[g].ended ==> u.gaps[g].ended) && (w.t.gaps[g].signalled ==> u.gaps[g].signalled)
            && (w.t.gaps[g].status == Uncertain && g in w.t.schedule
                && (forall i :: 0 <= i < |actions| && actions[i].Claim? && actions[i].gap == g ==>
                      actions[i].now < w.t.schedule[g])
                ==> u.gaps[g].status == Uncertain)
    decreases |actions|
  {
    if actions != [] {
      ActionKeepsSchedule(w, actions[0], g);
      assert forall i :: 0 <= i < |actions[1..]| ==> actions[1..][i] == actions[i + 1];
      WaitLasts(Perform(w, actions[0]), actions[1..], g);
    }
  }

  /** So after such a finalisation and any run without another one, the gap is claimable iff it
      is in the queue and its wait is over. */
  lemma ReturnsExactlyOverRuns(w: World, now: int, o: Outcome, token: Token, actions: seq<Action>, later: int)
    requires Inv(w) && Finalize(w.t, now, o, token).1 == Ok(()) && w.t.runs[o.run].status == Active
    requires o.target == Uncertain && (w.t.gaps[o.gap].ended || w.t.gaps[o.gap].signalled)
    requires NeverFinalised(Perform(w, FinalizeOne(now, o, token)), actions, o.gap)
    ensures var u := PerformAll(Perform(w, FinalizeOne(now, o, token)), actions).t;
            && o.gap in u.gaps
            && (ClaimableGap(u, o.gap, later) <==> u.gaps[o.gap].status == Uncertain && MayReturn(o, now, later))
  {
    var done := Perform(w, FinalizeOne(now, o, token));
    FinishKeepsFenceExactly(w.t, now, o);
    ReturnsExactly(w.t, now, o, token, later);
    WaitLasts(done, actions, o.gap);
  }

  // ---- What a finalisation records ----

  function Sum(s: seq<nat>): nat {
    if s == [] then 0 else Sum(s[..|s| - 1]) + s[|s| - 1]
  }

  lemma {:induction false} SumFromFront(s: seq<nat>)
    requires s != []
    ensures Sum(s) == s[0] + Sum(s[1..])
  {
    if |s| > 1 {
      SumFromFront(s[..|s| - 1]);
      assert s[..|s| - 1][1..] == s[1..][..|s| - 2];
    } else {
      assert s[..0] == [] && s[1..] == [];
    }
  }

  datatype Column = Pages | Events | Accepted | Duplicates | Anomalies

  function Entry(p: Progress, c: Column): nat {
    match c
    case Pages => p.pages
    case Events => p.events
    case Accepted => p.accepted
    case Duplicates => p.duplicates
    case Anomalies => p.anomalies
  }

  function Entries(scopes: seq<Progress>, c: Column): seq<nat> {
    seq(|scopes|, i requires 0 <= i < |scopes| => Entry(scopes[i], c))
  }

  /** Every column is added up by itself. */
  lemma {:induction false} TotalAddsUp(scopes: seq<Progress>, c: Column)
    ensures Entry(Total(scopes), c) == Sum(Entries(scopes, c))
  {
    if scopes != [] {
      TotalAddsUp(scopes[1..], c);
      SumFromFront(Entries(scopes, c));
      assert Entries(scopes, c)[1..] == Entries(scopes[1..], c);
    }
  }

  /** An accepted finalisation of an active run: the run is over with a status that tells what
      was proved, its totals are those of the scopes, and its gap, if still being backfilled,
      has the target status; no other gap, run, lease or progress row changes. */
  lemma FinalisesExactly(t: Tables, now: int, o: Outcome, token: Token)
    ensures var (after, done) := Finalize(t, now, o, token);
            && (done == Ok(()) <==>
                  && o.run in t.runs && o.run in t.leases && t.leases[o.run] == token
                  && t.runs[o.run].gap == o.gap && o.gap in t.gaps
                  && if t.runs[o.run].status == Active
                     then t.gaps[o.gap].status in {Backfilling, o.target}
                     else t.gaps[o.gap].status == o.target && t.runs[o.run].completeness == o.completeness)
            && (done != Ok(()) || t.runs[o.run].status != Active ==> after == t)
            && (done == Ok(()) && t.runs[o.run].status == Active ==>
                  && after.runs.Keys == t.runs.Keys && after.gaps.Keys == t.gaps.Keys
                  && after.leases == t.leases && after.scopes == t.scopes
                  && var run := after.runs[o.run];
                  && (run.status == Verified <==> o.completeness == ProvenComplete)
                  && (run.status == Lost <==> o.completeness == UnrecoverableHistory)
                  && run.status != Active && run.completeness == o.completeness
                  && run.totals == Total(o.scopes) && run.gap == o.gap && run.expires == t.runs[o.run].expires
                  && after.gaps[o.gap].status == o.target
                  && (t.gaps[o.gap].status == Backfilling ==> after.gaps[o.gap].updatedAt == now)
                  && after.gaps[o.gap].ended == t.gaps[o.gap].ended
                  && after.gaps[o.gap].signalled == t.gaps[o.gap].signalled
                  && (forall r :: r in t.runs && r != o.run ==> after.runs[r] == t.runs[r])
                  && (forall g :: g in t.gaps && g != o.gap ==>
                        after.gaps[g] == t.gaps[g] && SameSchedule(t, after, g)))
  {
  }

  // ---- Leases ----

  /** A claimed run can be taken over exactly once its lease has run out, and its gap cannot be
      claimed by anyone. */
  lemma ClaimLastsExactly(t: Tables, g: GapId, now: int, leaseSecs: nat, run: RunId, token: Token, later: int)
    requires g in t.gaps && run !in t.runs
    ensures var after := ClaimGap(t, g, now, leaseSecs, run, token);
            && (ExpiredRun(after, run, later) <==> now + leaseSecs < later)
            && !ClaimableGap(after, g, later) && Owned(after, run, token)
            && after.runs[run].gap == g && after.runs[run].status == Active
            && (forall r :: r in t.runs ==> r in after.runs && after.runs[r] == t.runs[r])
            && (forall h :: h in t.gaps && h != g ==> h in after.gaps && after.gaps[h] == t.gaps[h])
            && after.gaps[g].updatedAt == now && after.gaps[g].ended == t.gaps[g].ended
            && after.gaps[g].signalled == t.gaps[g].signalled
            && after.schedule == t.schedule && after.scopes == t.scopes
  {
  }

  /** A takeover changes the token and the lease of the run, and nothing else. */
  lemma ReclaimLastsExactly(t: Tables, r: RunId, expires: int, token: Token, later: int)
    requires r in t.runs && t.runs[r].status == Active
    ensures var after := Reclaim(t, r, expires, token);
            && (ExpiredRun(after, r, later) <==> expires < later) && Owned(after, r, token)
            && after.runs[r] == t.runs[r].(expires := after.runs[r].expires)
            && after == t.(runs := after.runs, leases := after.leases)
            && (forall q :: q in t.runs && q != r ==> q in after.runs && after.runs[q] == t.runs[q])
            && (forall q :: q in t.leases && q != r ==> q in after.leases && after.leases[q] == t.leases[q])
  {
  }

  /** A progress report is accepted from the owner of an active run for a known scope, stores
      exactly that scope's progress, and renews the lease. */
  lemma RecordsExactly(t: Tables, now: int, leaseSecs: nat, r: RunId, token: Token, scope: ScopeKey, known: bool,
                       progress: Progress, later: int)
    ensures var (after, done) := Record(t, now, leaseSecs, r, token, scope, known, progress);
            && (done == Ok(()) <==> Owned(t, r, token) && t.runs[r].status == Active && known)
            && (done != Ok(()) ==> after == t)
            && (done == Ok(()) ==>
                  && (r, scope) in after.scopes && after.scopes[(r, scope)] == progress
                  && (forall k :: k != (r, scope) ==> (k in after.scopes <==> k in t.scopes)
                                                      && (k in t.scopes ==> after.scopes[k] == t.scopes[k]))
                  && (ExpiredRun(after, r, later) <==> now + leaseSecs < later)
                  && after == t.(runs := after.runs, scopes := after.scopes)
                  && after.runs[r] == t.runs[r].(expires := after.runs[r].expires)
                  && forall q :: q in t.runs && q != r ==> q in after.runs && after.runs[q] == t.runs[q])
  {
  }

  /** Taking over several runs at once leaves every run alone that is not among them. */
  lemma {:induction false} OthersKeepTheirs(t: Tables, claims: seq<ClaimedGap>, expires: int, r: RunId)
    requires forall i :: 0 <= i < |claims| ==> claims[i].run != r
    ensures var u := ReclaimAll(t, claims, expires);
            && (r in u.runs <==> r in t.runs) && (r in t.runs ==> u.runs[r] == t.runs[r])
            && (r in u.leases <==> r in t.leases) && (r in t.leases ==> u.leases[r] == t.leases[r])
            && u == t.(runs := u.runs, leases := u.leases)
    decreases |claims|
  {
    if claims != [] {
      OthersKeepTheirs(t, claims[..|claims| - 1], expires, r);
    }
  }

  /** And each of them is owned under its own new token until the same time. */
  lemma {:induction false} ReclaimsExactly(t: Tables, claims: seq<ClaimedGap>, expires: int, i: nat, later: int)
    requires i < |claims| && claims[i].run in t.runs && t.runs[claims[i].run].status == Active && RunsDistinct(claims)
    ensures var u, r := ReclaimAll(t, claims, expires), claims[i].run;
            && Owned(u, r, claims[i].token) && (ExpiredRun(u, r, later) <==> expires < later)
            && u.runs[r] == t.runs[r].(expires := u.runs[r].expires)
    decreases |claims|
  {
    var n := |claims| - 1;
    var before := ReclaimAll(t, claims[..n], expires);
    if i == n {
      OthersKeepTheirs(t, claims[..n], expires, claims[n].run);
      ReclaimLastsExactly(before, claims[n].run, expires, claims[n].token, later);
    } else {
      ReclaimsExactly(t, claims[..n], expires, i, later);
      assert claims[..n][i] == claims[i] && claims[i].run != claims[n].run;
    }
  }

  /** The action takes the run over from its owner. */
  predicate TakesOver(w: World, a: Action, r: RunId) {
    a.ReclaimRun? && a.run == r && ExpiredRun(w.t, r, a.now)
  }

  predicate NeverTakenOver(w: World, actions: seq<Action>, r: RunId)
    decreases |actions|
  {
    actions == [] || (!TakesOver(w, actions[0], r) && NeverTakenOver(Perform(w, actions[0]), actions[1..], r))
  }

  /** A token lasts as long as its run is not taken over, and that takes an expired lease. */
  lemma {:induction false} TokenLasts(w: World, actions: seq<Action>, r: RunId, token: Token)
    requires Owned(w.t, r, token) && NeverTakenOver(w, actions, r)
    ensures Owned(PerformAll(w, actions).t, r, token)
    decreases |actions|
  {
    if actions != [] {
      TokenLasts(Perform(w, actions[0]), actions[1..], r, token);
    }
  }
}
