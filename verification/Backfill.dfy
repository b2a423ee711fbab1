// Backfilling gaps in the event history: leased runs with rotating tokens
// (personal-secretary-mysql/src/repo/mysql_backfill.rs).
module Backfills {
  import opened Wrappers
  import opened Sets

  type GapId(==,!new)
  type RunId(==,!new)
  type Token(==,!new)
  type ScopeKey(==,!new)

  /** 9999-12-31 23:59:59, in seconds: later than any claim. */
  const SUSPENDED_UNTIL := 253402300799
  const BACKOFF_SECS := 30

  datatype GapStatus = Uncertain | Backfilling | VerifiedComplete | Unrecoverable

  datatype Gap = Gap(status: GapStatus, ended: bool, signalled: bool, updatedAt: int)

  datatype RunStatus = Active | Verified | Unproven | Lost

  datatype Completeness = ProvenComplete | KnownScopesComplete | Unprovable | UnrecoverableHistory

  datatype Progress = Progress(pages: nat, events: nat, accepted: nat, duplicates: nat, anomalies: nat)

  const NO_PROGRESS := Progress(0, 0, 0, 0, 0)

  datatype Run = Run(gap: GapId, status: RunStatus, expires: Option<int>, completeness: Completeness, totals: Progress)

  /** leases holds the current token of every run. */
  datatype Tables = Tables(
    gaps: map<GapId, Gap>,
    runs: map<RunId, Run>,
    leases: map<RunId, Token>,
    schedule: map<GapId, int>,
    scopes: map<(RunId, ScopeKey), Progress>)

  datatype Outcome = Outcome(
    run: RunId, gap: GapId, target: GapStatus, completeness: Completeness, cutoffReached: bool, scopes: seq<Progress>)

  datatype StoreError = LeaseLost | InvalidData

  type Done = Result<(), StoreError>

  // ---- Claiming ----

  predicate ClaimableGap(t: Tables, g: GapId, now: int) {
    && g in t.gaps && t.gaps[g].status == Uncertain && (t.gaps[g].ended || t.gaps[g].signalled)
    && (g in t.schedule ==> t.schedule[g] <= now)
  }

  /** The longest untouched claimable gap. */
  predicate NextGap(t: Tables, g: GapId, now: int) {
    && ClaimableGap(t, g, now)
    && forall h :: h in t.gaps && ClaimableGap(t, h, now) ==> t.gaps[g].updatedAt <= t.gaps[h].updatedAt
  }

  function ClaimGap(t: Tables, g: GapId, now: int, leaseSecs: nat, run: RunId, token: Token): Tables
    requires g in t.gaps
  {
    t.(gaps := t.gaps[g := t.gaps[g].(status := Backfilling, updatedAt := now)],
       runs := t.runs[run := Run(g, Active, Some(now + leaseSecs), Unprovable, NO_PROGRESS)],
       leases := t.leases[run := token])
  }

  predicate ExpiredRun(t: Tables, r: RunId, now: int) {
    r in t.runs && t.runs[r].status == Active && (t.runs[r].expires.None? || t.runs[r].expires.value < now)
  }

  /** Renews an expired run under a new token. */
  function Reclaim(t: Tables, r: RunId, expires: int, token: Token): Tables
    requires r in t.runs
  {
    t.(runs := t.runs[r := t.runs[r].(expires := Some(expires))], leases := t.leases[r := token])
  }

  // ---- Working on a run ----

  predicate Owned(t: Tables, r: RunId, token: Token) {
    r in t.runs && r in t.leases && t.leases[r] == token
  }

  function Record(t: Tables, now: int, leaseSecs: nat, r: RunId, token: Token, scope: ScopeKey, known: bool,
                  progress: Progress): (Tables, Done)
  {
    if !Owned(t, r, token) || t.runs[r].status != Active then (t, Err(LeaseLost))
    else if !known then (t, Err(InvalidData))
    else (t.(runs := t.runs[r := t.runs[r].(expires := Some(now + leaseSecs))],
             scopes := t.scopes[(r, scope) := progress]),
          Ok(()))
  }

  function Plus(a: Progress, b: Progress): Progress {
    Progress(a.pages + b.pages, a.events + b.events, a.accepted + b.accepted, a.duplicates + b.duplicates,
             a.anomalies + b.anomalies)
  }

  function Total(scopes: seq<Progress>): Progress {
    if scopes == [] then NO_PROGRESS else Plus(scopes[0], Total(scopes[1..]))
  }

  function RunStatusFor(c: Completeness): RunStatus {
    match c
    case ProvenComplete => Verified
    case KnownScopesComplete => Unproven
    case Unprovable => Unproven
    case UnrecoverableHistory => Lost
  }

  datatype ReclaimPolicy = TerminalPolicy | BackoffPolicy(secs: nat) | Suspended

  function PolicyOf(o: Outcome): ReclaimPolicy {
    if o.cutoffReached then Suspended
    else match o.completeness
      case KnownScopesComplete => Suspended
      case Unprovable => BackoffPolicy(BACKOFF_SECS)
      case _ => TerminalPolicy
  }

  function Reschedule(schedule: map<GapId, int>, g: GapId, now: int, policy: ReclaimPolicy): map<GapId, int> {
    match policy
    case TerminalPolicy => schedule - {g}
    case BackoffPolicy(secs) => schedule[g := now + secs]
    case Suspended => schedule[g := SUSPENDED_UNTIL]
  }

  function Finish(t: Tables, now: int, o: Outcome): Tables
    requires o.run in t.runs && o.gap in t.gaps
  {
    t.(gaps := if t.gaps[o.gap].status == Backfilling
               then t.gaps[o.gap := t.gaps[o.gap].(status := o.target, updatedAt := now)] else t.gaps,
       runs := t.runs[o.run := t.runs[o.run].(status := RunStatusFor(o.completeness), completeness := o.completeness,
                                              totals := Total(o.scopes))],
       schedule := Reschedule(t.schedule, o.gap, now, PolicyOf(o)))
  }

  /** A retry under the same token is answered without changing anything. */
  function Finalize(t: Tables, now: int, o: Outcome, token: Token): (Tables, Done) {
    if !Owned(t, o.run, token) then (t, Err(LeaseLost))
    else if t.runs[o.run].gap != o.gap then (t, Err(InvalidData))
    else if o.gap !in t.gaps then (t, Err(InvalidData))
    else if t.runs[o.run].status != Active then
      (t, if t.gaps[o.gap].status == o.target && t.runs[o.run].completeness == o.completeness then Ok(())
       else Err(InvalidData))
    else if t.gaps[o.gap].status != Backfilling && t.gaps[o.gap].status != o.target then (t, Err(InvalidData))
    else (Finish(t, now, o), Ok(()))
  }

  // ---- The store ----

  datatype ClaimedGap = ClaimedGap(run: RunId, token: Token, gap: GapId, isResume: bool)

  class MySqlBackfillStore {
    const leaseSecs: nat
    var gaps: map<GapId, Gap>
    var runs: map<RunId, Run>
    var leases: map<RunId, Token>
    var schedule: map<GapId, int>
    var scopes: map<(RunId, ScopeKey), Progress>

    function Value(): Tables
      reads this
    {
      Tables(gaps, runs, leases, schedule, scopes)
    }

    constructor New(leaseSecs: nat)
      ensures this.leaseSecs == leaseSecs && Value() == Tables(map[], map[], map[], map[], map[])
    {
      this.leaseSecs := leaseSecs;
      gaps, runs, leases, schedule, scopes := map[], map[], map[], map[], map[];
    }

    /** None when no gap can be claimed; an error when the new run's id is taken. */
    method ClaimNextGap(now: int, secs: nat, newRun: RunId, newToken: Token)
      returns (r: Result<Option<ClaimedGap>, StoreError>)
      modifies this
      ensures match r
              case Err(_) => Value() == old(Value()) && newRun in old(runs)
              case Ok(None) => Value() == old(Value()) && forall g :: g in gaps ==> !ClaimableGap(old(Value()), g, now)
              case Ok(Some(claim)) =>
                && NextGap(old(Value()), claim.gap, now) && claim == ClaimedGap(newRun, newToken, claim.gap, false)
                && Value() == ClaimGap(old(Value()), claim.gap, now, secs, newRun, newToken)
    {
      var claimable := set g | g in gaps && ClaimableGap(Value(), g, now);
      if claimable == {} {
        assert forall g :: g in gaps && ClaimableGap(Value(), g, now) ==> g in claimable;
        return Ok(None);
      }
      OldestExists(gaps, claimable);
      var g :| g in claimable && forall h :: h in claimable ==> gaps[g].updatedAt <= gaps[h].updatedAt;
      assert NextGap(Value(), g, now);
      if newRun in runs {
        return Err(InvalidData);
      }
      gaps := gaps[g := gaps[g].(status := Backfilling, updatedAt := now)];
      runs := runs[newRun := Run(g, Active, Some(now + secs), Unprovable, NO_PROGRESS)];
      leases := leases[newRun := newToken];
      return Ok(Some(ClaimedGap(newRun, newToken, g, false)));
    }

    /** Takes over expired runs, a fresh token for each. */
    method ReclaimExpired(now: int, secs: nat, limit: nat, tokens: seq<Token>) returns (claims: seq<ClaimedGap>)
      requires |tokens| >= limit
      modifies this`runs, this`leases
      ensures |claims| <= limit
      ensures forall i :: 0 <= i < |claims| ==> IsReclaim(old(Value()), now, claims[i], tokens[i])
      ensures RunsDistinct(claims)
      ensures Value() == ReclaimAll(old(Value()), claims, now + secs)
      ensures |claims| < limit ==> ClaimedRuns(claims) == ExpiredRuns(old(Value()), now)
    {
      claims := [];
      ghost var before := Value();
      var expired := ExpiredRuns(Value(), now);
      while |claims| < limit && expired != {}
        invariant |claims| <= limit
        invariant expired + ClaimedRuns(claims) == ExpiredRuns(before, now) && expired !! ClaimedRuns(claims)
        invariant forall i :: 0 <= i < |claims| ==> IsReclaim(before, now, claims[i], tokens[i])
        invariant RunsDistinct(claims)
        invariant Value() == ReclaimAll(before, claims, now + secs)
        decreases limit - |claims|
      {
        var r :| r in expired;
        assert r in ExpiredRuns(before, now);
        ReclaimsKeepRuns(before, claims, now + secs);
        var claim := ClaimedGap(r, tokens[|claims|], runs[r].gap, true);
        ReclaimOneMore(before, claims, claim, now + secs);
        DistinctOneMore(claims, claim);
        runs := runs[r := runs[r].(expires := Some(now + secs))];
        leases := leases[r := claim.token];
        claims := claims + [claim];
        expired := expired - {r};
      }
    }

    method RecordScopeProgress(now: int, r: RunId, token: Token, scope: ScopeKey, known: bool, progress: Progress)
      returns (done: Done)
      modifies this
      ensures (Value(), done) == Record(old(Value()), now, leaseSecs, r, token, scope, known, progress)
    {
      if r !in runs || r !in leases || leases[r] != token {
        return Err(LeaseLost);
      }
      if runs[r].status != Active {
        return Err(LeaseLost);
      }
      if !known {
        return Err(InvalidData);
      }
      runs := runs[r := runs[r].(expires := Some(now + leaseSecs))];
      scopes := scopes[(r, scope) := progress];
      return Ok(());
    }

    method FinalizeRun(now: int, o: Outcome, token: Token) returns (done: Done)
      modifies this
      ensures (Value(), done) == Finalize(old(Value()), now, o, token)
    {
      if o.run !in runs || o.run !in leases || leases[o.run] != token {
        return Err(LeaseLost);
      }
      if runs[o.run].gap != o.gap || o.gap !in gaps {
        return Err(InvalidData);
      }
      if runs[o.run].status != Active {
        if gaps[o.gap].status == o.target && runs[o.run].completeness == o.completeness {
          return Ok(());
        }
        return Err(InvalidData);
      }
      if gaps[o.gap].status == Backfilling {
        gaps := gaps[o.gap := gaps[o.gap].(status := o.target, updatedAt := now)];
      } else if gaps[o.gap].status != o.target {
        return Err(InvalidData);
      }
      runs := runs[o.run := runs[o.run].(status := RunStatusFor(o.completeness), completeness := o.completeness,
                                         totals := Total(o.scopes))];
      match PolicyOf(o) {
        case TerminalPolicy => schedule := schedule - {o.gap};
        case BackoffPolicy(secs) => schedule := schedule[o.gap := now + secs];
        case Suspended => schedule := schedule[o.gap := SUSPENDED_UNTIL];
      }
      return Ok(());
    }
  }

  function ReclaimAll(t: Tables, claims: seq<ClaimedGap>, expires: int): Tables
    decreases |claims|
  {
    if claims == [] then t
    else
      var n := |claims| - 1;
      var before := ReclaimAll(t, claims[..n], expires);
      if claims[n].run in before.runs then Reclaim(before, claims[n].run, expires, claims[n].token) else before
  }

  function ExpiredRuns(t: Tables, now: int): set<RunId> {
    set r | r in t.runs && ExpiredRun(t, r, now)
  }

  function ClaimedRuns(claims: seq<ClaimedGap>): set<RunId> {
    set c | c in claims :: c.run
  }

  /** The claim takes over an expired run, under this token. */
  predicate IsReclaim(t: Tables, now: int, claim: ClaimedGap, token: Token) {
    ExpiredRun(t, claim.run, now) && claim == ClaimedGap(claim.run, token, t.runs[claim.run].gap, true)
  }

  predicate RunsDistinct(claims: seq<ClaimedGap>) {
    forall i, j :: 0 <= i < j < |claims| ==> claims[i].run != claims[j].run
  }

  lemma DistinctOneMore(claims: seq<ClaimedGap>, claim: ClaimedGap)
    requires RunsDistinct(claims) && claim.run !in ClaimedRuns(claims)
    ensures RunsDistinct(claims + [claim])
  {
    forall i | 0 <= i < |claims| ensures claims[i].run != claim.run {
      assert claims[i] in claims;
    }
  }

  lemma {:induction false} ReclaimsKeepRuns(t: Tables, claims: seq<ClaimedGap>, expires: int)
    ensures var u := ReclaimAll(t, claims, expires);
            u.runs.Keys == t.runs.Keys && forall r :: r in t.runs ==> u.runs[r].gap == t.runs[r].gap
    decreases |claims|
  {
    if claims != [] {
      ReclaimsKeepRuns(t, claims[..|claims| - 1], expires);
    }
  }

  lemma ReclaimOneMore(t: Tables, claims: seq<ClaimedGap>, claim: ClaimedGap, expires: int)
    requires claim.run in ReclaimAll(t, claims, expires).runs
    ensures ReclaimAll(t, claims + [claim], expires)
            == Reclaim(ReclaimAll(t, claims, expires), claim.run, expires, claim.token)
    ensures ClaimedRuns(claims + [claim]) == ClaimedRuns(claims) + {claim.run}
  {
    assert (claims + [claim])[..|claims|] == claims;
  }

  lemma OldestExists(gaps: map<GapId, Gap>, q: set<GapId>)
    requires q != {} && q <= gaps.Keys
    ensures exists g :: g in q && forall h :: h in q ==> gaps[g].updatedAt <= gaps[h].updatedAt
    decreases |q|
  {
    var p :| p in q;
    if q != {p} {
      var rest := q - {p};
      assert q == rest + {p};
      OldestExists(gaps, rest);
      var m :| m in rest && forall h :: h in rest ==> gaps[m].updatedAt <= gaps[h].updatedAt;
      var oldest := if gaps[p].updatedAt <= gaps[m].updatedAt then p else m;
      assert oldest in q && forall h :: h in q ==> gaps[oldest].updatedAt <= gaps[h].updatedAt;
    }
  }

  // ---- The fence ----

  function ActiveRuns(t: Tables, g: GapId): set<RunId> {
    set r | r in t.runs && t.runs[r].gap == g && t.runs[r].status == Active
  }

  /** A gap is backfilling exactly if one run of it is active, and never two are. */
  predicate GapFenced(t: Tables, g: GapId)
    requires g in t.gaps
  {
    |ActiveRuns(t, g)| == if t.gaps[g].status == Backfilling then 1 else 0
  }

  predicate Fenced(t: Tables) {
    && t.leases.Keys == t.runs.Keys
    && (forall r :: r in t.runs ==> t.runs[r].gap in t.gaps)
    && (forall g :: g in t.gaps ==> GapFenced(t, g))
  }

  /** The tables and every token generated so far. */
  datatype World = World(t: Tables, used: set<Token>)

  datatype Action =
    | OpenGap(gap: GapId, at: int)
    | EndGap(gap: GapId, at: int)
    | SignalGap(gap: GapId)
    | Claim(gap: GapId, now: int, leaseSecs: nat, run: RunId, token: Token)
    | ReclaimRun(run: RunId, now: int, leaseSecs: nat, token: Token)
    | RecordProgress(run: RunId, now: int, leaseSecs: nat, token: Token, scope: ScopeKey, known: bool,
                     progress: Progress)
    | FinalizeOne(now: int, outcome: Outcome, token: Token)

  function Perform(w: World, a: Action): World {
    match a
    case OpenGap(g, at) =>
      if g in w.t.gaps then w else w.(t := w.t.(gaps := w.t.gaps[g := Gap(Uncertain, false, false, at)]))
    case EndGap(g, at) =>
      if g in w.t.gaps && !w.t.gaps[g].ended
      then w.(t := w.t.(gaps := w.t.gaps[g := w.t.gaps[g].(ended := true, updatedAt := at)])) else w
    case SignalGap(g) =>
      if g in w.t.gaps then w.(t := w.t.(gaps := w.t.gaps[g := w.t.gaps[g].(signalled := true)])) else w
    case Claim(g, now, leaseSecs, run, token) =>
      if NextGap(w.t, g, now) && run !in w.t.runs && token !in w.used
      then World(ClaimGap(w.t, g, now, leaseSecs, run, token), w.used + {token}) else w
    case ReclaimRun(run, now, leaseSecs, token) =>
      if ExpiredRun(w.t, run, now) && token !in w.used
      then World(Reclaim(w.t, run, now + leaseSecs, token), w.used + {token}) else w
    case RecordProgress(run, now, leaseSecs, token, scope, known, progress) =>
      w.(t := Record(w.t, now, leaseSecs, run, token, scope, known, progress).0)
    case FinalizeOne(now, o, token) => w.(t := Finalize(w.t, now, o, token).0)
  }

  predicate Allowed(a: Action) {
    a.FinalizeOne? ==> a.outcome.target != Backfilling
  }

  predicate Inv(w: World) {
    Fenced(w.t) && TokensUsed(w.t.leases, w.used)
  }

  /** Changes that move no run into or out of the active state leave the fence alone. */
  lemma SameActiveRuns(t: Tables, u: Tables)
    requires Fenced(t) && u.leases.Keys == u.runs.Keys == t.runs.Keys && t.gaps.Keys <= u.gaps.Keys
    requires forall r :: r in t.runs ==> u.runs[r].gap == t.runs[r].gap && u.runs[r].status == t.runs[r].status
    requires forall g :: g in t.gaps ==> u.gaps[g].status == t.gaps[g].status
    requires forall g :: g in u.gaps && g !in t.gaps ==> u.gaps[g].status != Backfilling
    ensures Fenced(u)
  {
    forall g | g in u.gaps ensures GapFenced(u, g) {
      assert ActiveRuns(u, g) == ActiveRuns(t, g);
      if g in t.gaps {
        assert GapFenced(t, g);
      } else {
        assert ActiveRuns(t, g) == {};
      }
    }
  }

  lemma ClaimKeeps(t: Tables, g: GapId, now: int, leaseSecs: nat, run: RunId, token: Token)
    requires Fenced(t) && ClaimableGap(t, g, now) && run !in t.runs
    ensures Fenced(ClaimGap(t, g, now, leaseSecs, run, token))
  {
    var u := ClaimGap(t, g, now, leaseSecs, run, token);
    forall h | h in u.gaps ensures GapFenced(u, h) {
      assert GapFenced(t, h);
      if h == g {
        assert ActiveRuns(t, g) == {};
        assert ActiveRuns(u, g) == {run};
      } else {
        assert ActiveRuns(u, h) == ActiveRuns(t, h);
      }
    }
  }

  /** A run that ends leaves its gap with no active run; so the fence survives exactly
      if the gap leaves the backfilling state with it. */
  lemma FinishKeepsFenceExactly(t: Tables, now: int, o: Outcome)
    requires Fenced(t) && o.run in t.runs && t.runs[o.run].status == Active && t.runs[o.run].gap == o.gap
    ensures t.gaps[o.gap].status == Backfilling
    ensures Fenced(Finish(t, now, o)) <==> o.target != Backfilling
  {
    var u := Finish(t, now, o);
    assert GapFenced(t, o.gap) && o.run in ActiveRuns(t, o.gap);
    OnlyMember(ActiveRuns(t, o.gap), o.run);
    assert u.runs[o.run].status != Active;
    forall r ensures r !in ActiveRuns(u, o.gap) {
      assert r in ActiveRuns(u, o.gap) ==> r in ActiveRuns(t, o.gap);
    }
    assert ActiveRuns(u, o.gap) == {};
    forall h | h in u.gaps && h != o.gap ensures GapFenced(u, h) {
      assert ActiveRuns(u, h) == ActiveRuns(t, h) && GapFenced(t, h);
    }
    if o.target == Backfilling {
      assert !GapFenced(u, o.gap);
    } else {
      assert GapFenced(u, o.gap);
    }
  }

  lemma FinalizeKeeps(t: Tables, now: int, o: Outcome, token: Token)
    requires Fenced(t) && o.target != Backfilling
    ensures Fenced(Finalize(t, now, o, token).0) && Finalize(t, now, o, token).0.leases == t.leases
  {
    if Owned(t, o.run, token) && t.runs[o.run].gap == o.gap && o.gap in t.gaps && t.runs[o.run].status == Active {
      FinishKeepsFenceExactly(t, now, o);
    }
  }

  lemma ReclaimKeeps(t: Tables, r: RunId, expires: int, token: Token)
    requires Fenced(t) && r in t.runs
    ensures Fenced(Reclaim(t, r, expires, token))
  {
    SameActiveRuns(t, Reclaim(t, r, expires, token));
  }

  lemma RecordKeeps(t: Tables, now: int, leaseSecs: nat, r: RunId, token: Token, scope: ScopeKey, known: bool,
                    progress: Progress)
    requires Fenced(t)
    ensures var u := Record(t, now, leaseSecs, r, token, scope, known, progress).0;
            Fenced(u) && u.leases == t.leases
  {
    SameActiveRuns(t, Record(t, now, leaseSecs, r, token, scope, known, progress).0);
  }

  /** A gap's bookkeeping outside backfilling: it appears, ends or gets a signal. */
  lemma GapRowKeeps(t: Tables, g: GapId, row: Gap)
    requires Fenced(t) && row.status == if g in t.gaps then t.gaps[g].status else Uncertain
    ensures Fenced(t.(gaps := t.gaps[g := row]))
  {
    SameActiveRuns(t, t.(gaps := t.gaps[g := row]));
  }

  /** Tokens in use were generated, and no two runs share one. */
  predicate TokensUsed(leases: map<RunId, Token>, used: set<Token>) {
    && (forall r :: r in leases ==> leases[r] in used)
    && (forall q, r :: q in leases && r in leases && q != r ==> leases[q] != leases[r])
  }

  lemma NewTokenKeeps(leases: map<RunId, Token>, used: set<Token>, r: RunId, token: Token)
    requires TokensUsed(leases, used) && token !in used
    ensures TokensUsed(leases[r := token], used + {token})
  {
  }

  lemma ActionKeeps(w: World, a: Action)
    requires Inv(w) && Allowed(a)
    ensures Inv(Perform(w, a))
  {
    match a
    case OpenGap(g, at) =>
      if g !in w.t.gaps { GapRowKeeps(w.t, g, Gap(Uncertain, false, false, at)); }
    case EndGap(g, at) =>
      if g in w.t.gaps { GapRowKeeps(w.t, g, w.t.gaps[g].(ended := true, updatedAt := at)); }
    case SignalGap(g) =>
      if g in w.t.gaps { GapRowKeeps(w.t, g, w.t.gaps[g].(signalled := true)); }
    case Claim(g, now, leaseSecs, run, token) =>
      if NextGap(w.t, g, now) && run !in w.t.runs && token !in w.used {
        ClaimKeeps(w.t, g, now, leaseSecs, run, token);
        NewTokenKeeps(w.t.leases, w.used, run, token);
      }
    case ReclaimRun(run, now, leaseSecs, token) =>
      if ExpiredRun(w.t, run, now) && token !in w.used {
        ReclaimKeeps(w.t, run, now + leaseSecs, token);
        NewTokenKeeps(w.t.leases, w.used, run, token);
      }
    case RecordProgress(run, now, leaseSecs, token, scope, known, progress) =>
      RecordKeeps(w.t, now, leaseSecs, run, token, scope, known, progress);
    case FinalizeOne(now, o, token) => FinalizeKeeps(w.t, now, o, token);
  }

  function PerformAll(w: World, actions: seq<Action>): World
    decreases |actions|
  {
    if actions == [] then w else PerformAll(Perform(w, actions[0]), actions[1..])
  }

  /** In every reachable state each gap is backfilling iff exactly one of its runs is active. */
  lemma {:induction false} FenceHoldsOverEveryRun(w: World, actions: seq<Action>)
    requires Inv(w) && forall i :: 0 <= i < |actions| ==> Allowed(actions[i])
    ensures Inv(PerformAll(w, actions))
    decreases |actions|
  {
    if actions != [] {
      ActionKeeps(w, actions[0]);
      FenceHoldsOverEveryRun(Perform(w, actions[0]), actions[1..]);
    }
  }

  const EMPTY_WORLD := World(Tables(map[], map[], map[], map[], map[]), {})

  lemma EmptyStoreIsFenced()
    ensures Inv(EMPTY_WORLD)
  {
  }

  /** In particular in every run from an empty store. */
  lemma FenceHoldsFromTheStart(actions: seq<Action>)
    requires forall i :: 0 <= i < |actions| ==> Allowed(actions[i])
    ensures Fenced(PerformAll(EMPTY_WORLD, actions).t)
  {
    FenceHoldsOverEveryRun(EMPTY_WORLD, actions);
  }

  /** A finalised run keeps its row and its token for ever, so it is finalised once. */
  lemma FinalisedRunsNeverChange(w: World, a: Action, r: RunId)
    requires Inv(w) && r in w.t.runs && w.t.runs[r].status != Active
    ensures var u := Perform(w, a).t;
            r in u.runs && u.runs[r] == w.t.runs[r] && r in u.leases && u.leases[r] == w.t.leases[r]
  {
  }

  lemma {:induction false} FinalisedRunsStay(w: World, actions: seq<Action>, r: RunId)
    requires Inv(w) && r in w.t.runs && w.t.runs[r].status != Active
    requires forall i :: 0 <= i < |actions| ==> Allowed(actions[i])
    ensures var u := PerformAll(w, actions).t;
            && r in u.runs && u.runs[r] == w.t.runs[r] && r in u.leases && u.leases[r] == w.t.leases[r]
            && Inv(PerformAll(w, actions))
    decreases |actions|
  {
    if actions != [] {
      FinalisedRunsNeverChange(w, actions[0], r);
      ActionKeeps(w, actions[0]);
      FinalisedRunsStay(Perform(w, actions[0]), actions[1..], r);
    }
  }

  /** Repeating an accepted finalisation, immediately or after anything else, changes
      nothing; it is accepted again exactly if the gap is still where it was put. */
  lemma RepeatedFinaliseChangesNothing(w: World, now: int, o: Outcome, token: Token, actions: seq<Action>, later: int)
    requires Inv(w) && o.target != Backfilling && forall i :: 0 <= i < |actions| ==> Allowed(actions[i])
    requires Finalize(w.t, now, o, token).1 == Ok(())
    ensures var u := PerformAll(Perform(w, FinalizeOne(now, o, token)), actions).t;
            && Finalize(u, later, o, token).0 == u
            && o.gap in u.gaps
            && (Finalize(u, later, o, token).1 == Ok(()) <==> u.gaps[o.gap].status == o.target)
            && (actions == [] ==> u.gaps[o.gap].status == o.target)
  {
    var after := Perform(w, FinalizeOne(now, o, token));
    ActionKeeps(w, FinalizeOne(now, o, token));
    if w.t.runs[o.run].status == Active {
      FinishKeepsFenceExactly(w.t, now, o);
    }
    FinalisedRunsStay(after, actions, o.run);
  }

  /** So a repetition follows its gap: put back in the queue and claimed again, the gap makes
      the repetition fail; once the next run is finalised, only its target matters. */
  lemma RepeatFollowsItsGap(w: World, now: int, o: Outcome, token: Token, later: int, leaseSecs: nat, next: Outcome,
                            newToken: Token)
    requires Inv(w) && o.target == Uncertain && next.gap == o.gap && next.target != Backfilling
    requires Finalize(w.t, now, o, token).1 == Ok(())
    requires var done := Perform(w, FinalizeOne(now, o, token));
             NextGap(done.t, o.gap, later) && next.run !in done.t.runs && newToken !in done.used
    ensures var done := Perform(w, FinalizeOne(now, o, token));
            var claimed := Perform(done, Claim(o.gap, later, leaseSecs, next.run, newToken));
            var again := Perform(claimed, FinalizeOne(later, next, newToken));
            && Finalize(done.t, later, o, token).1 == Ok(())
            && Finalize(claimed.t, later, o, token).1 == Err(InvalidData)
            && Finalize(claimed.t, later, next, newToken).1 == Ok(())
            && Finalize(again.t, later, o, token).1 == if next.target == Uncertain then Ok(()) else Err(InvalidData)
  {
    RepeatedFinaliseChangesNothing(w, now, o, token, [], later);
  }

  /** A gap opened, ended, claimed and finalised as still uncertain. */
  function FirstAttempt(g: GapId, run: RunId, token: Token): World {
    var ended := Perform(Perform(EMPTY_WORLD, OpenGap(g, 0)), EndGap(g, 0));
    Perform(Perform(ended, Claim(g, 0, 10, run, token)), FinalizeOne(0, Undecided(g, run), token))
  }

  function Undecided(g: GapId, run: RunId): Outcome {
    Outcome(run, g, Uncertain, Unprovable, false, [])
  }

  /** From an empty store: the accepted finalisation is refused on repetition while the gap
      is claimed again, and accepted again after that second run has ended as the first did. */
  lemma RepeatIsRefusedWhileReclaimed(g: GapId, one: RunId, two: RunId, t1: Token, t2: Token)
    requires one != two && t1 != t2
    ensures var done := FirstAttempt(g, one, t1);
            var claimed := Perform(done, Claim(g, BACKOFF_SECS, 10, two, t2));
            var again := Perform(claimed, FinalizeOne(BACKOFF_SECS, Undecided(g, two), t2));
            && Finalize(done.t, BACKOFF_SECS, Undecided(g, one), t1).1 == Ok(())
            && Finalize(claimed.t, BACKOFF_SECS, Undecided(g, one), t1).1 == Err(InvalidData)
            && Finalize(again.t, BACKOFF_SECS, Undecided(g, one), t1).1 == Ok(())
  {
    var listed := Perform(EMPTY_WORLD, OpenGap(g, 0));
    var ended := Perform(listed, EndGap(g, 0));
    var claimed := Perform(ended, Claim(g, 0, 10, one, t1));
    EmptyStoreIsFenced();
    ActionKeeps(EMPTY_WORLD, OpenGap(g, 0));
    ActionKeeps(listed, EndGap(g, 0));
    ActionKeeps(ended, Claim(g, 0, 10, one, t1));
    RepeatFollowsItsGap(claimed, 0, Undecided(g, one), t1, BACKOFF_SECS, 10, Undecided(g, two), t2);
  }

  /** A token that was generated but is no run's token any more. */
  predicate Rotated(w: World, token: Token) {
    token in w.used && forall r :: r in w.t.leases ==> w.t.leases[r] != token
  }

  /** A rotated token never works again, and a call that uses it changes nothing. */
  lemma {:induction false} RotatedTokensDoNothing(w: World, actions: seq<Action>, token: Token)
    requires Inv(w) && Rotated(w, token) && forall i :: 0 <= i < |actions| ==> Allowed(actions[i])
    ensures var v := PerformAll(w, actions);
            && Rotated(v, token)
            && (forall now: int, o :: Finalize(v.t, now, o, token) == (v.t, Err(LeaseLost)))
            && (forall now: int, leaseSecs: nat, r, scope, known, progress ::
                  Record(v.t, now, leaseSecs, r, token, scope, known, progress) == (v.t, Err(LeaseLost)))
    decreases |actions|
  {
    if actions != [] {
      ActionKeeps(w, actions[0]);
      assert Rotated(Perform(w, actions[0]), token);
      RotatedTokensDoNothing(Perform(w, actions[0]), actions[1..], token);
    }
  }

  /** Reclaiming an expired run rotates its token. */
  lemma ReclaimRotates(w: World, r: RunId, now: int, leaseSecs: nat, token: Token)
    requires Inv(w) && ExpiredRun(w.t, r, now) && token !in w.used
    ensures Rotated(Perform(w, ReclaimRun(r, now, leaseSecs, token)), w.t.leases[r])
  {
  }
}
