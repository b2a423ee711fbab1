// The side queue of candidate extraction: where its rows lie, and that a local worker
// drains the log (personal-secretary-mysql/src/repo/mysql_memory_candidate.rs, mysql_memory.rs).
module SideQueues {
  import opened Wrappers
  import opened MemoryCandidates
  import opened MemoryCoverage

  // ---- Deferred rows above the cursor ----

  /** Every deferred row lies at or below the cursor, as the design has it. */
  predicate DeferredBelow(t: Tables) {
    forall p :: p in t.deferred ==> CursorOf(t).Some? && AtMost(p, CursorOf(t).value)
  }

  /** A remote claim defers what its batch passes over before the cursor gets there. */
  lemma RemoteClaimKeepsBelowExactly(t: Tables, token: Token, bounds: Bounds)
    requires t.row.Some? && DeferredBelow(t) && ClaimMain(t, token, false, bounds).Ok?
    ensures var (after, batch) := ClaimMain(t, token, false, bounds).value;
            DeferredBelow(after) <==> (batch.None? || PassedOver(t, batch.value.next) == {})
  {
    var (after, batch) := ClaimMain(t, token, false, bounds).value;
    if batch.Some? {
      if p :| p in PassedOver(t, batch.value.next) {
        assert p in after.deferred && Beyond(CursorOf(after), p);
      }
    }
  }

  /** A mode change forgets the cursor and keeps the side queue. */
  lemma SwitchKeepsBelowExactly(t: Tables, c: ConversationId, mode: Trust)
    requires DeferredBelow(t)
    ensures DeferredBelow(SwitchMode(t, c, mode)) <==> (SwitchMode(t, c, mode) == t || t.deferred == {})
  {
    if p :| p in t.deferred {
      assert p in SwitchMode(t, c, mode).deferred;
    }
  }

  /** An accepted commit ends with the rows below the cursor, wherever they lay before, iff
      its own next cursor reaches all that it leaves in the queue. */
  lemma CommitEndsBelowExactly(t: Tables, now: int, batch: Batch, new_: seq<Candidate>, valid: Check)
    requires Commit(t, now, batch, new_, valid).1.Ok?
    ensures DeferredBelow(Commit(t, now, batch, new_, valid).0) <==>
            forall p :: p in t.deferred - Positions(batch.events) ==> AtMost(p, batch.next)
  {
    var after := Commit(t, now, batch, new_, valid).0;
    assert after.deferred == t.deferred - Positions(batch.events) && CursorOf(after) == Some(batch.next);
  }

  /** What an action that leaves a deferred row above the cursor looks like beforehand. */
  predicate Strands(w: World, a: Action, valid: Check) {
    match a
    case ClaimBatch(now, token, local, bounds) =>
      && token !in w.used && !local
      && var r := Claim(w.t, now, token, false, bounds).1;
         r.Ok? && r.value.Some? && PassedOver(w.t, r.value.value.next) != {}
    case CommitBatch(now, batch, new_) =>
      && batch in w.issued && Commit(w.t, now, batch, new_, valid).1.Ok?
      && exists p :: p in w.t.deferred - Positions(batch.events) && !AtMost(p, batch.next)
    case Switch(c, mode) => SwitchMode(w.t, c, mode) != w.t && w.t.deferred != {}
    case _ => false
  }

  lemma ClaimKeepsBelowExactly(w: World, a: Action, valid: Check)
    requires DeferredBelow(w.t) && a.ClaimBatch?
    ensures DeferredBelow(Perform(w, a, valid).t) <==> !Strands(w, a, valid)
  {
    var held := Held(w.t, a.token, a.now, a.bounds);
    if a.token !in w.used && w.t.active && Free(w.t, a.now) && ClaimWith(held, a.token, a.local, a.bounds).Ok? {
      if a.local {
        LocalClaimOnlyShrinksQueue(held, a.token, a.bounds);
      } else {
        assert forall last :: PassedOver(held, last) == PassedOver(w.t, last);
        RemoteClaimKeepsBelowExactly(held, a.token, a.bounds);
      }
    }
  }

  lemma LocalClaimOnlyShrinksQueue(t: Tables, token: Token, bounds: Bounds)
    requires t.row.Some? && ClaimWith(t, token, true, bounds).Ok?
    ensures var after := ClaimWith(t, token, true, bounds).value.0;
            CursorOf(after) == CursorOf(t) && after.deferred <= t.deferred
  {
  }

  /** Three actions can leave a deferred row above the cursor, each exactly when it strands. */
  lemma ActionKeepsBelowExactly(w: World, a: Action, valid: Check)
    requires DeferredBelow(w.t)
    ensures DeferredBelow(Perform(w, a, valid).t) <==> !Strands(w, a, valid)
  {
    match a
    case ClaimBatch(_, _, _, _) => ClaimKeepsBelowExactly(w, a, valid);
    case CommitBatch(now, batch, new_) =>
      if batch in w.issued && Commit(w.t, now, batch, new_, valid).1.Ok? {
        CommitEndsBelowExactly(w.t, now, batch, new_, valid);
      }
    case Switch(c, mode) => SwitchKeepsBelowExactly(w.t, c, mode);
    case _ =>
      var after := Perform(w, a, valid).t;
      assert after.deferred == w.t.deferred && CursorOf(after) == CursorOf(w.t);
  }

  /** In a run that keeps the cover, a commit is not one of them: it never moves the cursor down. */
  lemma CommitsNeverStrand(w: World, a: Action, valid: Check)
    requires Inv(w) && DeferredBelow(w.t) && a.CommitBatch?
    ensures !Strands(w, a, valid)
  {
    if a.batch in w.issued && Commit(w.t, a.now, a.batch, a.new_, valid).1.Ok? {
      assert HoldsLease(w, a.batch) && Ready(w, a.batch);
    }
  }

  /** Nor is a claim that is followed by its own commit: what it passed over lies below the
      cursor again once the batch is committed. */
  lemma OwnCommitRestores(w: World, claim: Action, now: int, b: Batch, new_: seq<Candidate>, valid: Check)
    requires Inv(w) && DeferredBelow(w.t) && claim.ClaimBatch? && claim.token !in w.used
    requires Claim(w.t, claim.now, claim.token, claim.local, claim.bounds).1 == Ok(Some(b))
    requires Commit(Perform(w, claim, valid).t, now, b, new_, valid).1.Ok?
    ensures DeferredBelow(Perform(Perform(w, claim, valid), CommitBatch(now, b, new_), valid).t)
  {
    var claimed := Perform(w, claim, valid);
    ActionKeeps(w, claim, valid);
    ClaimDefersUpTo(w.t, claim.now, claim.token, claim.local, claim.bounds, b);
    IssuedIsAhead(claimed, now, b, new_, valid);
    CommitEndsBelowExactly(claimed.t, now, b, new_, valid);
  }

  lemma ClaimDefersUpTo(t: Tables, now: int, token: Token, local: bool, bounds: Bounds, b: Batch)
    requires Claim(t, now, token, local, bounds).1 == Ok(Some(b))
    ensures var after := Claim(t, now, token, local, bounds).0;
            CursorOf(after) == CursorOf(t) && forall p :: p in after.deferred ==> p in t.deferred || AtMost(p, b.next)
  {
    if local {
      LocalClaimOnlyShrinksQueue(Held(t, token, now, bounds), token, bounds);
    }
  }

  lemma IssuedIsAhead(w: World, now: int, b: Batch, new_: seq<Candidate>, valid: Check)
    requires Inv(w) && b in w.issued && Commit(w.t, now, b, new_, valid).1.Ok?
    ensures CursorOf(w.t).Some? ==> AtMost(CursorOf(w.t).value, b.next)
  {
    assert HoldsLease(w, b) && Ready(w, b);
  }

  /** At every moment of the run. */
  predicate AlwaysBelow(w: World, actions: seq<Action>, valid: Check)
    decreases |actions|
  {
    DeferredBelow(w.t) && (actions == [] || AlwaysBelow(Perform(w, actions[0], valid), actions[1..], valid))
  }

  /** At no moment of the run. */
  predicate NeverStrands(w: World, actions: seq<Action>, valid: Check)
    decreases |actions|
  {
    actions == []
    || (!Strands(w, actions[0], valid) && NeverStrands(Perform(w, actions[0], valid), actions[1..], valid))
  }

  /** The deferred rows stay at or below the cursor throughout a run iff no action of the
      run strands one in the world it meets. */
  lemma {:induction false} DeferredStaysBelowExactly(w: World, actions: seq<Action>, valid: Check)
    requires DeferredBelow(w.t)
    ensures AlwaysBelow(w, actions, valid) <==> NeverStrands(w, actions, valid)
    ensures AlwaysBelow(w, actions, valid) ==> DeferredBelow(PerformAll(w, actions, valid).t)
    decreases |actions|
  {
    if actions != [] {
      ActionKeepsBelowExactly(w, actions[0], valid);
      if !Strands(w, actions[0], valid) {
        DeferredStaysBelowExactly(Perform(w, actions[0], valid), actions[1..], valid);
      }
    }
  }

  /** The cost of a stranded row: once its side-queue batch is committed, the main path
      hands it out again iff it lies above the cursor; it is never lost. */
  lemma StrandedRowsRepeatExactly(w: World, a: Action, p: Pos, valid: Check)
    requires Inv(w) && a.CommitBatch? && a.batch in w.issued && p in Positions(a.batch.events)
    requires Commit(w.t, a.now, a.batch, a.new_, valid).1.Ok?
    requires CursorOf(w.t) == Some(a.batch.next) && Eligible(w.t, true, p)
    ensures var after := Perform(w, a, valid);
            p in after.committed && (p in Pending(after.t, true) <==> !AtMost(p, CursorOf(w.t).value))
  {
    var after := Perform(w, a, valid);
    assert Eligible(after.t, true, p) && p in w.t.events;
    assert AtMost(p, a.batch.next) || Less(a.batch.next, p);
  }

  // ---- A stranded row, concretely ----

  /** A claim by a local worker, and the commit of what it was handed. */
  function Round(w: World, now: int, token: Token, bounds: Bounds, valid: Check): World {
    var claimed := Perform(w, ClaimBatch(now, token, true, bounds), valid);
    match Claim(w.t, now, token, true, bounds).1
    case Ok(Some(b)) => Perform(claimed, CommitBatch(now, b, []), valid)
    case _ => claimed
  }

  const FIRST := Pos(0, 0)
  const SMALL := Bounds(1, 0, 0, 10)

  /** Two events for local models only, then one for any, in an account never extracted before. */
  const MIXED := Tables(
    true,
    map[FIRST := Event(0, Some(Content(LocalOnly, ""))), EARLY := Event(0, Some(Content(LocalOnly, ""))),
        LATE := Event(0, Some(Content(Normal, "")))],
    map[0 := Normal], {}, None, {}, map[])

  function Single(token: Token, p: Pos, trust: Trust, next: Pos): Batch {
    Batch(token, 0, [BatchEvent(p, trust, "", false)], next)
  }

  /** A batch of one: the first of the events. */
  lemma OneRow(t: Tables, q: set<Pos>, p: Pos)
    requires (forall x :: x in q ==> x in t.events) && p in q && forall x :: x in q ==> AtMost(p, x)
    ensures BatchRows(t, q, 1) == [p]
  {
    LeastOfUnion(q, p);
    var s := Ordered(q);
    assert s == [p] + Ordered(q - {p});
    assert SameConversation(t, s, t.events[p].conversation)
           == [p] + SameConversation(t, s[1..], t.events[p].conversation);
  }

  /** The three events under any cursor, lease and side queue. */
  predicate Mixed(t: Tables) {
    t == MIXED.(row := t.row, deferred := t.deferred)
  }

  lemma MixedRules(t: Tables)
    requires Mixed(t)
    ensures forall p :: HasContent(t, p) <==> p in {FIRST, EARLY, LATE}
    ensures forall p :: p in {FIRST, EARLY} ==> TrustOf(t, p) == LocalOnly
    ensures TrustOf(t, LATE) == Normal
    ensures forall p :: p in {FIRST, EARLY, LATE} ==> t.events[p].conversation == 0 && TextOf(t, p) == ""
    ensures forall p :: Eligible(t, true, p) <==> p in {FIRST, EARLY, LATE}
    ensures forall p :: Eligible(t, false, p) <==> p == LATE
  {
  }

  lemma SingleBatch(t: Tables, q: set<Pos>, p: Pos, token: Token, next: Pos)
    requires Mixed(t) && q <= {FIRST, EARLY, LATE} && p in q && forall x :: x in q ==> AtMost(p, x)
    ensures forall x :: x in q ==> HasContent(t, x) && x in t.events
    ensures BatchRows(t, q, 1) == [p]
    ensures BatchOf(t, token, q, SMALL, next) == Single(token, p, TrustOf(t, p), next)
  {
    MixedRules(t);
    OneRow(t, q, p);
    LeastOfUnion(q, p);
    assert Bounded(t, [p], 0, 0) == [BatchEvent(p, TrustOf(t, p), "", false)] + Bounded(t, [p][1..], 0, 0);
  }

  /** The tables of the run between two claims. */
  function Stranded(cursor: Option<Pos>, deferred: set<Pos>): Tables {
    MIXED.(row := Some(StateRow(cursor, None)), deferred := deferred)
  }

  lemma RemoteClaimOfMixed(token: Token)
    ensures var held := Held(MIXED, token, 0, SMALL);
            ClaimWith(held, token, false, SMALL)
            == Ok((held.(deferred := {FIRST, EARLY}), Some(Single(token, LATE, Normal, LATE))))
  {
    var held := Held(MIXED, token, 0, SMALL);
    MixedRules(held);
    assert Pending(held, false) == {LATE};
    SingleBatch(held, {LATE}, LATE, token, LATE);
    assert PassedOver(held, LATE) == {FIRST, EARLY};
  }

  /** A remote claim passes over two rows and is given up: they are deferred above a cursor
      that was never set. */
  lemma GivenUpClaimStrands(token: Token, valid: Check)
    ensures var start := World(MIXED, {}, {}, {});
            var claimed := Perform(start, ClaimBatch(0, token, false, SMALL), valid);
            var released := Perform(claimed, ReleaseClaim(token), valid);
            && Inv(start) && DeferredBelow(start.t) && Strands(start, ClaimBatch(0, token, false, SMALL), valid)
            && released
               == World(Stranded(None, {FIRST, EARLY}), {token}, {Single(token, LATE, Normal, LATE)}, {})
            && !DeferredBelow(released.t)
  {
    var start := World(MIXED, {}, {}, {});
    RemoteClaimOfMixed(token);
    var claimed := Perform(start, ClaimBatch(0, token, false, SMALL), valid);
    var held := Held(MIXED, token, 0, SMALL);
    assert claimed == World(held.(deferred := {FIRST, EARLY}), {token}, {Single(token, LATE, Normal, LATE)}, {});
    ActionKeepsBelowExactly(start, ClaimBatch(0, token, false, SMALL), valid);
    assert EARLY in claimed.t.deferred && CursorOf(claimed.t).None?;
    assert FIRST in Stranded(None, {FIRST, EARLY}).deferred;
  }

  lemma SideClaimOfMixed(t: Tables, token: Token, cursor: Pos, p: Pos)
    requires Mixed(t) && t.row.Some? && CursorOf(t) == Some(cursor) && t.deferred == {p} && p in {FIRST, EARLY}
    ensures ClaimWith(t, token, true, SMALL) == Ok((t, Some(Single(token, p, LocalOnly, cursor))))
  {
    MixedRules(t);
    assert DeadDeferred(t) == {} && t.(deferred := t.deferred - {}) == t;
    assert LiveDeferred(t) == {p};
    SingleBatch(t, {p}, p, token, cursor);
  }

  lemma MainClaimOfMixed(t: Tables, token: Token, p: Pos)
    requires Mixed(t) && t.row.Some? && p in {FIRST, EARLY} && Beyond(CursorOf(t), p)
    requires CursorOf(t).None? || t.deferred == {}
    requires forall x :: x in {FIRST, EARLY, LATE} && Beyond(CursorOf(t), x) ==> AtMost(p, x)
    ensures ClaimWith(t, token, true, SMALL) == Ok((t, Some(Single(token, p, LocalOnly, p))))
  {
    MixedRules(t);
    assert t.(deferred := t.deferred - DeadDeferred(t)) == t;
    var q := Pending(t, true);
    assert p in q && q <= {FIRST, EARLY, LATE};
    SingleBatch(t, q, p, token, p);
  }

  lemma ClaimHandsOut(w: World, now: int, token: Token, bounds: Bounds, b: Batch, valid: Check)
    requires w.t.active && Free(w.t, now) && token !in w.used
    requires var held := Held(w.t, token, now, bounds); ClaimWith(held, token, true, bounds) == Ok((held, Some(b)))
    ensures Claim(w.t, now, token, true, bounds) == (Held(w.t, token, now, bounds), Ok(Some(b)))
    ensures Perform(w, ClaimBatch(now, token, true, bounds), valid)
            == World(Held(w.t, token, now, bounds), w.used + {token}, w.issued + {b}, w.committed)
  {
  }

  lemma CommitTakesOut(w: World, now: int, b: Batch, valid: Check)
    requires b in w.issued && Owns(w.t, b.token, now)
    ensures Perform(w, CommitBatch(now, b, []), valid)
            == w.(t := w.t.(row := Some(StateRow(Some(b.next), None)), deferred := w.t.deferred - Positions(b.events)),
                  committed := w.committed + Positions(b.events))
  {
    assert InsertAll(w.t.candidates, []) == Ok((w.t.candidates, 0));
    assert Commit(w.t, now, b, [], valid).1 == Ok(0);
  }

  /** Once a claim hands out one event, its commit takes it from the queue. */
  lemma RoundOfOne(w: World, now: int, token: Token, bounds: Bounds, b: Batch, p: Pos, valid: Check)
    requires w.t.active && Free(w.t, now) && token !in w.used && b.token == token && Positions(b.events) == {p}
    requires var held := Held(w.t, token, now, bounds); ClaimWith(held, token, true, bounds) == Ok((held, Some(b)))
    ensures Claim(w.t, now, token, true, bounds).1 == Ok(Some(b))
    ensures Round(w, now, token, bounds, valid)
            == World(w.t.(row := Some(StateRow(Some(b.next), None)), deferred := w.t.deferred - {p}),
                     w.used + {token}, w.issued + {b}, w.committed + {p})
  {
    ClaimHandsOut(w, now, token, bounds, b, valid);
    CommitTakesOut(World(Held(w.t, token, now, bounds), w.used + {token}, w.issued + {b}, w.committed), now, b, valid);
  }

  lemma RoundOfMixed(w: World, cursor: Option<Pos>, deferred: set<Pos>, token: Token, p: Pos, next: Pos, valid: Check)
    requires w.t == Stranded(cursor, deferred) && token !in w.used
    requires var held := Held(w.t, token, 0, SMALL);
             ClaimWith(held, token, true, SMALL) == Ok((held, Some(Single(token, p, LocalOnly, next))))
    ensures Claim(w.t, 0, token, true, SMALL).1 == Ok(Some(Single(token, p, LocalOnly, next)))
    ensures var w' := Round(w, 0, token, SMALL, valid);
            && w'.t == Stranded(Some(next), deferred - {p})
            && w'.used == w.used + {token} && p in w'.committed
  {
    var b := Single(token, p, LocalOnly, next);
    assert Positions(b.events) == {p};
    RoundOfOne(w, 0, token, SMALL, b, p, valid);
  }

  /** From there a local worker commits the first row, is handed the second from the side
      queue under a cursor below it, commits it, and is handed it once more by the main path. */
  lemma StrandedRowIsHandedOutTwice(w: World, t1: Token, t2: Token, t3: Token, valid: Check)
    requires w.t == Stranded(None, {FIRST, EARLY})
    requires t1 !in w.used && t2 !in w.used && t3 !in w.used && t1 != t2 && t2 != t3 && t1 != t3
    ensures var first := Round(w, 0, t1, SMALL, valid);
            var second := Round(first, 0, t2, SMALL, valid);
            && CursorOf(first.t) == Some(FIRST) && first.t.deferred == {EARLY}
            && Claim(first.t, 0, t2, true, SMALL).1 == Ok(Some(Single(t2, EARLY, LocalOnly, FIRST)))
            && EARLY in second.committed
            && Claim(second.t, 0, t3, true, SMALL).1 == Ok(Some(Single(t3, EARLY, LocalOnly, EARLY)))
  {
    MainClaimOfMixed(Held(w.t, t1, 0, SMALL), t1, FIRST);
    RoundOfMixed(w, None, {FIRST, EARLY}, t1, FIRST, FIRST, valid);
    var first := Round(w, 0, t1, SMALL, valid);
    assert {FIRST, EARLY} - {FIRST} == {EARLY};
    SecondRounds(first, t2, t3, valid);
  }

  lemma SecondRounds(first: World, t2: Token, t3: Token, valid: Check)
    requires first.t == Stranded(Some(FIRST), {EARLY})
    requires t2 !in first.used && t3 !in first.used && t2 != t3
    ensures var second := Round(first, 0, t2, SMALL, valid);
            && Claim(first.t, 0, t2, true, SMALL).1 == Ok(Some(Single(t2, EARLY, LocalOnly, FIRST)))
            && EARLY in second.committed
            && Claim(second.t, 0, t3, true, SMALL).1 == Ok(Some(Single(t3, EARLY, LocalOnly, EARLY)))
  {
    SideClaimOfMixed(Held(first.t, t2, 0, SMALL), t2, FIRST, EARLY);
    RoundOfMixed(first, Some(FIRST), {EARLY}, t2, EARLY, FIRST, valid);
    var second := Round(first, 0, t2, SMALL, valid);
    assert {EARLY} - {EARLY} == {};
    MainClaimOfMixed(Held(second.t, t3, 0, SMALL), t3, EARLY);
    RoundOfMixed(second, Some(FIRST), {}, t3, EARLY, EARLY, valid);
  }

  // ---- A local worker drains the log ----

  function Left(t: Tables): nat {
    |Pending(t, true)| + |LiveDeferred(t)|
  }

  predicate SameRules(t: Tables, u: Tables) {
    u.active == t.active && u.events == t.events && u.modes == t.modes && u.recalled == t.recalled
  }

  lemma LeftShrinks(t: Tables, u: Tables, p: Pos)
    requires Pending(u, true) <= Pending(t, true) && LiveDeferred(u) <= LiveDeferred(t)
    requires (p in Pending(t, true) && p !in Pending(u, true)) || (p in LiveDeferred(t) && p !in LiveDeferred(u))
    ensures Left(u) < Left(t)
  {
    SubsetIsNoLarger(Pending(u, true), Pending(t, true));
    SubsetIsNoLarger(LiveDeferred(u), LiveDeferred(t));
    if p in Pending(t, true) && p !in Pending(u, true) {
      SubsetIsNoLarger(Pending(u, true), Pending(t, true) - {p});
    } else {
      SubsetIsNoLarger(LiveDeferred(u), LiveDeferred(t) - {p});
    }
  }

  lemma {:induction false} SubsetIsNoLarger(a: set<Pos>, b: set<Pos>)
    requires a <= b
    ensures |a| <= |b|
  {
    if p :| p in a {
      SubsetIsNoLarger(a - {p}, b - {p});
    }
  }

  /** What a local claim hands out: an event of the side queue, or one beyond the cursor. */
  predicate Advances(t: Tables, b: Batch) {
    if CursorOf(t) == Some(b.next) then exists p :: p in LiveDeferred(t) && p in Positions(b.events)
    else b.next in Pending(t, true) && Beyond(CursorOf(t), b.next)
  }

  lemma SideClaimAdvances(t: Tables, token: Token, bounds: Bounds)
    requires bounds.maxEvents > 0
    ensures var (after, batch) := ClaimDeferred(t, token, bounds);
            && after == t.(deferred := after.deferred) && LiveDeferred(t) <= after.deferred <= t.deferred
            && (batch.None? <==> CursorOf(t).None? || LiveDeferred(t) == {})
            && (batch.Some? ==> batch.value.token == token && Advances(t, batch.value))
  {
    var (cleaned, early) := ClaimDeferred(t, token, bounds);
    assert LiveDeferred(cleaned) == LiveDeferred(t);
    if early.Some? {
      SideBatchTakesOne(cleaned, token, bounds, CursorOf(t).value);
    }
  }

  lemma MainClaimAdvances(t: Tables, token: Token, bounds: Bounds)
    requires t.row.Some? && bounds.maxEvents > 0
    ensures var r := ClaimMain(t, token, true, bounds);
            && r.Ok?
            && var (after, batch) := r.value;
               if Pending(t, true) == {} then batch.None? && after == t.(row := Some(t.row.value.(lease := None)))
               else batch.Some? && after == t && batch.value.token == token && Advances(t, batch.value)
  {
    var q := Pending(t, true);
    if q != {} {
      RowsSkipNothing(t, q, bounds.maxEvents);
      var rows := BatchRows(t, q, bounds.maxEvents);
      assert rows[|rows| - 1] in rows;
    }
  }

  /** It hands out nothing only when there is nothing left. */
  lemma LocalBatchAdvances(t: Tables, token: Token, bounds: Bounds)
    requires t.row.Some? && bounds.maxEvents > 0
    ensures var r := ClaimWith(t, token, true, bounds);
            && r.Ok?
            && var (after, batch) := r.value;
               && SameRules(t, after) && CursorOf(after) == CursorOf(t) && after.deferred <= t.deferred
               && (if batch.None? then Left(t) == 0 && after.row == Some(t.row.value.(lease := None))
                   else after.row == t.row && batch.value.token == token && Advances(t, batch.value))
  {
    var cleaned := ClaimDeferred(t, token, bounds).0;
    SideClaimAdvances(t, token, bounds);
    SameWork(t, cleaned);
    MainClaimAdvances(cleaned, token, bounds);
  }

  lemma SameWork(t: Tables, u: Tables)
    requires u == t.(deferred := u.deferred) && LiveDeferred(t) <= u.deferred <= t.deferred
    ensures Pending(u, true) == Pending(t, true) && LiveDeferred(u) == LiveDeferred(t)
    ensures CursorOf(t).None? && Pending(t, true) == {} ==> LiveDeferred(t) == {}
    ensures forall b :: Advances(u, b) ==> Advances(t, b)
  {
    assert Pending(u, true) == Pending(t, true);
    assert LiveDeferred(u) == LiveDeferred(t);
    if CursorOf(t).None? {
      assert LiveDeferred(t) <= Pending(t, true);
    }
  }

  lemma SideBatchTakesOne(t: Tables, token: Token, bounds: Bounds, next: Pos)
    requires LiveDeferred(t) != {} && bounds.maxEvents > 0
    ensures (forall p :: p in LiveDeferred(t) ==> HasContent(t, p))
            && exists p :: p in LiveDeferred(t)
                           && p in Positions(BatchOf(t, token, LiveDeferred(t), bounds, next).events)
  {
    var q := LiveDeferred(t);
    assert forall p :: p in q ==> Eligible(t, true, p) && HasContent(t, p);
    RowsHaveContent(t, q, bounds.maxEvents);
    RowsSkipNothing(t, q, bounds.maxEvents);
    var rows := BatchRows(t, q, bounds.maxEvents);
    BoundedPositions(t, rows, bounds.maxEventChars, bounds.maxTotalChars);
    assert rows[0] in rows;
  }

  /** Every round leaves less to do, until there is nothing left. */
  lemma RoundLeavesLess(w: World, now: int, token: Token, bounds: Bounds, valid: Check)
    requires Inv(w) && w.t.active && Free(w.t, now) && token !in w.used && bounds.maxEvents > 0
    ensures var w' := Round(w, now, token, bounds, valid);
            && Inv(w') && SameRules(w.t, w'.t) && Free(w'.t, now) && w'.used == w.used + {token}
            && (Left(w'.t) < Left(w.t) || Left(w'.t) == Left(w.t) == 0)
  {
    var held := Held(w.t, token, now, bounds);
    assert Pending(held, true) == Pending(w.t, true) && LiveDeferred(held) == LiveDeferred(w.t);
    LocalBatchAdvances(held, token, bounds);
    var claim := ClaimBatch(now, token, true, bounds);
    var claimed := Perform(w, claim, valid);
    var (after, batch) := ClaimWith(held, token, true, bounds).value;
    ActionKeeps(w, claim, valid);
    if batch.Some? {
      var b := batch.value;
      ActionKeeps(claimed, CommitBatch(now, b, []), valid);
      var w' := Perform(claimed, CommitBatch(now, b, []), valid);
      assert Commit(after, now, b, [], valid).1 == Ok(0);
      CommittedLeavesLess(held, after, b, w'.t);
    } else {
      NothingLeft(held, claimed.t);
    }
  }

  lemma CommittedLeavesLess(t: Tables, after: Tables, b: Batch, u: Tables)
    requires SameRules(t, u) && after.deferred <= t.deferred
    requires u.deferred == after.deferred - Positions(b.events) && CursorOf(u) == Some(b.next)
    requires Advances(t, b)
    ensures Left(u) < Left(t)
  {
    assert forall p :: Eligible(u, true, p) <==> Eligible(t, true, p);
    assert Pending(u, true) <= Pending(t, true) && LiveDeferred(u) <= LiveDeferred(t);
    if CursorOf(t) == Some(b.next) {
      var p :| p in LiveDeferred(t) && p in Positions(b.events);
      LeftShrinks(t, u, p);
    } else {
      LeftShrinks(t, u, b.next);
    }
  }

  lemma NothingLeft(t: Tables, u: Tables)
    requires SameRules(t, u) && CursorOf(u) == CursorOf(t) && u.deferred <= t.deferred && Left(t) == 0
    ensures Left(u) == 0
  {
    assert Pending(u, true) == Pending(t, true) == {};
    assert LiveDeferred(u) <= LiveDeferred(t) == {};
  }

  /** The worlds a local worker goes through, one round after the other, each under a token of
      its own. */
  ghost predicate Rounds(ws: seq<World>, now: int, tokens: seq<Token>, bounds: Bounds, valid: Check) {
    && |ws| == |tokens| + 1
    && (forall i :: 0 <= i < |tokens| ==> ws[i + 1] == Round(ws[i], now, tokens[i], bounds, valid))
    && (forall i :: 0 <= i < |tokens| ==> tokens[i] !in ws[0].used)
    && (forall i, j :: 0 <= i < j < |tokens| ==> tokens[i] != tokens[j])
  }

  /** A worker may start a round, and n rounds are enough. */
  predicate Workable(w: World, now: int, n: nat) {
    Inv(w) && w.t.active && Free(w.t, now) && Left(w.t) <= n
  }

  lemma RoundCounts(w: World, now: int, token: Token, bounds: Bounds, valid: Check, n: nat, next: World)
    requires Workable(w, now, n) && n > 0 && token !in w.used && bounds.maxEvents > 0
    requires next == Round(w, now, token, bounds, valid)
    ensures Workable(next, now, n - 1) && SameRules(w.t, next.t) && next.used == w.used + {token}
  {
    RoundLeavesLess(w, now, token, bounds, valid);
  }

  lemma SameRulesChain(t: Tables, u: Tables, v: Tables)
    requires SameRules(t, u) && SameRules(u, v)
    ensures SameRules(t, v)
  {
  }

  lemma RoundIsFresh(ws: seq<World>, now: int, tokens: seq<Token>, bounds: Bounds, valid: Check, k: nat)
    requires Rounds(ws, now, tokens, bounds, valid) && k < |tokens|
    ensures ws[k + 1] == Round(ws[k], now, tokens[k], bounds, valid)
    ensures tokens[k] !in ws[0].used && forall i :: 0 <= i < k ==> tokens[i] != tokens[k]
  {
  }

  lemma {:induction false} RoundsAddUp(ws: seq<World>, now: int, tokens: seq<Token>, bounds: Bounds, valid: Check,
                                       k: nat)
    requires Rounds(ws, now, tokens, bounds, valid) && k <= |tokens| && bounds.maxEvents > 0
    requires Workable(ws[0], now, |tokens|)
    ensures Workable(ws[k], now, |tokens| - k) && SameRules(ws[0].t, ws[k].t)
    ensures forall t :: t in ws[k].used ==> t in ws[0].used || exists i :: 0 <= i < k && tokens[i] == t
  {
    if k > 0 {
      RoundsAddUp(ws, now, tokens, bounds, valid, k - 1);
      RoundIsFresh(ws, now, tokens, bounds, valid, k - 1);
      RoundCounts(ws[k - 1], now, tokens[k - 1], bounds, valid, |tokens| - k + 1, ws[k]);
      SameRulesChain(ws[0].t, ws[k - 1].t, ws[k].t);
    }
  }

  /** From any reachable state a local worker alone, given as many rounds as there are
      events to read and rows to re-read, extracts every event that may be extracted. */
  lemma LocalWorkerDrainsTheLog(ws: seq<World>, now: int, tokens: seq<Token>, bounds: Bounds, valid: Check)
    requires Rounds(ws, now, tokens, bounds, valid) && bounds.maxEvents > 0
    requires Inv(ws[0]) && ws[0].t.active && Free(ws[0].t, now) && Left(ws[0].t) <= |tokens|
    ensures var first, last := ws[0], ws[|tokens|];
            && last.t.events == first.t.events && Pending(last.t, true) == {} && LiveDeferred(last.t) == {}
            && forall p :: Eligible(first.t, true, p) ==> p in last.committed
  {
    RoundsAddUp(ws, now, tokens, bounds, valid, |tokens|);
    NothingLeftIsCommitted(ws[0].t, ws[|tokens|]);
  }

  lemma NothingLeftIsCommitted(t: Tables, w: World)
    requires Inv(w) && SameRules(t, w.t) && Left(w.t) == 0
    ensures Pending(w.t, true) == {} && LiveDeferred(w.t) == {}
    ensures forall p :: Eligible(t, true, p) ==> p in w.committed
  {
    assert Pending(w.t, true) == {} && LiveDeferred(w.t) == {};
    forall p | Eligible(t, true, p) ensures p in w.committed {
      assert Eligible(w.t, true, p) && p in w.t.events;
      assert p !in Pending(w.t, true) && p !in LiveDeferred(w.t);
      assert CursorOf(w.t).Some? && AtMost(p, CursorOf(w.t).value);
      assert Accounted(w, p);
    }
  }
}
