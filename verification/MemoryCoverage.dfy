// Candidate extraction skips nothing, whatever the order of claims, commits, lost
// leases, mode changes and arrivals
// (personal-secretary-mysql/src/repo/mysql_memory_candidate.rs, mysql_memory.rs).
module MemoryCoverage {
  import opened Wrappers
  import opened MemoryCandidates

  /** The tables, with the history that decides what was ever extracted. */
  datatype World = World(t: Tables, used: set<Token>, issued: set<Batch>, committed: set<Pos>)

  datatype Action =
    | ClaimBatch(now: int, token: Token, local: bool, bounds: Bounds)
    | CommitBatch(now: int, batch: Batch, new_: seq<Candidate>)
    | ReleaseClaim(token: Token)
    | Arrive(pos: Pos, event: Event)
    | Recall(pos: Pos)
    | Restrict(pos: Pos, mode: Trust)
    | Switch(conversation: ConversationId, mode: Trust)
    | SetActive(active: bool)

  type Check = (Candidate, Batch) -> bool

  /** A row's content mode may only get stricter. */
  function RestrictContent(t: Tables, p: Pos, mode: Trust): Tables {
    if p !in t.events || t.events[p].content.None? then t
    else
      var content := t.events[p].content.value;
      t.(events := t.events[p := t.events[p].(content := Some(content.(mode := Stricter(content.mode, mode))))])
  }

  /** Tokens are generated, so a claim never reuses one; workers commit batches they were given. */
  function Perform(w: World, a: Action, valid: Check): World {
    match a
    case ClaimBatch(now, token, local, bounds) =>
      if token in w.used then w
      else
        var (after, r) := Claim(w.t, now, token, local, bounds);
        World(after, w.used + {token},
              if r.Ok? && r.value.Some? then w.issued + {r.value.value} else w.issued, w.committed)
    case CommitBatch(now, batch, new_) =>
      if batch !in w.issued then w
      else
        var (after, r) := Commit(w.t, now, batch, new_, valid);
        w.(t := after, committed := if r.Ok? then w.committed + Positions(batch.events) else w.committed)
    case ReleaseClaim(token) => w.(t := Release(w.t, token))
    case Arrive(p, event) => if p in w.t.events then w else w.(t := w.t.(events := w.t.events[p := event]))
    case Recall(p) => w.(t := w.t.(recalled := w.t.recalled + {p}))
    case Restrict(p, mode) => w.(t := RestrictContent(w.t, p, mode))
    case Switch(c, mode) => w.(t := SwitchMode(w.t, c, mode))
    case SetActive(active) => w.(t := w.t.(active := active))
  }

  // ---- The invariant ----

  predicate HoldsLease(w: World, b: Batch) {
    w.t.row.Some? && w.t.row.value.lease.Some? && w.t.row.value.lease.value.token == b.token
  }

  predicate Accounted(w: World, p: Pos) {
    p in w.committed || p in w.t.deferred
  }

  /** Every eligible event at or below the cursor was extracted or waits in the side queue. */
  predicate Covered(w: World) {
    forall p :: p in w.t.events && Eligible(w.t, true, p) && CursorOf(w.t).Some? && AtMost(p, CursorOf(w.t).value)
                ==> Accounted(w, p)
  }

  /** The batch whose commit the current lease would accept may be committed. */
  predicate Ready(w: World, b: Batch) {
    && (CursorOf(w.t).Some? ==> AtMost(CursorOf(w.t).value, b.next))
    && (CursorOf(w.t) == Some(b.next) ==> Positions(b.events) != {} && Positions(b.events) <= w.t.deferred)
    && (forall p :: p in w.t.events && Eligible(w.t, true, p) && AtMost(p, b.next)
                    ==> Accounted(w, p) || p in Positions(b.events))
  }

  predicate AllReady(w: World) {
    forall b :: b in w.issued && HoldsLease(w, b) ==> Ready(w, b)
  }

  /** Bookkeeping: tokens in circulation were generated, places mentioned exist. */
  predicate Known(w: World) {
    && (forall b :: b in w.issued ==> b.token in w.used && Positions(b.events) <= w.t.events.Keys)
    && (w.t.row.Some? && w.t.row.value.lease.Some? ==> w.t.row.value.lease.value.token in w.used)
    && w.committed <= w.t.events.Keys && w.t.deferred <= w.t.events.Keys
  }

  predicate Inv(w: World) {
    Covered(w) && AllReady(w) && Known(w)
  }

  // ---- Claims ----

  /** What a new batch owes the events up to its next cursor. */
  predicate Complete(t: Tables, before: set<Pos>, b: Batch) {
    forall p :: p in t.events && Eligible(t, true, p) && AtMost(p, b.next) && Beyond(CursorOf(t), p)
                ==> p in before || p in Positions(b.events)
  }

  /** An eligible event up to the last row is itself a row, or is passed over as local-only. */
  lemma UpToLastRow(t: Tables, local: bool, n: nat, p: Pos)
    requires Pending(t, local) != {} && n > 0
    requires (forall x :: x in Pending(t, local) ==> x in t.events) && Eligible(t, true, p) && Beyond(CursorOf(t), p)
    ensures var rows := BatchRows(t, Pending(t, local), n);
            rows != [] && (AtMost(p, rows[|rows| - 1]) ==>
                             p in rows || (!local && p in PassedOver(t, rows[|rows| - 1])))
  {
    var q := Pending(t, local);
    RowsSkipNothing(t, q, n);
    var last := BatchRows(t, q, n)[|BatchRows(t, q, n)| - 1];
    assert last in BatchRows(t, q, n) && last in q && Eligible(t, local, last);
    assert Eligible(t, local, p) ==> p in q;
  }

  lemma MainBatchIsComplete(t: Tables, token: Token, local: bool, bounds: Bounds)
    requires t.row.Some? && ClaimMain(t, token, local, bounds).Ok?
    ensures var (after, batch) := ClaimMain(t, token, local, bounds).value;
            batch.Some? ==>
              && Beyond(CursorOf(t), batch.value.next)
              && Complete(t, after.deferred, batch.value)
              && batch.value.token == token && Positions(batch.value.events) <= t.events.Keys
  {
    var q := Pending(t, local);
    if q != {} {
      assert forall p :: p in q ==> Eligible(t, local, p) && HasContent(t, p);
      RowsHaveContent(t, q, bounds.maxEvents);
      var rows := BatchRows(t, q, bounds.maxEvents);
      RowsSkipNothing(t, q, bounds.maxEvents);
      var last := rows[|rows| - 1];
      assert last in rows && last in q;
      BoundedPositions(t, rows, bounds.maxEventChars, bounds.maxTotalChars);
      var (after, batch) := ClaimMain(t, token, local, bounds).value;
      MainBatchIsCompleteUpTo(t, local, bounds, after.deferred, batch.value);
      forall p | p in Positions(batch.value.events) ensures p in t.events {
        assert p in rows && p in q;
      }
    }
  }

  lemma MainBatchIsCompleteUpTo(t: Tables, local: bool, bounds: Bounds, after: set<Pos>, b: Batch)
    requires Pending(t, local) != {} && bounds.maxEvents > 0
    requires forall x :: x in Pending(t, local) ==> x in t.events
    requires var rows := BatchRows(t, Pending(t, local), bounds.maxEvents);
             && rows != [] && b.next == rows[|rows| - 1]
             && (forall p :: p in rows ==> p in Positions(b.events))
             && (!local ==> PassedOver(t, b.next) <= after)
    ensures Complete(t, after, b)
  {
    forall p | p in t.events && Eligible(t, true, p) && AtMost(p, b.next) && Beyond(CursorOf(t), p)
      ensures p in after || p in Positions(b.events)
    {
      UpToLastRow(t, local, bounds.maxEvents, p);
    }
  }

  lemma DeferredBatchIsDeferred(t: Tables, token: Token, bounds: Bounds)
    requires t.deferred <= t.events.Keys
    ensures var (after, batch) := ClaimDeferred(t, token, bounds);
            batch.Some? ==>
              && CursorOf(t) == Some(batch.value.next) && batch.value.token == token
              && Positions(batch.value.events) != {} && Positions(batch.value.events) <= after.deferred
  {
    if CursorOf(t).Some? {
      var cleaned := t.(deferred := t.deferred - DeadDeferred(t));
      var q := LiveDeferred(cleaned);
      if q != {} && bounds.maxEvents > 0 {
        assert forall p :: p in q ==> Eligible(cleaned, true, p) && HasContent(cleaned, p);
        RowsHaveContent(cleaned, q, bounds.maxEvents);
        RowsSkipNothing(cleaned, q, bounds.maxEvents);
        var rows := BatchRows(cleaned, q, bounds.maxEvents);
        BoundedPositions(cleaned, rows, bounds.maxEventChars, bounds.maxTotalChars);
        var events := Bounded(cleaned, rows, bounds.maxEventChars, bounds.maxTotalChars);
        assert rows[0] in Positions(events);
        forall p | p in Positions(events) ensures p in cleaned.deferred {
          assert p in rows && p in q;
        }
      }
    }
  }

  /** Dropping dead rows from the side queue loses nothing that is eligible. */
  lemma CleaningKeepsCover(w: World)
    requires Covered(w)
    ensures Covered(w.(t := w.t.(deferred := w.t.deferred - DeadDeferred(w.t))))
  {
    var w' := w.(t := w.t.(deferred := w.t.deferred - DeadDeferred(w.t)));
    forall p | p in w'.t.events && Eligible(w'.t, true, p) && CursorOf(w'.t).Some? && AtMost(p, CursorOf(w'.t).value)
      ensures Accounted(w', p)
    {
      assert Eligible(w.t, true, p) && Accounted(w, p);
    }
  }

  /** A world in which the given batch, if any, is the one just issued under the lease. */
  lemma IssueKeeps(w: World, token: Token, batch: Option<Batch>)
    requires Covered(w) && Known(w.(used := w.used + {token})) && token !in w.used
    requires forall b :: b in w.issued ==> b.token in w.used
    requires w.t.row.Some? && (w.t.row.value.lease.Some? ==> w.t.row.value.lease.value.token == token)
    requires batch.Some? ==>
               && batch.value.token == token && Positions(batch.value.events) <= w.t.events.Keys
               && Ready(w, batch.value)
    ensures Inv(World(w.t, w.used + {token}, if batch.Some? then w.issued + {batch.value} else w.issued, w.committed))
  {
    var w' := World(w.t, w.used + {token}, if batch.Some? then w.issued + {batch.value} else w.issued, w.committed);
    forall p | p in w'.t.events && Eligible(w'.t, true, p) && CursorOf(w'.t).Some? && AtMost(p, CursorOf(w'.t).value)
      ensures Accounted(w', p)
    {
      assert Accounted(w, p);
    }
    forall b | b in w'.issued && HoldsLease(w', b) ensures Ready(w', b) {
      assert b !in w.issued;
      assert Ready(w, b);
      forall p | p in w'.t.events && Eligible(w'.t, true, p) && AtMost(p, b.next)
        ensures Accounted(w', p) || p in Positions(b.events)
      {
        assert Accounted(w, p) || p in Positions(b.events);
      }
    }
  }

  /** A claim in progress: the lease is taken, the cover still holds. */
  predicate Claiming(w: World, token: Token) {
    && Covered(w) && Known(w.(used := w.used + {token})) && token !in w.used
    && (forall b :: b in w.issued ==> b.token in w.used)
    && w.t.row.Some? && w.t.row.value.lease.Some? && w.t.row.value.lease.value.token == token
  }

  lemma HoldingKeepsCover(w: World, now: int, token: Token, bounds: Bounds)
    requires Inv(w) && token !in w.used
    ensures Claiming(w.(t := Held(w.t, token, now, bounds)), token)
  {
    var w' := w.(t := Held(w.t, token, now, bounds));
    forall p | p in w'.t.events && Eligible(w'.t, true, p) && CursorOf(w'.t).Some? && AtMost(p, CursorOf(w'.t).value)
      ensures Accounted(w', p)
    {
      assert Eligible(w.t, true, p) && Accounted(w, p);
    }
  }

  /** The same log, cursor and rules; the lease may be gone, the side queue may have grown. */
  predicate Grown(t: Tables, after: Tables) {
    && after == t.(row := after.row, deferred := after.deferred)
    && after.row.Some? && t.row.Some? && after.row.value.cursor == t.row.value.cursor
    && (after.row.value.lease.Some? ==> after.row == t.row)
    && t.deferred <= after.deferred <= t.events.Keys
  }

  lemma MainClaimGrows(t: Tables, token: Token, local: bool, bounds: Bounds)
    requires t.row.Some? && t.deferred <= t.events.Keys && ClaimMain(t, token, local, bounds).Ok?
    ensures Grown(t, ClaimMain(t, token, local, bounds).value.0)
  {
  }

  lemma GrownKeepsCover(w: World, after: Tables)
    requires Covered(w) && Grown(w.t, after)
    ensures Covered(w.(t := after))
  {
    var w' := w.(t := after);
    forall p | p in w'.t.events && Eligible(w'.t, true, p) && CursorOf(w'.t).Some? && AtMost(p, CursorOf(w'.t).value)
      ensures Accounted(w', p)
    {
      assert Eligible(w.t, true, p) && Accounted(w, p);
    }
  }

  lemma CompleteIsReady(w: World, after: Tables, b: Batch)
    requires Covered(w) && Grown(w.t, after)
    requires Beyond(CursorOf(w.t), b.next) && Complete(w.t, after.deferred, b)
    ensures Ready(w.(t := after), b)
  {
    var w' := w.(t := after);
    forall p | p in w'.t.events && Eligible(w'.t, true, p) && AtMost(p, b.next)
      ensures Accounted(w', p) || p in Positions(b.events)
    {
      assert Eligible(w.t, true, p);
      if !Beyond(CursorOf(w.t), p) {
        assert Accounted(w, p);
      }
    }
  }

  lemma MainClaimKeeps(w: World, token: Token, local: bool, bounds: Bounds)
    requires Claiming(w, token) && ClaimMain(w.t, token, local, bounds).Ok?
    ensures var (after, batch) := ClaimMain(w.t, token, local, bounds).value;
            Inv(World(after, w.used + {token}, if batch.Some? then w.issued + {batch.value} else w.issued, w.committed))
  {
    var (after, batch) := ClaimMain(w.t, token, local, bounds).value;
    MainBatchIsComplete(w.t, token, local, bounds);
    MainClaimGrows(w.t, token, local, bounds);
    GrownKeepsCover(w, after);
    if batch.Some? {
      CompleteIsReady(w, after, batch.value);
    }
    IssueGrown(w, after, token, batch);
  }

  lemma IssueGrown(w: World, after: Tables, token: Token, batch: Option<Batch>)
    requires Claiming(w, token) && Grown(w.t, after) && Covered(w.(t := after))
    requires batch.Some? ==>
               && batch.value.token == token && Positions(batch.value.events) <= w.t.events.Keys
               && Ready(w.(t := after), batch.value)
    ensures Inv(World(after, w.used + {token}, if batch.Some? then w.issued + {batch.value} else w.issued, w.committed))
  {
    IssueKeeps(w.(t := after), token, batch);
  }

  lemma DeferredClaimKeeps(w: World, token: Token, bounds: Bounds)
    requires Claiming(w, token)
    ensures var (after, batch) := ClaimDeferred(w.t, token, bounds);
            && Claiming(w.(t := after), token)
            && (batch.Some? ==> Inv(World(after, w.used + {token}, w.issued + {batch.value}, w.committed)))
  {
    var (after, batch) := ClaimDeferred(w.t, token, bounds);
    CleaningKeepsCover(w);
    DeferredBatchIsDeferred(w.t, token, bounds);
    if batch.Some? {
      var w', b := w.(t := after), batch.value;
      forall p | p in w'.t.events && Eligible(w'.t, true, p) && AtMost(p, b.next) ensures Accounted(w', p) {
      }
      IssueKeeps(w', token, batch);
    }
  }

  lemma ClaimKeeps(w: World, a: Action, valid: Check)
    requires Inv(w) && a.ClaimBatch?
    ensures Inv(Perform(w, a, valid))
  {
    var token, bounds := a.token, a.bounds;
    if token !in w.used {
      if !w.t.active || !Free(w.t, a.now) || ClaimWith(Held(w.t, token, a.now, bounds), token, a.local, bounds).Err? {
        NothingIssued(w, token);
      } else {
        var held := w.(t := Held(w.t, token, a.now, bounds));
        HoldingKeepsCover(w, a.now, token, bounds);
        DeferredClaimKeeps(held, token, bounds);
        if !a.local {
          MainClaimKeeps(held, token, false, bounds);
        } else if ClaimDeferred(held.t, token, bounds).1.None? {
          MainClaimKeeps(held.(t := ClaimDeferred(held.t, token, bounds).0), token, true, bounds);
        }
      }
    }
  }

  lemma NothingIssued(w: World, token: Token)
    requires Inv(w)
    ensures Inv(w.(used := w.used + {token}))
  {
    var w' := w.(used := w.used + {token});
    forall b | b in w'.issued && HoldsLease(w', b) ensures Ready(w', b) {
      assert HoldsLease(w, b) && Ready(w, b);
      assert forall p :: Accounted(w, p) <==> Accounted(w', p);
    }
    assert forall p :: Accounted(w, p) <==> Accounted(w', p);
  }

  // ---- The other actions ----

  lemma CommitKeeps(w: World, a: Action, valid: Check)
    requires Inv(w) && a.CommitBatch?
    ensures Inv(Perform(w, a, valid))
  {
    var b := a.batch;
    if b in w.issued && Commit(w.t, a.now, b, a.new_, valid).1.Ok? {
      assert HoldsLease(w, b) && Ready(w, b);
      var w' := Perform(w, a, valid);
      forall p | p in w'.t.events && Eligible(w'.t, true, p) && AtMost(p, b.next) ensures Accounted(w', p) {
        assert Eligible(w.t, true, p);
        assert Accounted(w, p) || p in Positions(b.events);
      }
    }
  }

  /** Eligibility that only shrinks, with a cursor and lease that stay or go, keeps the cover. */
  lemma ShrinkingKeeps(w: World, t: Tables)
    requires Inv(w)
    requires forall p :: p in t.events && Eligible(t, true, p) ==> p in w.t.events && Eligible(w.t, true, p)
    requires w.t.events.Keys <= t.events.Keys && t.deferred == w.t.deferred
    requires t.row.Some? ==> w.t.row.Some? && t.row.value.cursor == w.t.row.value.cursor
                             && (t.row.value.lease.Some? ==> t.row == w.t.row)
    ensures Inv(w.(t := t))
  {
    var w' := w.(t := t);
    forall p | p in t.events && Eligible(t, true, p) && CursorOf(t).Some? && AtMost(p, CursorOf(t).value)
      ensures Accounted(w', p)
    {
      assert Accounted(w, p);
    }
    forall b | b in w'.issued && HoldsLease(w', b) ensures Ready(w', b) {
      assert HoldsLease(w, b) && Ready(w, b);
      forall p | p in t.events && Eligible(t, true, p) && AtMost(p, b.next)
        ensures Accounted(w', p) || p in Positions(b.events)
      {
        assert Accounted(w, p) || p in Positions(b.events);
      }
    }
  }

  lemma RestrictedIsStricter(a: Trust, b: Trust, mode: Trust)
    ensures Allows(true, Stricter(a, Stricter(b, mode))) ==> Allows(true, Stricter(a, b))
  {
  }

  lemma RestrictKeeps(w: World, a: Action, valid: Check)
    requires Inv(w) && a.Restrict?
    ensures Inv(Perform(w, a, valid))
  {
    var t := RestrictContent(w.t, a.pos, a.mode);
    forall p | p in t.events && Eligible(t, true, p) ensures p in w.t.events && Eligible(w.t, true, p) {
      if p == a.pos && w.t.events[p].content.Some? {
        RestrictedIsStricter(w.t.modes[w.t.events[p].conversation], w.t.events[p].content.value.mode, a.mode);
      }
    }
    ShrinkingKeeps(w, t);
  }

  /** Positions a cursor has passed, or will have passed once the batch in flight commits. */
  predicate Passed(w: World, p: Pos) {
    || (CursorOf(w.t).Some? && AtMost(p, CursorOf(w.t).value))
    || (exists b :: b in w.issued && HoldsLease(w, b) && AtMost(p, b.next))
  }

  /** A new event keeps the invariant exactly when it is not extractable or arrives
      above the cursor and above the batch in flight. */
  lemma ArrivalKeepsExactlyAbove(w: World, p: Pos, event: Event, valid: Check)
    requires Inv(w) && p !in w.t.events
    ensures var w' := Perform(w, Arrive(p, event), valid);
            Inv(w') <==> !(Eligible(w'.t, true, p) && Passed(w, p))
  {
    var w' := Perform(w, Arrive(p, event), valid);
    if Eligible(w'.t, true, p) && Passed(w, p) {
      assert !Accounted(w', p);
      if !(CursorOf(w.t).Some? && AtMost(p, CursorOf(w.t).value)) {
        var b :| b in w.issued && HoldsLease(w, b) && AtMost(p, b.next);
        assert HoldsLease(w', b) && !Ready(w', b);
      }
    } else {
      forall q | q in w'.t.events && Eligible(w'.t, true, q) && CursorOf(w'.t).Some? && AtMost(q, CursorOf(w'.t).value)
        ensures Accounted(w', q)
      {
        assert q != p ==> Eligible(w.t, true, q) && Accounted(w, q);
      }
      forall b | b in w'.issued && HoldsLease(w', b) ensures Ready(w', b) {
        assert HoldsLease(w, b) && Ready(w, b);
        forall q | q in w'.t.events && Eligible(w'.t, true, q) && AtMost(q, b.next)
          ensures Accounted(w', q) || q in Positions(b.events)
        {
          assert q != p ==> Eligible(w.t, true, q) && (Accounted(w, q) || q in Positions(b.events));
        }
      }
    }
  }

  /** Otherwise it is lost: once the batch in flight commits, the cursor is past an
      eligible event that was neither extracted nor deferred. */
  lemma LateArrivalIsLost(w: World, b: Batch, p: Pos, event: Event, now: int, valid: Check)
    requires Inv(w) && b in w.issued && Owns(w.t, b.token, now) && p !in w.t.events && AtMost(p, b.next)
    requires Eligible(w.t.(events := w.t.events[p := event]), true, p)
    ensures var lost := Perform(Perform(w, Arrive(p, event), valid), CommitBatch(now, b, []), valid);
            && Eligible(lost.t, true, p) && CursorOf(lost.t) == Some(b.next) && AtMost(p, b.next)
            && !Accounted(lost, p) && !Covered(lost)
  {
    var arrived := Perform(w, Arrive(p, event), valid);
    var lost := Perform(arrived, CommitBatch(now, b, []), valid);
    assert Eligible(lost.t, true, p) && !Accounted(lost, p);
  }

  /** Passed over for good: below the cursor, in no queue, and in no batch that could
      still be committed. */
  predicate Lost(w: World, p: Pos) {
    && p in w.t.events && Eligible(w.t, true, p) && !Accounted(w, p) && w.t.deferred <= w.t.events.Keys
    && CursorOf(w.t).Some? && AtMost(p, CursorOf(w.t).value)
    && (forall b :: b in w.issued ==> b.token in w.used)
    && (w.t.row.Some? && w.t.row.value.lease.Some? ==> w.t.row.value.lease.value.token in w.used)
    && (forall b :: b in w.issued && HoldsLease(w, b) ==>
          p !in Positions(b.events) && AtMost(CursorOf(w.t).value, b.next))
  }

  lemma MainBatchIsPending(t: Tables, token: Token, local: bool, bounds: Bounds)
    requires t.row.Some? && ClaimMain(t, token, local, bounds).Ok?
    ensures var (after, batch) := ClaimMain(t, token, local, bounds).value;
            && CursorOf(after) == CursorOf(t)
            && (forall p :: p in after.deferred ==> p in t.deferred || Beyond(CursorOf(t), p))
            && (batch.Some? ==> Beyond(CursorOf(t), batch.value.next)
                                && forall p :: p in Positions(batch.value.events) ==> Beyond(CursorOf(t), p))
  {
    var q := Pending(t, local);
    if q != {} {
      PendingHaveContent(t, local);
      RowsHaveContent(t, q, bounds.maxEvents);
      var rows := BatchRows(t, q, bounds.maxEvents);
      RowsSkipNothing(t, q, bounds.maxEvents);
      BoundedPositions(t, rows, bounds.maxEventChars, bounds.maxTotalChars);
      assert rows[|rows| - 1] in rows;
      assert forall p :: p in rows ==> p in q;
    }
  }

  /** The same events under the same cursor and rules. */
  predicate SameLog(t: Tables, after: Tables) {
    after == t.(row := after.row, deferred := after.deferred) && CursorOf(after) == CursorOf(t)
  }

  lemma IssueKeepsLost(w: World, p: Pos, after: Tables, token: Token, batch: Option<Batch>)
    requires Lost(w, p) && SameLog(w.t, after) && p !in after.deferred && token !in w.used
    requires after.deferred <= after.events.Keys
    requires after.row.Some? && after.row.value.lease.Some? ==> after.row.value.lease.value.token == token
    requires batch.Some? ==>
               batch.value.token == token && p !in Positions(batch.value.events)
               && AtMost(CursorOf(w.t).value, batch.value.next)
    ensures Lost(World(after, w.used + {token}, if batch.Some? then w.issued + {batch.value} else w.issued,
                       w.committed), p)
  {
    assert Eligible(after, true, p);
  }

  /** Neither path of a claim hands out, or queues, what lies below the cursor outside the queue. */
  lemma ClaimedAreNotLost(t: Tables, token: Token, local: bool, bounds: Bounds, p: Pos)
    requires t.row.Some? && CursorOf(t).Some? && t.deferred <= t.events.Keys
    requires AtMost(p, CursorOf(t).value) && p !in t.deferred && ClaimWith(t, token, local, bounds).Ok?
    ensures var (after, batch) := ClaimWith(t, token, local, bounds).value;
            && SameLog(t, after) && p !in after.deferred && after.deferred <= after.events.Keys
            && (batch.Some? ==> batch.value.token == token && p !in Positions(batch.value.events)
                                && AtMost(CursorOf(t).value, batch.value.next))
  {
    DeferredBatchIsDeferred(t, token, bounds);
    var cleaned := if local then ClaimDeferred(t, token, bounds).0 else t;
    if ClaimMain(cleaned, token, local, bounds).Ok? {
      MainBatchIsPending(cleaned, token, local, bounds);
    }
  }

  lemma ClaimMainKeepsLease(t: Tables, token: Token, local: bool, bounds: Bounds)
    requires t.row.Some? && ClaimMain(t, token, local, bounds).Ok?
    ensures var after := ClaimMain(t, token, local, bounds).value.0;
            after.row.Some? && (after.row.value.lease.Some? ==> after.row == t.row)
  {
  }

  lemma ClaimDeferredKeepsLease(t: Tables, token: Token, bounds: Bounds)
    ensures ClaimDeferred(t, token, bounds).0.row == t.row
  {
  }

  lemma ClaimKeepsLease(t: Tables, token: Token, local: bool, bounds: Bounds)
    requires t.row.Some? && ClaimWith(t, token, local, bounds).Ok?
    ensures var after := ClaimWith(t, token, local, bounds).value.0;
            after.row.Some? && (after.row.value.lease.Some? ==> after.row == t.row)
  {
    ClaimDeferredKeepsLease(t, token, bounds);
    var cleaned := if local then ClaimDeferred(t, token, bounds).0 else t;
    if ClaimMain(cleaned, token, local, bounds).Ok? {
      ClaimMainKeepsLease(cleaned, token, local, bounds);
    }
  }

  lemma ClaimKeepsLost(w: World, p: Pos, a: Action, valid: Check)
    requires Lost(w, p) && a.ClaimBatch?
    ensures Lost(Perform(w, a, valid), p)
  {
    if a.token !in w.used {
      var held := Held(w.t, a.token, a.now, a.bounds);
      if w.t.active && Free(w.t, a.now) && ClaimWith(held, a.token, a.local, a.bounds).Ok? {
        ClaimedAreNotLost(held, a.token, a.local, a.bounds, p);
        ClaimKeepsLease(held, a.token, a.local, a.bounds);
        var (after, batch) := ClaimWith(held, a.token, a.local, a.bounds).value;
        IssueKeepsLost(w, p, after, a.token, batch);
      }
    }
  }

  /** The actions that can bring a lost event back, or make it one nobody need extract: a
      mode change, which forgets the cursor, and a recall or restriction of the event. */
  predicate Forgiving(w: World, p: Pos, a: Action) {
    || (a.Switch? && SwitchMode(w.t, a.conversation, a.mode) != w.t)
    || a == Recall(p) || (a.Restrict? && a.pos == p)
  }

  lemma ActionKeepsLost(w: World, p: Pos, a: Action, valid: Check)
    requires Lost(w, p) && !Forgiving(w, p, a)
    ensures Lost(Perform(w, a, valid), p)
  {
    match a
    case ClaimBatch(_, _, _, _) => ClaimKeepsLost(w, p, a, valid);
    case _ =>
  }

  // ---- Every run ----

  /** The proviso on arrivals, at each of them. */
  predicate Timely(w: World, actions: seq<Action>, valid: Check)
    decreases |actions|
  {
    actions == [] ||
    var next := Perform(w, actions[0], valid);
    && (actions[0].Arrive? && actions[0].pos !in w.t.events ==>
          !(Eligible(next.t, true, actions[0].pos) && Passed(w, actions[0].pos)))
    && Timely(next, actions[1..], valid)
  }

  function PerformAll(w: World, actions: seq<Action>, valid: Check): World
    decreases |actions|
  {
    if actions == [] then w else PerformAll(Perform(w, actions[0], valid), actions[1..], valid)
  }

  /** No action of the run is forgiving in the world it meets. */
  predicate NeverForgiven(w: World, p: Pos, actions: seq<Action>, valid: Check)
    decreases |actions|
  {
    actions == []
    || (!Forgiving(w, p, actions[0]) && NeverForgiven(Perform(w, actions[0], valid), p, actions[1..], valid))
  }

  /** Over any run without such an action a lost event stays lost: it is never extracted
      and never queued. */
  lemma {:induction false} LostStaysLost(w: World, p: Pos, actions: seq<Action>, valid: Check)
    requires Lost(w, p) && NeverForgiven(w, p, actions, valid)
    ensures Lost(PerformAll(w, actions, valid), p)
    decreases |actions|
  {
    if actions != [] {
      ActionKeepsLost(w, p, actions[0], valid);
      LostStaysLost(Perform(w, actions[0], valid), p, actions[1..], valid);
    }
  }

  lemma ActionKeeps(w: World, a: Action, valid: Check)
    requires Inv(w)
    requires a.Arrive? && a.pos !in w.t.events ==> !(Eligible(Perform(w, a, valid).t, true, a.pos) && Passed(w, a.pos))
    ensures Inv(Perform(w, a, valid))
  {
    match a
    case ClaimBatch(_, _, _, _) => ClaimKeeps(w, a, valid);
    case CommitBatch(_, _, _) => CommitKeeps(w, a, valid);
    case ReleaseClaim(token) => ShrinkingKeeps(w, Release(w.t, token));
    case Arrive(p, event) => if p !in w.t.events { ArrivalKeepsExactlyAbove(w, p, event, valid); }
    case Recall(p) => ShrinkingKeeps(w, w.t.(recalled := w.t.recalled + {p}));
    case Restrict(_, _) => RestrictKeeps(w, a, valid);
    case Switch(c, mode) => SwitchKeeps(w, c, mode);
    case SetActive(active) => ShrinkingKeeps(w, w.t.(active := active));
  }

  /** A mode change may make events eligible again, and for that forgets the cursor. */
  lemma SwitchKeeps(w: World, c: ConversationId, mode: Trust)
    requires Inv(w)
    ensures Inv(w.(t := SwitchMode(w.t, c, mode)))
  {
  }

  /** In every reachable world nothing eligible at or below the cursor was skipped. */
  lemma {:induction false} NothingIsSkipped(w: World, actions: seq<Action>, valid: Check)
    requires Inv(w) && Timely(w, actions, valid)
    ensures Covered(PerformAll(w, actions, valid)) && Inv(PerformAll(w, actions, valid))
    decreases |actions|
  {
    if actions != [] {
      ActionKeeps(w, actions[0], valid);
      NothingIsSkipped(Perform(w, actions[0], valid), actions[1..], valid);
    }
  }

  /** In particular from an account whose extraction never began. */
  lemma NothingIsSkippedFromTheStart(t: Tables, actions: seq<Action>, valid: Check)
    requires t.row == None && t.deferred == {} && Timely(World(t, {}, {}, {}), actions, valid)
    ensures Covered(PerformAll(World(t, {}, {}, {}), actions, valid))
  {
    NothingIsSkipped(World(t, {}, {}, {}), actions, valid);
  }

  /** Every accepted commit makes progress: it moves the cursor up, or leaves the
      cursor and shrinks the side queue. */
  lemma CommitsMakeProgress(w: World, a: Action, valid: Check)
    requires Inv(w) && a.CommitBatch? && a.batch in w.issued
    requires Commit(w.t, a.now, a.batch, a.new_, valid).1.Ok?
    ensures var after := Perform(w, a, valid).t;
            && CursorOf(after).Some?
            && (|| CursorOf(w.t).None? || Less(CursorOf(w.t).value, CursorOf(after).value)
                || (CursorOf(after) == CursorOf(w.t) && after.deferred < w.t.deferred))
  {
    assert HoldsLease(w, a.batch) && Ready(w, a.batch);
    if CursorOf(w.t) == Some(a.batch.next) {
      var p :| p in Positions(a.batch.events);
      assert p in w.t.deferred && p !in Perform(w, a, valid).t.deferred;
    }
  }

  // ---- A late arrival, concretely ----

  const EARLY := Pos(1, 0)
  const LATE := Pos(2, 0)

  /** One event with readable content, in an account whose extraction never began. */
  function OneEvent(text: string): Tables {
    Tables(true, map[LATE := Readable(text)], map[0 := Normal], {}, None, {}, map[])
  }

  function Readable(text: string): Event {
    Event(0, Some(Content(Normal, text)))
  }

  function WholeLog(text: string): Bounds {
    Bounds(1, |text|, |text|, 10)
  }

  function LateBatch(text: string, token: Token): Batch {
    Batch(token, 0, [BatchEvent(LATE, Normal, text, false)], LATE)
  }

  lemma FirstClaim(text: string, token: Token, valid: Check)
    ensures Perform(World(OneEvent(text), {}, {}, {}), ClaimBatch(0, token, false, WholeLog(text)), valid)
            == World(Held(OneEvent(text), token, 0, WholeLog(text)), {token}, {LateBatch(text, token)}, {})
  {
    var bounds := WholeLog(text);
    var held := Held(OneEvent(text), token, 0, bounds);
    assert Pending(held, false) == {LATE};
    assert Least({LATE}) == LATE && Ordered({LATE}) == [LATE] by {
      assert {LATE} - {LATE} == {};
    }
    assert SameConversation(held, [LATE], 0) == [LATE];
    assert BatchRows(held, {LATE}, 1) == [LATE];
    assert Bounded(held, [LATE], |text|, |text|) == [BatchEvent(LATE, Normal, text, false)];
    assert PassedOver(held, LATE) == {};
    assert ClaimMain(held, token, false, bounds) == Ok((held, Some(LateBatch(text, token))));
  }

  /** A claim takes the later of two events, the earlier one arrives, the claim commits:
      the earlier one is passed over, in a run that begins with nothing extracted. */
  lemma LateArrivalHappens(text: string, token: Token, valid: Check)
    ensures var start := World(OneEvent(text), {}, {}, {});
            var claimed := Perform(start, ClaimBatch(0, token, false, WholeLog(text)), valid);
            var arrived := Perform(claimed, Arrive(EARLY, Readable(text)), valid);
            Inv(claimed) && Lost(Perform(arrived, CommitBatch(1, LateBatch(text, token), []), valid), EARLY)
  {
    var start := World(OneEvent(text), {}, {}, {});
    var claim := ClaimBatch(0, token, false, WholeLog(text));
    ActionKeeps(start, claim, valid);
    FirstClaim(text, token, valid);
    var claimed := Perform(start, claim, valid);
    LateArrivalIsLost(claimed, LateBatch(text, token), EARLY, Readable(text), 1, valid);
  }
}
