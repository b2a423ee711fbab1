// What candidate extraction hands out, to whom, and what a commit leaves behind
// (personal-secretary-mysql/src/repo/mysql_memory_candidate.rs).
module ExtractionCommits {
  import opened Wrappers
  import opened MemoryCandidates
  import opened MemoryCoverage

  // ---- What a commit stores ----

  predicate KeepsRows(before: map<CandidateId, Fingerprint>, after: map<CandidateId, Fingerprint>) {
    forall id :: id in before ==> id in after && after[id] == before[id]
  }

  predicate EachOnce(stored: map<CandidateId, Fingerprint>) {
    forall i, j :: i in stored && j in stored && i != j ==> stored[i] != stored[j]
  }

  /** The i-th candidate brings a fingerprint that is not stored and did not come before it. */
  predicate IsNew(before: map<CandidateId, Fingerprint>, new_: seq<Candidate>, i: nat)
    requires i < |new_|
  {
    new_[i].fingerprint !in before.Values && forall j :: 0 <= j < i ==> new_[j].fingerprint != new_[i].fingerprint
  }

  /** Its id is taken, by a stored candidate or by a new one before it. */
  predicate Clashes(before: map<CandidateId, Fingerprint>, new_: seq<Candidate>, i: nat)
    requires i < |new_|
  {
    && IsNew(before, new_, i)
    && (new_[i].id in before || exists j :: 0 <= j < i && IsNew(before, new_, j) && new_[j].id == new_[i].id)
  }

  /** What was stored, read off the tables and the list alone. */
  predicate StoredAll(before: map<CandidateId, Fingerprint>, new_: seq<Candidate>,
                      after: map<CandidateId, Fingerprint>) {
    && KeepsRows(before, after)
    && (forall c :: c in new_ ==> c.fingerprint in after.Values)
    && (forall i :: 0 <= i < |new_| && IsNew(before, new_, i) ==>
          new_[i].id in after && after[new_[i].id] == new_[i].fingerprint)
    && (forall id :: id in after && id !in before ==>
          exists i :: 0 <= i < |new_| && IsNew(before, new_, i) && new_[i].id == id)
  }

  lemma NewInTail(before: map<CandidateId, Fingerprint>, new_: seq<Candidate>, next: map<CandidateId, Fingerprint>,
                  i: nat)
    requires 0 < i < |new_|
    requires if new_[0].fingerprint in before.Values then next == before
             else new_[0].id !in before && next == before[new_[0].id := new_[0].fingerprint]
    ensures IsNew(next, new_[1..], i - 1) <==> IsNew(before, new_, i)
  {
    assert new_[0].fingerprint in next.Values by {
      if new_[0].fingerprint !in before.Values {
        assert next[new_[0].id] == new_[0].fingerprint;
      }
    }
    forall f ensures f in next.Values <==> f in before.Values || f == new_[0].fingerprint {
      if f in before.Values {
        var id :| id in before && before[id] == f;
        assert next[id] == f;
      }
    }
    var tail := new_[1..];
    forall j | 0 <= j < i - 1 ensures tail[j] == new_[j + 1] {
    }
    if IsNew(next, tail, i - 1) {
      forall j | 0 <= j < i ensures new_[j].fingerprint != new_[i].fingerprint {
        assert j > 0 ==> tail[j - 1] == new_[j];
      }
    }
  }

  /** An accepted insertion keeps every old row, stores each new fingerprint once, under the
      id of the first candidate that brought it, and counts exactly the rows it added; it is
      refused iff some candidate with a new fingerprint comes under a taken id. */
  lemma {:induction false} InsertionStores(before: map<CandidateId, Fingerprint>, new_: seq<Candidate>)
    ensures InsertAll(before, new_).Ok? <==> forall i :: 0 <= i < |new_| ==> !Clashes(before, new_, i)
    ensures InsertAll(before, new_).Ok? ==>
              var (after, n) := InsertAll(before, new_).value;
              StoredAll(before, new_, after) && n == |after| - |before| && (EachOnce(before) ==> EachOnce(after))
    decreases |new_|
  {
    if new_ != [] {
      var c, tail := new_[0], new_[1..];
      if c.fingerprint in before.Values {
        InsertionStores(before, tail);
        TailStores(before, new_, before);
      } else if c.id in before {
        assert Clashes(before, new_, 0);
      } else {
        var next := before[c.id := c.fingerprint];
        InsertionStores(next, tail);
        TailStores(before, new_, next);
        if EachOnce(before) {
          assert EachOnce(next);
        }
      }
    }
  }

  lemma TailStores(before: map<CandidateId, Fingerprint>, new_: seq<Candidate>, next: map<CandidateId, Fingerprint>)
    requires new_ != []
    requires if new_[0].fingerprint in before.Values then next == before
             else new_[0].id !in before && next == before[new_[0].id := new_[0].fingerprint]
    ensures (forall i :: 0 <= i < |new_| ==> !Clashes(before, new_, i)) <==>
            (forall i :: 0 <= i < |new_| - 1 ==> !Clashes(next, new_[1..], i))
    ensures forall after :: StoredAll(next, new_[1..], after) ==> StoredAll(before, new_, after)
  {
    var tail := new_[1..];
    forall i | 0 < i < |new_| ensures IsNew(next, tail, i - 1) <==> IsNew(before, new_, i) {
      NewInTail(before, new_, next, i);
    }
    forall i | 0 < i < |new_| ensures Clashes(next, tail, i - 1) <==> Clashes(before, new_, i) {
      TailClashes(before, new_, next, i);
    }
    assert !Clashes(before, new_, 0);
    forall i | 0 <= i < |tail| && (forall k :: 0 <= k < |new_| ==> !Clashes(before, new_, k))
      ensures !Clashes(next, tail, i)
    {
      assert !Clashes(before, new_, i + 1);
    }
    forall i | 0 <= i < |new_| && (forall k :: 0 <= k < |tail| ==> !Clashes(next, tail, k))
      ensures !Clashes(before, new_, i)
    {
      assert i > 0 ==> !Clashes(next, tail, i - 1);
    }
    forall after | StoredAll(next, tail, after) ensures StoredAll(before, new_, after) {
      TailStored(before, new_, next, after);
    }
  }

  lemma TailClashes(before: map<CandidateId, Fingerprint>, new_: seq<Candidate>, next: map<CandidateId, Fingerprint>,
                    i: nat)
    requires 0 < i < |new_|
    requires if new_[0].fingerprint in before.Values then next == before
             else new_[0].id !in before && next == before[new_[0].id := new_[0].fingerprint]
    ensures Clashes(next, new_[1..], i - 1) <==> Clashes(before, new_, i)
  {
    var tail := new_[1..];
    forall j | 0 < j <= i ensures IsNew(next, tail, j - 1) <==> IsNew(before, new_, j) {
      NewInTail(before, new_, next, j);
    }
    if Clashes(next, tail, i - 1) {
      if tail[i - 1].id !in next {
        var j :| 0 <= j < i - 1 && IsNew(next, tail, j) && tail[j].id == tail[i - 1].id;
        assert IsNew(before, new_, j + 1) && new_[j + 1].id == new_[i].id;
      } else if tail[i - 1].id !in before {
        assert IsNew(before, new_, 0) && new_[0].id == new_[i].id;
      }
    }
    if Clashes(before, new_, i) && new_[i].id !in before {
      var j :| 0 <= j < i && IsNew(before, new_, j) && new_[j].id == new_[i].id;
      if j > 0 {
        assert IsNew(next, tail, j - 1) && tail[j - 1].id == tail[i - 1].id;
      }
    }
  }

  lemma TailStored(before: map<CandidateId, Fingerprint>, new_: seq<Candidate>, next: map<CandidateId, Fingerprint>,
                   after: map<CandidateId, Fingerprint>)
    requires new_ != [] && StoredAll(next, new_[1..], after)
    requires if new_[0].fingerprint in before.Values then next == before
             else new_[0].id !in before && next == before[new_[0].id := new_[0].fingerprint]
    ensures StoredAll(before, new_, after)
  {
    var tail := new_[1..];
    forall i | 0 < i < |new_| ensures IsNew(next, tail, i - 1) <==> IsNew(before, new_, i) {
      NewInTail(before, new_, next, i);
    }
    forall c | c in new_ ensures c.fingerprint in after.Values {
      if c !in tail {
        assert c == new_[0];
        var id :| id in next && next[id] == c.fingerprint by {
          if c.fingerprint !in before.Values {
            assert next[c.id] == c.fingerprint;
          }
        }
        assert after[id] == c.fingerprint;
      }
    }
    forall i | 0 <= i < |new_| && IsNew(before, new_, i)
      ensures new_[i].id in after && after[new_[i].id] == new_[i].fingerprint
    {
      if i > 0 {
        assert IsNew(next, tail, i - 1) && tail[i - 1] == new_[i];
      } else {
        assert next[new_[0].id] == new_[0].fingerprint;
      }
    }
    forall id | id in after && id !in before
      ensures exists i :: 0 <= i < |new_| && IsNew(before, new_, i) && new_[i].id == id
    {
      if id in next {
        assert IsNew(before, new_, 0) && new_[0].id == id;
      } else {
        var i :| 0 <= i < |tail| && IsNew(next, tail, i) && tail[i].id == id;
        assert IsNew(before, new_, i + 1) && new_[i + 1].id == id;
      }
    }
  }

  /** A commit is accepted iff every candidate is valid, the lease is owned and no id clashes;
      then it stores the candidates, takes the batch out of the side queue, moves the cursor to
      the batch's end and gives up the lease. A refused one changes nothing. */
  lemma CommitIsAcceptedExactly(t: Tables, now: int, batch: Batch, new_: seq<Candidate>, valid: Check)
    ensures var (after, r) := Commit(t, now, batch, new_, valid);
            && (r.Ok? <==> && (forall c :: c in new_ ==> valid(c, batch)) && Owns(t, batch.token, now)
                           && forall i :: 0 <= i < |new_| ==> !Clashes(t.candidates, new_, i))
            && (r.Err? ==> after == t)
            && (r.Ok? ==>
                  && StoredAll(t.candidates, new_, after.candidates)
                  && r.value == |after.candidates| - |t.candidates|
                  && (EachOnce(t.candidates) ==> EachOnce(after.candidates))
                  && (forall p :: p in after.deferred <==>
                        p in t.deferred && forall e :: e in batch.events ==> e.pos != p)
                  && after == t.(candidates := after.candidates, deferred := after.deferred,
                                 row := Some(StateRow(Some(batch.next), None))))
  {
    InsertionStores(t.candidates, new_);
  }

  // ---- Over every run ----

  lemma ActionKeepsCandidates(w: World, a: Action, valid: Check)
    requires EachOnce(w.t.candidates)
    ensures var u := Perform(w, a, valid); KeepsRows(w.t.candidates, u.t.candidates) && EachOnce(u.t.candidates)
  {
    if a.CommitBatch? {
      CommitIsAcceptedExactly(w.t, a.now, a.batch, a.new_, valid);
    } else {
      OthersKeepCandidates(w, a, valid);
    }
  }

  lemma OthersKeepCandidates(w: World, a: Action, valid: Check)
    requires !a.CommitBatch?
    ensures Perform(w, a, valid).t.candidates == w.t.candidates
  {
    match a
    case ClaimBatch(now, token, local, bounds) => ClaimKeepsCandidates(w.t, now, token, local, bounds);
    case _ =>
  }

  lemma ClaimKeepsCandidates(t: Tables, now: int, token: Token, local: bool, bounds: Bounds)
    ensures Claim(t, now, token, local, bounds).0.candidates == t.candidates
  {
    var held := Held(t, token, now, bounds);
    var cleaned := if local then ClaimDeferred(held, token, bounds).0 else held;
    SideClaimKeepsCandidates(held, token, bounds);
    MainClaimKeepsCandidates(cleaned, token, local, bounds);
  }

  lemma SideClaimKeepsCandidates(t: Tables, token: Token, bounds: Bounds)
    ensures ClaimDeferred(t, token, bounds).0 == t.(deferred := ClaimDeferred(t, token, bounds).0.deferred)
  {
  }

  lemma MainClaimKeepsCandidates(t: Tables, token: Token, local: bool, bounds: Bounds)
    requires t.row.Some?
    ensures var r := ClaimMain(t, token, local, bounds); r.Ok? ==> r.value.0.candidates == t.candidates
  {
  }

  /** Candidates once stored are stored for ever, and no fingerprint is ever stored twice. */
  lemma {:induction false} CandidatesAreKept(w: World, actions: seq<Action>, valid: Check)
    requires EachOnce(w.t.candidates)
    ensures var u := PerformAll(w, actions, valid);
            KeepsRows(w.t.candidates, u.t.candidates) && EachOnce(u.t.candidates)
    decreases |actions|
  {
    if actions != [] {
      ActionKeepsCandidates(w, actions[0], valid);
      CandidatesAreKept(Perform(w, actions[0], valid), actions[1..], valid);
    }
  }

  /** So what an accepted commit was given is stored ever after. */
  lemma CommittedCandidatesStay(w: World, a: Action, actions: seq<Action>, valid: Check, c: Candidate)
    requires EachOnce(w.t.candidates) && a.CommitBatch? && a.batch in w.issued && c in a.new_
    requires Commit(w.t, a.now, a.batch, a.new_, valid).1.Ok?
    ensures c.fingerprint in PerformAll(Perform(w, a, valid), actions, valid).t.candidates.Values
  {
    var stored := Perform(w, a, valid);
    CommitIsAcceptedExactly(w.t, a.now, a.batch, a.new_, valid);
    CandidatesAreKept(stored, actions, valid);
    var id :| id in stored.t.candidates && stored.t.candidates[id] == c.fingerprint;
    assert PerformAll(stored, actions, valid).t.candidates[id] == c.fingerprint;
  }

  // ---- What a claim hands out ----

  /** Content that a worker of this kind may see, by the modes of conversation and content. */
  predicate MaySee(t: Tables, local: bool, p: Pos) {
    && p in t.events && t.events[p].content.Some? && t.events[p].conversation in t.modes && p !in t.recalled
    && var conversation, content := t.modes[t.events[p].conversation], t.events[p].content.value.mode;
       && conversation in {Normal, LocalOnly} && content in {Normal, LocalOnly}
       && (conversation == LocalOnly || content == LocalOnly ==> local)
  }

  /** A batch shows a worker only events it may see, of one conversation and in order, each
      with the stricter of its two modes, within all three limits. */
  predicate Presentable(t: Tables, local: bool, bounds: Bounds, b: Batch) {
    && 0 < |b.events| <= bounds.maxEvents && Chars(b.events) <= bounds.maxTotalChars
    && (forall i, j :: 0 <= i < j < |b.events| ==> Less(b.events[i].pos, b.events[j].pos))
    && forall i :: 0 <= i < |b.events| ==>
         var e := b.events[i];
         && MaySee(t, local, e.pos) && t.events[e.pos].conversation == b.conversation
         && e.trust == Stricter(t.modes[b.conversation], t.events[e.pos].content.value.mode)
         && (e.omitted ==> e.text == "")
         && (!e.omitted ==> e.text == t.events[e.pos].content.value.text && |e.text| <= bounds.maxEventChars)
  }

  /** The cursor a main batch moves to is its last event. */
  predicate EndsAtItsLast(b: Batch) {
    b.events != [] && b.next == b.events[|b.events| - 1].pos
  }

  lemma EligibleMaySee(t: Tables, local: bool, p: Pos)
    ensures Eligible(t, local, p) <==> MaySee(t, local, p)
  {
  }

  lemma RowsAreOrdered(t: Tables, q: set<Pos>, n: nat)
    requires q != {} && forall p :: p in q ==> p in t.events
    ensures var rows := BatchRows(t, q, n);
            && |rows| <= n
            && (forall p :: p in rows ==> p in q && t.events[p].conversation == t.events[Least(q)].conversation)
            && forall i, j :: 0 <= i < j < |rows| ==> Less(rows[i], rows[j])
  {
    var s, rows := Ordered(q), BatchRows(t, q, n);
    PrefixStaysInConversation(t, s, t.events[Least(q)].conversation);
    assert rows <= s;
    forall i, j | 0 <= i < j < |rows| ensures Less(rows[i], rows[j]) {
      OrderedIsIncreasing(q, i, j);
    }
    forall p | p in rows ensures p in q && t.events[p].conversation == t.events[Least(q)].conversation {
      var i :| 0 <= i < |rows| && rows[i] == p;
      assert s[i] == p && p in SameConversation(t, s, t.events[Least(q)].conversation);
    }
  }

  lemma BatchIsPresentable(t: Tables, local: bool, token: Token, q: set<Pos>, bounds: Bounds, next: Pos)
    requires q != {} && bounds.maxEvents > 0 && forall p :: p in q ==> Eligible(t, local, p)
    ensures forall p :: p in q ==> HasContent(t, p)
    ensures Presentable(t, local, bounds, BatchOf(t, token, q, bounds, next))
    ensures (forall p :: p in q ==> p in t.events)
            && var rows, b := BatchRows(t, q, bounds.maxEvents), BatchOf(t, token, q, bounds, next);
               rows != [] && |b.events| == |rows| && b.events[|rows| - 1].pos == rows[|rows| - 1]
  {
    assert forall p :: p in q ==> Eligible(t, local, p) && HasContent(t, p) && p in t.events;
    RowsAreOrdered(t, q, bounds.maxEvents);
    RowsSkipNothing(t, q, bounds.maxEvents);
    RowsHaveContent(t, q, bounds.maxEvents);
    RowsArePresentable(t, local, token, BatchRows(t, q, bounds.maxEvents), bounds, t.events[Least(q)].conversation,
                       next);
    BoundedKeepsRows(t, BatchRows(t, q, bounds.maxEvents), bounds.maxEventChars, bounds.maxTotalChars);
  }

  lemma RowsArePresentable(t: Tables, local: bool, token: Token, rows: seq<Pos>, bounds: Bounds, c: ConversationId,
                           next: Pos)
    requires 0 < |rows| <= bounds.maxEvents && AllHaveContent(t, rows)
    requires forall p :: p in rows ==> Eligible(t, local, p) && t.events[p].conversation == c
    requires forall i, j :: 0 <= i < j < |rows| ==> Less(rows[i], rows[j])
    ensures Presentable(t, local, bounds,
                        Batch(token, c, Bounded(t, rows, bounds.maxEventChars, bounds.maxTotalChars), next))
  {
    BoundedKeepsRows(t, rows, bounds.maxEventChars, bounds.maxTotalChars);
    var events := Bounded(t, rows, bounds.maxEventChars, bounds.maxTotalChars);
    forall i | 0 <= i < |events|
      ensures MaySee(t, local, events[i].pos) && events[i].pos == rows[i] && t.events[rows[i]].conversation == c
    {
      assert rows[i] in rows;
      EligibleMaySee(t, local, rows[i]);
    }
  }

  lemma MainBatchIsPresentable(t: Tables, token: Token, local: bool, bounds: Bounds)
    requires t.row.Some? && ClaimMain(t, token, local, bounds).Ok?
    ensures var batch := ClaimMain(t, token, local, bounds).value.1;
            batch.Some? ==> batch.value.token == token && Presentable(t, local, bounds, batch.value)
                            && EndsAtItsLast(batch.value)
  {
    var q := Pending(t, local);
    if q != {} {
      RowsAreOrdered(t, q, bounds.maxEvents);
      var rows := BatchRows(t, q, bounds.maxEvents);
      BatchIsPresentable(t, local, token, q, bounds, rows[|rows| - 1]);
    }
  }

  lemma SideBatchIsPresentable(t: Tables, token: Token, bounds: Bounds)
    ensures var batch := ClaimDeferred(t, token, bounds).1;
            batch.Some? ==> batch.value.token == token && Presentable(t, true, bounds, batch.value)
                            && CursorOf(t) == Some(batch.value.next)
  {
    if CursorOf(t).Some? {
      var cleaned := ClaimDeferred(t, token, bounds).0;
      if LiveDeferred(cleaned) != {} && bounds.maxEvents > 0 {
        BatchIsPresentable(cleaned, true, token, LiveDeferred(cleaned), bounds, CursorOf(t).value);
        SameShowing(t, cleaned, true, bounds,
                    BatchOf(cleaned, token, LiveDeferred(cleaned), bounds, CursorOf(t).value));
      }
    }
  }

  lemma SameShowing(t: Tables, u: Tables, local: bool, bounds: Bounds, b: Batch)
    requires u.events == t.events && u.modes == t.modes && u.recalled == t.recalled
    ensures Presentable(u, local, bounds, b) ==> Presentable(t, local, bounds, b)
  {
    if Presentable(u, local, bounds, b) {
      forall i | 0 <= i < |b.events| ensures MaySee(t, local, b.events[i].pos) {
        assert MaySee(u, local, b.events[i].pos);
      }
    }
  }

  lemma {:induction false} PrefixEndsAtAnother(t: Tables, s: seq<Pos>, c: ConversationId)
    requires forall p :: p in s ==> p in t.events
    ensures var prefix := SameConversation(t, s, c);
            prefix <= s && (|prefix| < |s| ==> t.events[s[|prefix|]].conversation != c)
  {
    if s != [] && t.events[s[0]].conversation == c {
      PrefixEndsAtAnother(t, s[1..], c);
    }
  }

  /** A batch is as long as it may be: it stops short of the limit only where the events end or
      another conversation begins. */
  lemma RowsAreMaximal(t: Tables, q: set<Pos>, n: nat, p: Pos)
    requires q != {} && (forall x :: x in q ==> x in t.events) && p in q && p !in BatchRows(t, q, n)
    ensures var rows := BatchRows(t, q, n);
            |rows| < n ==> exists o :: o in q && o !in rows && AtMost(o, p)
                                       && t.events[o].conversation != t.events[Least(q)].conversation
  {
    var s, c, rows := Ordered(q), t.events[Least(q)].conversation, BatchRows(t, q, n);
    PrefixEndsAtAnother(t, s, c);
    if |rows| < n {
      assert rows == SameConversation(t, s, c);
      var i :| 0 <= i < |s| && s[i] == p;
      assert forall k :: 0 <= k < |rows| ==> rows[k] in rows && rows[k] == s[k];
      var o := s[|rows|];
      if |rows| < i {
        OrderedIsIncreasing(q, |rows|, i);
      }
      forall j | 0 <= j < |rows| ensures rows[j] != o {
        OrderedIsIncreasing(q, j, |rows|);
      }
      assert o in s && o in q && o !in rows;
    }
  }

  /** Nobody is handed what they may not see; an inactive account, or one whose lease another
      worker still holds, hands out nothing. */
  lemma ClaimsShowOnlyWhatIsAllowed(t: Tables, now: int, token: Token, local: bool, bounds: Bounds)
    ensures var r := Claim(t, now, token, local, bounds).1;
            r.Ok? && r.value.Some? ==>
              && t.active && Free(t, now) && r.value.value.token == token
              && Presentable(t, local, bounds, r.value.value)
              && (CursorOf(t) == Some(r.value.value.next) || EndsAtItsLast(r.value.value))
  {
    var held := Held(t, token, now, bounds);
    if t.active && Free(t, now) && ClaimWith(held, token, local, bounds).Ok? {
      SideBatchIsPresentable(held, token, bounds);
      var cleaned := if local then ClaimDeferred(held, token, bounds).0 else held;
      if ClaimMain(cleaned, token, local, bounds).Ok? {
        MainBatchIsPresentable(cleaned, token, local, bounds);
        var batch := ClaimMain(cleaned, token, local, bounds).value.1;
        if batch.Some? {
          SameShowing(t, cleaned, local, bounds, batch.value);
        }
      }
      var early := ClaimDeferred(held, token, bounds).1;
      if early.Some? {
        SameShowing(t, held, true, bounds, early.value);
      }
    }
  }

  /** And whoever may claim is handed something iff there is something for them. */
  lemma ClaimsHandOutExactly(t: Tables, now: int, token: Token, local: bool, bounds: Bounds)
    requires bounds.maxEvents > 0
    ensures var r := Claim(t, now, token, local, bounds).1;
            && r.Ok?
            && (r.value.Some? <==>
                  && t.active && Free(t, now)
                  && ((exists p :: MaySee(t, local, p) && Beyond(CursorOf(t), p))
                      || (local && CursorOf(t).Some? && exists p :: p in t.deferred && MaySee(t, true, p))))
  {
    var held := Held(t, token, now, bounds);
    if local {
      SideClaimHandsOutExactly(held, token, bounds);
      forall p ensures MaySee(held, local, p) <==> MaySee(t, local, p) {
      }
    }
    var cleaned := if local then ClaimDeferred(held, token, bounds).0 else held;
    MainClaimHandsOutExactly(cleaned, token, local, bounds);
    assert forall p :: MaySee(cleaned, local, p) <==> MaySee(t, local, p);
  }

  lemma MainClaimHandsOutExactly(t: Tables, token: Token, local: bool, bounds: Bounds)
    requires t.row.Some? && bounds.maxEvents > 0
    ensures var r := ClaimMain(t, token, local, bounds);
            r.Ok? && (r.value.1.Some? <==> exists p :: MaySee(t, local, p) && Beyond(CursorOf(t), p))
  {
    var q := Pending(t, local);
    forall p ensures p in q <==> MaySee(t, local, p) && Beyond(CursorOf(t), p) {
      EligibleMaySee(t, local, p);
    }
    if q != {} {
      RowsSkipNothing(t, q, bounds.maxEvents);
    }
  }

  lemma SideClaimHandsOutExactly(t: Tables, token: Token, bounds: Bounds)
    requires bounds.maxEvents > 0
    ensures var (after, batch) := ClaimDeferred(t, token, bounds);
            && after == t.(deferred := after.deferred)
            && (batch.Some? <==> CursorOf(t).Some? && exists p :: p in t.deferred && MaySee(t, true, p))
  {
    var cleaned := ClaimDeferred(t, token, bounds).0;
    forall p | CursorOf(t).Some? ensures p in LiveDeferred(cleaned) <==> p in t.deferred && MaySee(t, true, p) {
      EligibleMaySee(t, true, p);
    }
  }

  /** What a remote claim defers: what its batch passes over and only a local model may see. */
  lemma RemoteClaimDefersExactly(t: Tables, now: int, token: Token, bounds: Bounds, b: Batch, p: Pos)
    requires Claim(t, now, token, false, bounds).1 == Ok(Some(b))
    ensures p in Claim(t, now, token, false, bounds).0.deferred <==>
            || p in t.deferred
            || (MaySee(t, true, p) && !MaySee(t, false, p) && Beyond(CursorOf(t), p) && Less(p, b.next))
  {
    var held := Held(t, token, now, bounds);
    assert p in PassedOver(held, b.next) <==>
           MaySee(t, true, p) && !MaySee(t, false, p) && Beyond(CursorOf(t), p) && Less(p, b.next);
  }

  /** What a local claim drops from the side queue: rows whose content nobody may see any more. */
  lemma LocalClaimCleansExactly(t: Tables, now: int, token: Token, bounds: Bounds, p: Pos)
    requires t.active && Free(t, now) && bounds.maxEvents > 0 && CursorOf(t).Some?
    ensures p in Claim(t, now, token, true, bounds).0.deferred <==>
            p in t.deferred && (HasContent(t, p) ==> MaySee(t, true, p))
  {
    var held := Held(t, token, now, bounds);
    ClaimsHandOutExactly(t, now, token, true, bounds);
    assert HasContent(held, p) ==> (Eligible(held, true, p) <==> MaySee(t, true, p));
  }

  // ---- The lease ----

  predicate Leased(t: Tables, lease: Lease) {
    t.row.Some? && t.row.value.lease == Some(lease)
  }

  /** What ends a lease early: its own commit or release, or a change of a mode. A claim may
      take it once it has expired. */
  predicate EndsLease(w: World, lease: Lease, a: Action) {
    match a
    case ClaimBatch(now, _, _, _) => now > lease.expires
    case CommitBatch(_, batch, _) => batch.token == lease.token
    case ReleaseClaim(token) => token == lease.token
    case Switch(c, mode) => SwitchMode(w.t, c, mode) != w.t
    case _ => false
  }

  predicate LeftAlone(w: World, lease: Lease, actions: seq<Action>, valid: Check)
    decreases |actions|
  {
    actions == []
    || (!EndsLease(w, lease, actions[0]) && LeftAlone(Perform(w, actions[0], valid), lease, actions[1..], valid))
  }

  lemma ActionKeepsLease(w: World, lease: Lease, a: Action, valid: Check)
    requires Leased(w.t, lease) && !EndsLease(w, lease, a)
    ensures var u := Perform(w, a, valid); u.t.row == w.t.row && u.issued == w.issued
  {
  }

  /** While a lease lasts nobody else is handed anything, and the cursor stays. */
  lemma {:induction false} LeaseIsExclusive(w: World, lease: Lease, actions: seq<Action>, valid: Check)
    requires Leased(w.t, lease) && LeftAlone(w, lease, actions, valid)
    ensures var u := PerformAll(w, actions, valid); u.t.row == w.t.row && u.issued == w.issued
    decreases |actions|
  {
    if actions != [] {
      ActionKeepsLease(w, lease, actions[0], valid);
      LeaseIsExclusive(Perform(w, actions[0], valid), lease, actions[1..], valid);
    }
  }

  /** So a worker that claimed can commit until its lease expires, unless it ended it. */
  lemma ClaimedCanCommit(w: World, a: Action, b: Batch, actions: seq<Action>, later: int, valid: Check)
    requires a.ClaimBatch? && a.token !in w.used && Claim(w.t, a.now, a.token, a.local, a.bounds).1 == Ok(Some(b))
    requires LeftAlone(Perform(w, a, valid), Lease(a.token, a.now + a.bounds.leaseSecs), actions, valid)
    ensures var u := PerformAll(Perform(w, a, valid), actions, valid);
            && b in u.issued
            && (Commit(u.t, later, b, [], valid).1.Ok? <==> later <= a.now + a.bounds.leaseSecs)
  {
    var claimed, lease := Perform(w, a, valid), Lease(a.token, a.now + a.bounds.leaseSecs);
    ClaimsShowOnlyWhatIsAllowed(w.t, a.now, a.token, a.local, a.bounds);
    var held := Held(w.t, a.token, a.now, a.bounds);
    ClaimKeepsLeaseOfBatch(held, a.token, a.local, a.bounds);
    assert Leased(claimed.t, lease);
    LeaseIsExclusive(claimed, lease, actions, valid);
    var u := PerformAll(claimed, actions, valid);
    CommitIsAcceptedExactly(u.t, later, b, [], valid);
  }

  lemma ClaimKeepsLeaseOfBatch(t: Tables, token: Token, local: bool, bounds: Bounds)
    requires t.row.Some? && ClaimWith(t, token, local, bounds).Ok? && ClaimWith(t, token, local, bounds).value.1.Some?
    ensures ClaimWith(t, token, local, bounds).value.0.row == t.row
  {
  }

  /** A release gives up the lease of its own token and no other; then a claim is free. */
  lemma ReleaseFreesExactly(t: Tables, token: Token, now: int)
    requires t.row.Some? && t.row.value.lease.Some?
    ensures var after := Release(t, token);
            && CursorOf(after) == CursorOf(t) && after == t.(row := after.row)
            && (if t.row.value.lease.value.token == token then Free(after, now) && !Owns(after, token, now)
                else after == t)
  {
  }

  /** A changed mode is set, that of no other conversation; it forgets cursor and lease, so
      that the log is read again from its beginning. */
  lemma SwitchSetsExactly(t: Tables, c: ConversationId, mode: Trust)
    requires c in t.modes
    ensures var after := SwitchMode(t, c, mode);
            && after.modes[c] == mode
            && (forall d :: d in t.modes && d != c ==> d in after.modes && after.modes[d] == t.modes[d])
            && after.modes.Keys == t.modes.Keys && after == t.(modes := after.modes, row := after.row)
            && after.row == if t.modes[c] == mode then t.row else None
  {
  }
}
