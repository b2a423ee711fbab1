// The retry queue of unresolved replies: what is in it, how long its rows wait, and what one
// attempt or one delivery answers
// (personal-secretary-mysql/src/repo/mysql_inbound.rs, mysql_reconcile.rs).
module ReplyQueues {
  import opened Wrappers
  import opened Integers
  import opened Replies
  import opened ReplyTheorems

  // ---- The wait ----

  /** The longest wait. */
  function Ceiling(maximum: U64): nat {
    Min(if maximum < 1 then 1 else maximum, I64_MAX)
  }

  /** The first wait is the initial one; each further attempt doubles it, up to the ceiling and
      to 63 doublings. An initial wait of nothing stays the shortest one. */
  lemma BackoffDoubles(initial: U64, maximum: U64, attempts: U32)
    requires attempts < U32_MAX
    ensures attempts <= 1 ==>
              Backoff(initial, maximum, attempts) == Min(if initial < 1 then 1 else initial, Ceiling(maximum))
    ensures initial == 0 ==> Backoff(initial, maximum, attempts) == 1
    ensures initial > 0 && 1 <= attempts < 64 ==>
              Backoff(initial, maximum, attempts + 1) == Min(2 * Backoff(initial, maximum, attempts), Ceiling(maximum))
    ensures 64 <= attempts ==> Backoff(initial, maximum, attempts + 1) == Backoff(initial, maximum, attempts)
  {
    var n := Min(if attempts == 0 then 0 else attempts - 1, 63);
    DoubledScales(initial, n);
    if initial > 0 && 1 <= attempts < 64 {
      assert Doubled(initial, n + 1) == 2 * Doubled(initial, n);
    }
  }

  lemma {:induction false} DoubledScales(initial: nat, n: nat)
    ensures initial == 0 ==> Doubled(initial, n) == 0
    ensures initial > 0 ==> Doubled(initial, n) > 0
  {
    if n > 0 {
      DoubledScales(initial, n - 1);
    }
  }

  // ---- One attempt ----

  ghost predicate OthersWait(s: State, t: State, c: RowId) {
    && (forall d :: d != c ==> (d in t.queue <==> d in s.queue))
    && (forall d :: d != c && d in s.queue ==> t.queue[d] == s.queue[d])
  }

  /** What an attempt on a claimed row does. Without a valid lease nothing; a row with nothing
      to resolve leaves the queue; one whose parent is there is linked to it and leaves the
      queue; any other is put back and becomes claimable exactly when its longer wait is over. */
  lemma AttemptsExactly(s: State, c: RowId, token: Token, now: int, attempts: U32, initial: U64, maximum: U64,
                        visible: bool, later: int)
    ensures var (t, linked) := ResolveClaimed(s, c, token, now, attempts, initial, maximum, visible);
            && (!HoldsRetry(s, c, token, now) ==> t == s && !linked)
            && (HoldsRetry(s, c, token, now) && !Unresolved(s, c) ==>
                  t.rows == s.rows && !linked && c !in t.queue && OthersWait(s, t, c))
            && (HoldsRetry(s, c, token, now) && Unresolved(s, c) ==>
                  var row, parent := s.rows[c], Message(s.rows[c].replyTo.value);
                  && (linked <==> visible && parent in s.rows && s.rows[parent].conversation == row.conversation)
                  && (linked ==> c in t.rows && t.rows[c] == row.(link := row.replyTo) && c !in t.queue)
                  && (!linked ==>
                        && t.rows == s.rows && c in t.queue && OthersWait(s, t, c)
                        && t.queue[c].attempts == SaturatingNext(attempts)
                        && (ClaimableRetry(t, c, later) <==>
                              now + Backoff(initial, maximum, SaturatingNext(attempts)) <= later)))
  {
    if HoldsRetry(s, c, token, now) && Unresolved(s, c) {
      var row := s.rows[c];
      assert c in Reached(s, row.conversation, row.replyTo.value, {});
      ResolveKeepsRows(s, row.conversation, row.replyTo.value, {});
    }
  }

  /** A claim holds exactly until its lease runs out, keeps the attempts, and leaves the other
      rows alone. */
  lemma ClaimLastsExactly(s: State, c: RowId, token: Token, expires: int, later: int)
    requires c in s.queue
    ensures var t := ClaimRetry(s, c, token, expires);
            && t.rows == s.rows && c in t.queue && OthersWait(s, t, c) && t.queue[c].attempts == s.queue[c].attempts
            && (HoldsRetry(t, c, token, later) <==> later <= expires)
            && (ClaimableRetry(t, c, later) <==> Unresolved(s, c) && expires < later)
  {
  }

  // ---- What is in the queue ----

  /** A message that answers itself, which only a malformed delivery does. */
  predicate AnswersItself(s: State, c: RowId) {
    c.Message? && c in s.rows && s.rows[c].replyTo == Some(c.id)
  }

  /** The queue holds unresolved messages only. */
  predicate OnlyUnresolved(s: State) {
    forall c :: c in s.queue ==> c.Message? && c in s.rows && (Unresolved(s, c) || AnswersItself(s, c))
  }

  lemma ResolveKeepsOnly(s: State, conversation: Conversation, parent: MessageId, missed: set<RowId>)
    requires OnlyUnresolved(s)
    ensures OnlyUnresolved(ResolvePending(s, conversation, parent, missed))
  {
    var t := ResolvePending(s, conversation, parent, missed);
    ResolveKeepsRows(s, conversation, parent, missed);
    forall c | c in t.queue ensures c.Message? && c in t.rows && (Unresolved(t, c) || AnswersItself(t, c)) {
      assert c in s.queue;
      if c in Reached(s, conversation, parent, missed) {
        assert Done(t.rows, c, conversation, parent);
      }
    }
  }

  lemma DeliveryKeepsOnly(s: State, e: Envelope, visible: bool, missed: set<RowId>)
    requires OnlyUnresolved(s)
    ensures OnlyUnresolved(Process(s, e, visible, missed))
  {
    var t, c := Process(s, e, visible, missed), Message(e.id);
    if c in s.rows {
      var resolved := ResolvePending(s, e.conversation, e.id, missed);
      ResolveKeepsOnly(s, e.conversation, e.id, missed);
      ResolveKeepsRows(s, e.conversation, e.id, missed);
      forall d | d in t.queue ensures d.Message? && d in t.rows && (Unresolved(t, d) || AnswersItself(t, d)) {
        assert d == c || d in resolved.queue;
      }
    } else {
      var inserted := Insert(s, e, visible);
      var resolved := ResolvePending(inserted, e.conversation, e.id, missed);
      assert OnlyUnresolved(inserted) by {
        forall d | d in inserted.queue
          ensures d.Message? && d in inserted.rows && (Unresolved(inserted, d) || AnswersItself(inserted, d))
        {
          assert d in s.queue && d != c;
        }
      }
      ResolveKeepsOnly(inserted, e.conversation, e.id, missed);
      ResolveKeepsRows(inserted, e.conversation, e.id, missed);
      forall d | d in t.queue ensures d.Message? && d in t.rows && (Unresolved(t, d) || AnswersItself(t, d)) {
        assert d == c || d in resolved.queue;
      }
    }
  }

  lemma StepKeepsOnly(s: State, step: Step)
    requires OnlyUnresolved(s)
    ensures OnlyUnresolved(Perform(s, step))
  {
    match step
    case Deliver(e, visible, missed) => DeliveryKeepsOnly(s, e, visible, missed);
    case HealAfter(e, visible) =>
      if Lookup(s, e, visible).Some? {
        ResolveKeepsOnly(s, e.conversation, Lookup(s, e, visible).value, {});
      }
    case Resolve(c, _, _, _, _, _, _) =>
      if Unresolved(s, c) {
        ResolveKeepsOnly(s, s.rows[c].conversation, s.rows[c].replyTo.value, {});
      }
    case Claim(_, _, _) =>
    case StoreRecall(_, _, _) =>
  }

  /** In every run from an empty store a message that does not answer itself is in the queue
      iff it is stored and unresolved, and nothing else is in it. */
  lemma QueueIsExact(book: Book, steps: seq<Step>, c: RowId)
    requires forall i :: 0 <= i < |steps| ==> Allowed(book, steps[i])
    ensures var s := PerformAll(NO_ROWS, steps);
            && (c in s.queue ==> c.Message? && c in s.rows)
            && (!AnswersItself(s, c) ==> (c in s.queue <==> c.Message? && Unresolved(s, c)))
  {
    EveryRunIsSound(NO_ROWS, book, steps);
    RunKeepsOnly(NO_ROWS, steps);
  }

  lemma {:induction false} RunKeepsOnly(s: State, steps: seq<Step>)
    requires OnlyUnresolved(s)
    ensures OnlyUnresolved(PerformAll(s, steps))
    decreases |steps|
  {
    if steps != [] {
      StepKeepsOnly(s, steps[0]);
      RunKeepsOnly(Perform(s, steps[0]), steps[1..]);
    }
  }

  /** The step is about this very row of the queue. */
  predicate Handles(step: Step, c: RowId) {
    (step.Claim? && step.row == c) || (step.Resolve? && step.row == c)
  }

  lemma StepKeepsRetry(s: State, step: Step, c: RowId)
    requires c in s.queue && Unresolved(s, c) && !Handles(step, c) && Unresolved(Perform(s, step), c)
    ensures c in Perform(s, step).queue && Perform(s, step).queue[c] == s.queue[c]
  {
    match step
    case Deliver(e, visible, missed) =>
      if Message(e.id) in s.rows {
        ResolveKeepsRows(s, e.conversation, e.id, missed);
        ResolveKeepsQueued(s, e.conversation, e.id, missed);
      } else {
        ResolveKeepsRows(Insert(s, e, visible), e.conversation, e.id, missed);
        ResolveKeepsQueued(Insert(s, e, visible), e.conversation, e.id, missed);
      }
    case HealAfter(e, visible) =>
      if Lookup(s, e, visible).Some? {
        ResolveKeepsQueued(s, e.conversation, Lookup(s, e, visible).value, {});
      }
    case Resolve(d, _, _, _, _, _, _) =>
      if Unresolved(s, d) {
        ResolveKeepsQueued(s, s.rows[d].conversation, s.rows[d].replyTo.value, {});
      }
    case _ =>
  }

  /** A waiting row keeps its lease, its attempts and its wait through everything that is not
      about it, repeated deliveries of its own message included, as long as it is unresolved. */
  lemma {:induction false} RetriesAreKept(s: State, steps: seq<Step>, c: RowId)
    requires c in s.queue && Unresolved(s, c) && forall i :: 0 <= i < |steps| ==> !Handles(steps[i], c)
    requires Unresolved(PerformAll(s, steps), c)
    ensures c in PerformAll(s, steps).queue && PerformAll(s, steps).queue[c] == s.queue[c]
    decreases |steps|
  {
    if steps != [] {
      var next := Perform(s, steps[0]);
      StepSweeps(s, steps[0], c);
      if next.rows[c].link.Some? {
        RunKeepsLink(next, steps[1..], c);
      }
      StepKeepsRetry(s, steps[0], c);
      assert forall i :: 0 <= i < |steps[1..]| ==> steps[1..][i] == steps[i + 1];
      RetriesAreKept(next, steps[1..], c);
    }
  }

  // ---- What a delivery answers ----

  /** A delivery is answered as a duplicate iff its message was delivered before; the first one
      is answered with the link its row gets, unless it answers itself. */
  lemma AnswersExactly(book: Book, steps: seq<Step>, e: Envelope, visible: bool)
    requires forall i :: 0 <= i < |steps| ==> Allowed(book, steps[i])
    ensures var s := PerformAll(NO_ROWS, steps);
            && (OutcomeOf(s, e, visible) == Duplicate <==> e.id in DeliveredIds(steps))
            && (e.id !in DeliveredIds(steps) && e.replyTo != Some(e.id) ==>
                  && Message(e.id) in Process(s, e, visible, {}).rows
                  && OutcomeOf(s, e, visible) == Accepted(Process(s, e, visible, {}).rows[Message(e.id)].link))
  {
    var s := PerformAll(NO_ROWS, steps);
    EveryRunIsSound(NO_ROWS, book, steps);
    assert Messages(NO_ROWS) == {};
    assert Message(e.id) in s.rows <==> e.id in Messages(s);
    if Message(e.id) !in s.rows {
      ResolveKeepsRows(Insert(s, e, visible), e.conversation, e.id, {});
    }
  }

  function Deliveries(batch: seq<Envelope>): seq<Step> {
    seq(|batch|, i requires 0 <= i < |batch| => Deliver(batch[i], true, {}))
  }

  function Heals(batch: seq<Envelope>): seq<Step> {
    seq(|batch|, i requires 0 <= i < |batch| => HealAfter(batch[i], true))
  }

  lemma {:induction false} RunsCompose(s: State, one: seq<Step>, two: seq<Step>)
    ensures PerformAll(s, one + two) == PerformAll(PerformAll(s, one), two)
    decreases |one|
  {
    if one == [] {
      assert one + two == two;
    } else {
      assert (one + two)[0] == one[0] && (one + two)[1..] == one[1..] + two;
      RunsCompose(Perform(s, one[0]), one[1..], two);
    }
  }

  lemma OneStep(s: State, step: Step)
    ensures PerformAll(s, [step]) == Perform(s, step)
  {
    assert [step][1..] == [];
  }

  lemma {:induction false} DeliveriesAreRuns(s: State, batch: seq<Envelope>)
    ensures ProcessAll(s, batch) == PerformAll(s, Deliveries(batch))
    decreases |batch|
  {
    if batch != [] {
      var n := |batch| - 1;
      DeliveriesAreRuns(s, batch[..n]);
      assert Deliveries(batch) == Deliveries(batch[..n]) + [Deliver(batch[n], true, {})];
      RunsCompose(s, Deliveries(batch[..n]), [Deliver(batch[n], true, {})]);
      OneStep(ProcessAll(s, batch[..n]), Deliver(batch[n], true, {}));
    }
  }

  lemma {:induction false} HealsAreRuns(s: State, batch: seq<Envelope>)
    ensures HealAll(s, batch) == PerformAll(s, Heals(batch))
    decreases |batch|
  {
    if batch != [] {
      var n := |batch| - 1;
      HealsAreRuns(s, batch[..n]);
      assert Heals(batch) == Heals(batch[..n]) + [HealAfter(batch[n], true)];
      RunsCompose(s, Heals(batch[..n]), [HealAfter(batch[n], true)]);
      OneStep(HealAll(s, batch[..n]), HealAfter(batch[n], true));
    }
  }

  /** A batch is a run: its deliveries in order, then a heal of each; so everything said of runs
      holds of batches. */
  lemma BatchIsARun(s: State, batch: seq<Envelope>)
    ensures HealAll(ProcessAll(s, batch), batch) == PerformAll(s, Deliveries(batch) + Heals(batch))
  {
    DeliveriesAreRuns(s, batch);
    HealsAreRuns(ProcessAll(s, batch), batch);
    RunsCompose(s, Deliveries(batch), Heals(batch));
  }

  lemma DeliversItsMessages(batch: seq<Envelope>, i: nat)
    requires i < |batch|
    ensures batch[i].id in DeliveredIds(Deliveries(batch))
  {
    assert Deliveries(batch)[i] == Deliver(batch[i], true, {});
  }

  /** After a batch every reply in it whose parent is stored in its conversation is linked. */
  lemma {:induction false} BatchLinksItsReplies(book: Book, steps: seq<Step>, batch: seq<Envelope>, i: nat)
    requires i < |batch| && batch[i].replyTo.Some?
    requires (forall j :: 0 <= j < |steps| ==> Allowed(book, steps[j])) && forall e :: e in batch ==> InBook(book, e)
    ensures var s := HealAll(ProcessAll(PerformAll(NO_ROWS, steps), batch), batch);
            && Message(batch[i].id) in s.rows
            && (Find(s, batch[i].conversation, batch[i].replyTo.value).Some? ==>
                  s.rows[Message(batch[i].id)].link == batch[i].replyTo)
  {
    var s0, e := PerformAll(NO_ROWS, steps), batch[i];
    BatchIsARun(s0, batch);
    EveryRunIsSound(NO_ROWS, book, steps);
    EveryRunIsSound(s0, book, Deliveries(batch));
    var delivered := PerformAll(s0, Deliveries(batch));
    DeliversItsMessages(batch, i);
    RunsCompose(s0, Deliveries(batch), Heals(batch));
    HealsLink(delivered, book, batch, i);
  }

  /** Heals move no row and each links its own reply. */
  lemma {:induction false} HealsLink(s: State, book: Book, batch: seq<Envelope>, i: nat)
    requires Inv(s, book) && (forall e :: e in batch ==> InBook(book, e)) && i < |batch| && batch[i].replyTo.Some?
    requires Message(batch[i].id) in s.rows
    ensures var t := PerformAll(s, Heals(batch));
            && Message(batch[i].id) in t.rows
            && (Find(t, batch[i].conversation, batch[i].replyTo.value).Some? ==>
                  t.rows[Message(batch[i].id)].link == batch[i].replyTo)
    decreases |batch|
  {
    var e, c := batch[0], Message(batch[i].id);
    var next := Perform(s, HealAfter(e, true));
    assert Heals(batch)[1..] == Heals(batch[1..]);
    StepKeeps(s, book, HealAfter(e, true));
    StepSweeps(s, HealAfter(e, true), c);
    if i > 0 {
      assert batch[1..][i - 1] == batch[i];
      HealsLink(next, book, batch[1..], i - 1);
    } else {
      HealsKeepRows(next, batch[1..]);
      var t := PerformAll(next, Heals(batch[1..]));
      StepKeepsKeys(s, HealAfter(e, true));
      if Find(t, e.conversation, e.replyTo.value).Some? {
        assert Find(s, e.conversation, e.replyTo.value).Some? by {
          StepSweeps(s, HealAfter(e, true), Message(e.replyTo.value));
        }
        assert LinkOk(next, c) && next.rows[c].link == e.replyTo;
        RunKeepsLink(next, Heals(batch[1..]), c);
      }
    }
  }

  lemma StepKeepsKeys(s: State, heal: Step)
    requires heal.HealAfter?
    ensures Perform(s, heal).rows.Keys == s.rows.Keys
  {
  }

  lemma {:induction false} HealsKeepRows(s: State, batch: seq<Envelope>)
    ensures var t := PerformAll(s, Heals(batch));
            t.rows.Keys == s.rows.Keys && forall c :: c in s.rows ==> t.rows[c].conversation == s.rows[c].conversation
    decreases |batch|
  {
    if batch != [] {
      assert Heals(batch)[1..] == Heals(batch[1..]);
      var next := Perform(s, HealAfter(batch[0], true));
      StepKeepsKeys(s, HealAfter(batch[0], true));
      forall c | c in s.rows ensures next.rows[c].conversation == s.rows[c].conversation {
        StepSweeps(s, HealAfter(batch[0], true), c);
      }
      HealsKeepRows(next, batch[1..]);
    }
  }
}
