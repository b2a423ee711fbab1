// Where replies end up depends on what was delivered, not on the order
// (personal-secretary-mysql/src/repo/mysql_inbound.rs, mysql_reconcile.rs).
module ReplyTheorems {
  import opened Wrappers
  import opened Integers
  import opened Replies

  datatype Step =
    | Deliver(envelope: Envelope, visible: bool, missed: set<RowId>)
    | HealAfter(envelope: Envelope, visible: bool)
    | Claim(row: RowId, token: Token, expires: int)
    | Resolve(row: RowId, token: Token, now: int, attempts: U32, initial: U64, maximum: U64, visible: bool)
    | StoreRecall(recall: RecallId, conversation: Conversation, message: MessageId)

  function Perform(s: State, step: Step): State {
    match step
    case Deliver(e, visible, missed) => Process(s, e, visible, missed)
    case HealAfter(e, visible) => Heal(s, e, visible)
    case Claim(c, token, expires) => if c in s.queue then ClaimRetry(s, c, token, expires) else s
    case Resolve(c, token, now, attempts, initial, maximum, visible) =>
      ResolveClaimed(s, c, token, now, attempts, initial, maximum, visible).0
    case StoreRecall(r, conversation, m) => RecordRecall(s, r, conversation, m)
  }

  /** What the platform delivers under each message id: one conversation, one reply target. */
  type Book = map<MessageId, Envelope>

  predicate InBook(book: Book, e: Envelope) {
    e.id in book && book[e.id] == e
  }

  predicate Allowed(book: Book, step: Step) {
    match step
    case Deliver(e, _, _) => InBook(book, e)
    case HealAfter(e, _) => InBook(book, e)
    case _ => true
  }

  // ---- The invariant ----

  /** A link leads to a stored message of the same conversation, the one replied to. */
  predicate LinkOk(s: State, c: RowId)
    requires c in s.rows
  {
    s.rows[c].link.Some? ==>
      && s.rows[c].replyTo == s.rows[c].link
      && Find(s, s.rows[c].conversation, s.rows[c].link.value).Some?
  }

  predicate Sound(s: State) {
    forall c :: c in s.rows ==> LinkOk(s, c)
  }

  predicate Unresolved(s: State, c: RowId) {
    c in s.rows && s.rows[c].link.None? && s.rows[c].replyTo.Some?
  }

  /** Every unresolved message waits in the retry queue. */
  predicate Queued(s: State) {
    forall c :: c in s.rows && c.Message? && Unresolved(s, c) ==> c in s.queue
  }

  predicate FromBook(s: State, book: Book) {
    forall c :: c in s.rows && c.Message? ==>
      c.id in book && s.rows[c].conversation == book[c.id].conversation && s.rows[c].replyTo == book[c.id].replyTo
  }

  predicate Inv(s: State, book: Book) {
    Sound(s) && Queued(s) && FromBook(s, book)
  }

  // ---- Linking ----

  lemma ResolveKeepsRows(s: State, conversation: Conversation, parent: MessageId, missed: set<RowId>)
    ensures var t := ResolvePending(s, conversation, parent, missed);
            && t.rows.Keys == s.rows.Keys
            && forall c :: c in s.rows ==>
                 t.rows[c] == if c in Reached(s, conversation, parent, missed)
                              then s.rows[c].(link := Some(parent)) else s.rows[c]
  {
  }

  lemma ResolveKeepsSound(s: State, conversation: Conversation, parent: MessageId, missed: set<RowId>)
    requires Sound(s) && Find(s, conversation, parent).Some?
    ensures Sound(ResolvePending(s, conversation, parent, missed))
  {
    var t := ResolvePending(s, conversation, parent, missed);
    ResolveKeepsRows(s, conversation, parent, missed);
    forall c | c in t.rows ensures LinkOk(t, c) {
      assert LinkOk(s, c);
    }
  }

  /** Only rows that are linked leave the queue. */
  lemma ResolveKeepsQueued(s: State, conversation: Conversation, parent: MessageId, missed: set<RowId>)
    ensures var t := ResolvePending(s, conversation, parent, missed);
            && t.queue.Keys <= s.queue.Keys
            && forall c :: c in s.queue && Unresolved(t, c) ==> c in t.queue && t.queue[c] == s.queue[c]
  {
    ResolveKeepsRows(s, conversation, parent, missed);
  }

  lemma ResolveKeeps(s: State, book: Book, conversation: Conversation, parent: MessageId, missed: set<RowId>)
    requires Inv(s, book) && Find(s, conversation, parent).Some?
    ensures Inv(ResolvePending(s, conversation, parent, missed), book)
  {
    var t := ResolvePending(s, conversation, parent, missed);
    ResolveKeepsRows(s, conversation, parent, missed);
    ResolveKeepsSound(s, conversation, parent, missed);
    ResolveKeepsQueued(s, conversation, parent, missed);
    forall c: RowId | c.Message? && Unresolved(t, c) ensures c in t.queue {
      assert Unresolved(s, c);
    }
  }

  // ---- Deliveries ----

  function Insert(s: State, e: Envelope, visible: bool): State {
    s.(rows := s.rows[Message(e.id) := Row(e.conversation, e.replyTo, Lookup(s, e, visible))])
  }

  lemma InsertKeepsSound(s: State, e: Envelope, visible: bool)
    requires Sound(s) && Message(e.id) !in s.rows
    ensures Sound(Insert(s, e, visible)) && Find(Insert(s, e, visible), e.conversation, e.id).Some?
  {
    var t := Insert(s, e, visible);
    forall c | c in t.rows ensures LinkOk(t, c) {
      if c != Message(e.id) {
        assert LinkOk(s, c);
      }
    }
  }

  lemma NewMessageKeeps(s: State, book: Book, e: Envelope, visible: bool, missed: set<RowId>)
    requires Inv(s, book) && InBook(book, e) && Message(e.id) !in s.rows
    ensures Inv(Process(s, e, visible, missed), book)
  {
    var inserted := Insert(s, e, visible);
    var resolved := ResolvePending(inserted, e.conversation, e.id, missed);
    var t := Process(s, e, visible, missed);
    InsertKeepsSound(s, e, visible);
    ResolveKeepsRows(inserted, e.conversation, e.id, missed);
    ResolveKeepsSound(inserted, e.conversation, e.id, missed);
    ResolveKeepsQueued(inserted, e.conversation, e.id, missed);
    forall c | c in t.rows ensures LinkOk(t, c) {
      assert LinkOk(resolved, c);
    }
    forall c: RowId | c.Message? && Unresolved(t, c) ensures c in t.queue {
      if c != Message(e.id) {
        assert Unresolved(s, c) && Unresolved(resolved, c);
      }
    }
  }

  lemma RepeatedMessageKeeps(s: State, book: Book, e: Envelope, visible: bool, missed: set<RowId>)
    requires Inv(s, book) && InBook(book, e) && Message(e.id) in s.rows
    ensures Inv(Process(s, e, visible, missed), book)
  {
    var resolved := ResolvePending(s, e.conversation, e.id, missed);
    var t := Process(s, e, visible, missed);
    ResolveKeeps(s, book, e.conversation, e.id, missed);
    forall c | c in t.rows ensures LinkOk(t, c) {
      assert LinkOk(resolved, c);
    }
    forall c: RowId | c.Message? && Unresolved(t, c) ensures c in t.queue {
      assert Unresolved(resolved, c);
    }
  }

  lemma StepKeeps(s: State, book: Book, step: Step)
    requires Inv(s, book) && Allowed(book, step)
    ensures Inv(Perform(s, step), book)
  {
    match step
    case Deliver(e, visible, missed) =>
      if Message(e.id) in s.rows {
        RepeatedMessageKeeps(s, book, e, visible, missed);
      } else {
        NewMessageKeeps(s, book, e, visible, missed);
      }
    case HealAfter(e, visible) =>
      if Lookup(s, e, visible).Some? {
        ResolveKeeps(s, book, e.conversation, Lookup(s, e, visible).value, {});
      }
    case Claim(c, token, expires) =>
      QueueDoesNotMatter(s, book, Perform(s, step));
    case Resolve(c, token, now, attempts, initial, maximum, visible) =>
      ClaimedKeeps(s, book, c, token, now, attempts, initial, maximum, visible);
    case StoreRecall(r, conversation, m) =>
      RecallKeeps(s, book, r, conversation, m);
  }

  lemma QueueDoesNotMatter(s: State, book: Book, t: State)
    requires Inv(s, book) && t.rows == s.rows
    requires forall c :: c in s.queue && Unresolved(s, c) ==> c in t.queue
    ensures Inv(t, book)
  {
    forall c | c in t.rows ensures LinkOk(t, c) {
      assert LinkOk(s, c);
    }
    forall c: RowId | c.Message? && Unresolved(t, c) ensures c in t.queue {
      assert Unresolved(s, c);
    }
  }

  lemma ClaimedKeeps(s: State, book: Book, c: RowId, token: Token, now: int, attempts: U32, initial: U64, maximum: U64,
                     visible: bool)
    requires Inv(s, book)
    ensures Inv(ResolveClaimed(s, c, token, now, attempts, initial, maximum, visible).0, book)
  {
    var t := ResolveClaimed(s, c, token, now, attempts, initial, maximum, visible).0;
    if HoldsRetry(s, c, token, now) && Unresolved(s, c) && visible
       && Find(s, s.rows[c].conversation, s.rows[c].replyTo.value).Some? {
      ResolveKeeps(s, book, s.rows[c].conversation, s.rows[c].replyTo.value, {});
    } else {
      QueueDoesNotMatter(s, book, t);
    }
  }

  lemma RecallKeeps(s: State, book: Book, r: RecallId, conversation: Conversation, m: MessageId)
    requires Inv(s, book)
    ensures Inv(RecordRecall(s, r, conversation, m), book)
  {
    var t := RecordRecall(s, r, conversation, m);
    forall c | c in t.rows ensures LinkOk(t, c) {
      if c in s.rows {
        assert LinkOk(s, c);
      }
    }
    forall c: RowId | c.Message? && Unresolved(t, c) ensures c in t.queue {
      assert Unresolved(s, c);
    }
  }

  // ---- Every run ----

  const NO_ROWS := State(map[], map[])

  function PerformAll(s: State, steps: seq<Step>): State
    decreases |steps|
  {
    if steps == [] then s else PerformAll(Perform(s, steps[0]), steps[1..])
  }

  function Messages(s: State): set<MessageId> {
    set c | c in s.rows && c.Message? :: c.id
  }

  function DeliveredIds(steps: seq<Step>): set<MessageId> {
    set i | 0 <= i < |steps| && steps[i].Deliver? :: steps[i].envelope.id
  }

  lemma SameKeysSameMessages(s: State, t: State)
    requires t.rows.Keys == s.rows.Keys
    ensures Messages(t) == Messages(s)
  {
    assert forall m :: m in Messages(s) <==> Message(m) in s.rows;
    assert forall m :: m in Messages(t) <==> Message(m) in t.rows;
  }

  lemma DeliveryStores(s: State, e: Envelope, visible: bool, missed: set<RowId>)
    ensures Process(s, e, visible, missed).rows.Keys == s.rows.Keys + {Message(e.id)}
    ensures Messages(Process(s, e, visible, missed)) == Messages(s) + {e.id}
  {
    ResolveKeepsRows(s, e.conversation, e.id, missed);
    ResolveKeepsRows(Insert(s, e, visible), e.conversation, e.id, missed);
    assert forall m :: m in Messages(s) <==> Message(m) in s.rows;
    var t := Process(s, e, visible, missed);
    assert forall m :: m in Messages(t) <==> Message(m) in t.rows;
  }

  lemma RecallStoresNoMessage(s: State, r: RecallId, conversation: Conversation, m: MessageId)
    ensures Messages(RecordRecall(s, r, conversation, m)) == Messages(s)
  {
    assert forall x :: x in Messages(s) <==> Message(x) in s.rows;
  }

  lemma StepStores(s: State, step: Step)
    ensures Messages(Perform(s, step)) == Messages(s) + if step.Deliver? then {step.envelope.id} else {}
  {
    match step
    case Deliver(e, visible, missed) => DeliveryStores(s, e, visible, missed);
    case HealAfter(e, visible) =>
      if Lookup(s, e, visible).Some? {
        ResolveKeepsRows(s, e.conversation, Lookup(s, e, visible).value, {});
      }
      SameKeysSameMessages(s, Perform(s, step));
    case Claim(_, _, _) => SameKeysSameMessages(s, Perform(s, step));
    case Resolve(c, _, _, _, _, _, _) =>
      if Unresolved(s, c) {
        ResolveKeepsRows(s, s.rows[c].conversation, s.rows[c].replyTo.value, {});
      }
      SameKeysSameMessages(s, Perform(s, step));
    case StoreRecall(r, conversation, m) => RecallStoresNoMessage(s, r, conversation, m);
  }

  /** In every run the stored messages are those delivered, links are sound, and every
      unresolved message is queued for repair. */
  lemma {:induction false} EveryRunIsSound(s: State, book: Book, steps: seq<Step>)
    requires Inv(s, book) && forall i :: 0 <= i < |steps| ==> Allowed(book, steps[i])
    ensures Inv(PerformAll(s, steps), book)
    ensures Messages(PerformAll(s, steps)) == Messages(s) + DeliveredIds(steps)
    decreases |steps|
  {
    if steps != [] {
      StepKeeps(s, book, steps[0]);
      StepStores(s, steps[0]);
      EveryRunIsSound(Perform(s, steps[0]), book, steps[1..]);
      var first := if steps[0].Deliver? then {steps[0].envelope.id} else {};
      assert DeliveredIds(steps) == DeliveredIds(steps[1..]) + first by {
        forall m | m in DeliveredIds(steps[1..]) ensures m in DeliveredIds(steps) {
          var i :| 0 <= i < |steps[1..]| && steps[1..][i].Deliver? && steps[1..][i].envelope.id == m;
          assert steps[i + 1] == steps[1..][i];
        }
        forall m | m in DeliveredIds(steps) ensures m in DeliveredIds(steps[1..]) || m in first {
          var i :| 0 <= i < |steps| && steps[i].Deliver? && steps[i].envelope.id == m;
          assert i > 0 ==> steps[1..][i - 1] == steps[i];
        }
      }
    }
  }

  // ---- One repair pass settles everything ----

  /** An unresolved message whose parent is there. */
  predicate Repairable(s: State, c: RowId) {
    c.Message? && Unresolved(s, c) && Find(s, s.rows[c].conversation, s.rows[c].replyTo.value).Some?
  }

  /** The worker's claim of one queue row followed by its resolution. */
  function RepairOne(s: State, c: RowId, token: Token, now: int, expires: int,
                      initial: U64, maximum: U64): State
    requires now <= expires
  {
    if ClaimableRetry(s, c, now)
    then ResolveClaimed(ClaimRetry(s, c, token, expires), c, token, now, s.queue[c].attempts, initial, maximum, true).0
    else s
  }

  function RepairPass(s: State, cs: seq<RowId>, token: Token, now: int, expires: int,
                      initial: U64, maximum: U64): State
    requires now <= expires
    decreases |cs|
  {
    if cs == [] then s
    else
      RepairPass(RepairOne(s, cs[0], token, now, expires, initial, maximum), cs[1..],
                 token, now, expires, initial, maximum)
  }

  lemma RepairOneMakesProgress(s: State, book: Book, c: RowId, token: Token, now: int, expires: int,
                               initial: U64, maximum: U64)
    requires Inv(s, book) && now <= expires
    ensures var t := RepairOne(s, c, token, now, expires, initial, maximum);
            && Inv(t, book) && Messages(t) == Messages(s)
            && (Repairable(s, c) && ClaimableRetry(s, c, now) ==> !Repairable(t, c))
            && (forall d :: Repairable(t, d) ==> Repairable(s, d))
            && (forall d :: d != c && Repairable(t, d) && ClaimableRetry(s, d, now) ==> ClaimableRetry(t, d, now))
  {
    if ClaimableRetry(s, c, now) {
      var claimed := ClaimRetry(s, c, token, expires);
      var t := RepairOne(s, c, token, now, expires, initial, maximum);
      StepKeeps(s, book, Claim(c, token, expires));
      StepKeeps(claimed, book, Resolve(c, token, now, s.queue[c].attempts, initial, maximum, true));
      StepStores(s, Claim(c, token, expires));
      StepStores(claimed, Resolve(c, token, now, s.queue[c].attempts, initial, maximum, true));
      var row := s.rows[c];
      if Find(claimed, row.conversation, row.replyTo.value).Some? {
        ResolveKeepsRows(claimed, row.conversation, row.replyTo.value, {});
        ResolveKeepsQueued(claimed, row.conversation, row.replyTo.value, {});
        assert c in Reached(claimed, row.conversation, row.replyTo.value, {});
        forall d | Repairable(t, d) ensures Repairable(s, d) {
        }
        forall d | d != c && Repairable(t, d) && ClaimableRetry(s, d, now) ensures ClaimableRetry(t, d, now) {
          assert d in claimed.queue && Unresolved(t, d);
        }
      }
    }
  }

  /** A pass over the queue, in any order, links every message whose parent is stored. */
  lemma {:induction false} RepairPassSettles(s: State, book: Book, cs: seq<RowId>, token: Token, now: int, expires: int,
                                             initial: U64, maximum: U64)
    requires Inv(s, book) && now <= expires
    requires forall c :: Repairable(s, c) ==> c in cs && ClaimableRetry(s, c, now)
    ensures var t := RepairPass(s, cs, token, now, expires, initial, maximum);
            Inv(t, book) && Messages(t) == Messages(s) && forall c :: !Repairable(t, c)
    decreases |cs|
  {
    if cs != [] {
      var t := RepairOne(s, cs[0], token, now, expires, initial, maximum);
      RepairOneMakesProgress(s, book, cs[0], token, now, expires, initial, maximum);
      forall c | Repairable(t, c) ensures c in cs[1..] && ClaimableRetry(t, c, now) {
        assert c != cs[0];
      }
      RepairPassSettles(t, book, cs[1..], token, now, expires, initial, maximum);
    }
  }

  /** Where a settled reply points: to the message it answers, if that one was delivered
      in the same conversation. */
  function Expected(book: Book, delivered: set<MessageId>, m: MessageId): Option<MessageId>
    requires m in book && delivered <= book.Keys
  {
    match book[m].replyTo
    case None => None
    case Some(p) => if p in delivered && book[p].conversation == book[m].conversation then Some(p) else None
  }

  lemma SettledLinksAreExpected(s: State, book: Book, m: MessageId)
    requires Inv(s, book) && (forall c :: !Repairable(s, c)) && Message(m) in s.rows
    ensures Messages(s) <= book.Keys && m in book && s.rows[Message(m)].link == Expected(book, Messages(s), m)
  {
    assert LinkOk(s, Message(m)) && !Repairable(s, Message(m));
    assert forall p :: p in Messages(s) <==> Message(p) in s.rows;
  }

  /** Two runs that delivered the same messages, in whatever order, with whatever
      repetitions, stale look-ups, failed heals and recalls, agree on every reply once
      their queues have been repaired. */
  lemma RepliesConverge(book: Book, one: seq<Step>, two: seq<Step>, cs: seq<RowId>, ds: seq<RowId>,
                        token: Token, now: int, expires: int, initial: U64, maximum: U64, m: MessageId)
    requires now <= expires && DeliveredIds(one) == DeliveredIds(two)
    requires forall i :: 0 <= i < |one| ==> Allowed(book, one[i])
    requires forall i :: 0 <= i < |two| ==> Allowed(book, two[i])
    requires var s := PerformAll(NO_ROWS, one);
             forall c :: Repairable(s, c) ==> c in cs && ClaimableRetry(s, c, now)
    requires var s := PerformAll(NO_ROWS, two);
             forall c :: Repairable(s, c) ==> c in ds && ClaimableRetry(s, c, now)
    requires m in DeliveredIds(one)
    ensures DeliveredIds(one) <= book.Keys
    ensures var s := RepairPass(PerformAll(NO_ROWS, one), cs, token, now, expires, initial, maximum);
            var t := RepairPass(PerformAll(NO_ROWS, two), ds, token, now, expires, initial, maximum);
            && Message(m) in s.rows && Message(m) in t.rows
            && s.rows[Message(m)].link == t.rows[Message(m)].link == Expected(book, DeliveredIds(one), m)
  {
    DeliveredOnceRepaired(book, one, cs, token, now, expires, initial, maximum, m);
    DeliveredOnceRepaired(book, two, ds, token, now, expires, initial, maximum, m);
  }

  lemma DeliveredOnceRepaired(book: Book, steps: seq<Step>, cs: seq<RowId>, token: Token, now: int, expires: int,
                              initial: U64, maximum: U64, m: MessageId)
    requires now <= expires && forall i :: 0 <= i < |steps| ==> Allowed(book, steps[i])
    requires var s := PerformAll(NO_ROWS, steps);
             forall c :: Repairable(s, c) ==> c in cs && ClaimableRetry(s, c, now)
    requires m in DeliveredIds(steps)
    ensures DeliveredIds(steps) <= book.Keys
    ensures var s := RepairPass(PerformAll(NO_ROWS, steps), cs, token, now, expires, initial, maximum);
            Message(m) in s.rows && s.rows[Message(m)].link == Expected(book, DeliveredIds(steps), m)
  {
    var begin := NO_ROWS;
    EveryRunIsSound(begin, book, steps);
    assert Messages(begin) == {};
    RepairPassSettles(PerformAll(begin, steps), book, cs, token, now, expires, initial, maximum);
    var s := RepairPass(PerformAll(begin, steps), cs, token, now, expires, initial, maximum);
    assert m in Messages(s);
    SettledLinksAreExpected(s, book, m);
  }

  // ---- Where order and conversation do matter ----

  /** A delivery leaves links sound exactly if it is not a repetition of a message
      stored in another conversation while replies wait for it in this one: the update
      trusts the envelope's conversation, the stored row has another. */
  lemma DeliveryKeepsSoundExactly(s: State, e: Envelope, visible: bool, missed: set<RowId>)
    requires Sound(s)
    ensures Sound(Process(s, e, visible, missed)) <==>
            !(&& Message(e.id) in s.rows && s.rows[Message(e.id)].conversation != e.conversation
              && Reached(s, e.conversation, e.id, missed) != {})
  {
    var t := Process(s, e, visible, missed);
    if Message(e.id) !in s.rows {
      InsertKeepsSound(s, e, visible);
      var inserted := Insert(s, e, visible);
      ResolveKeepsSound(inserted, e.conversation, e.id, missed);
      SameRowsSameSound(ResolvePending(inserted, e.conversation, e.id, missed), t);
    } else {
      var resolved := ResolvePending(s, e.conversation, e.id, missed);
      ResolveKeepsRows(s, e.conversation, e.id, missed);
      SameRowsSameSound(resolved, t);
      if s.rows[Message(e.id)].conversation == e.conversation {
        ResolveKeepsSound(s, e.conversation, e.id, missed);
      } else if c :| c in Reached(s, e.conversation, e.id, missed) {
        assert !LinkOk(resolved, c);
      }
    }
  }

  lemma SameRowsSameSound(s: State, t: State)
    requires t.rows == s.rows
    ensures Sound(s) <==> Sound(t)
  {
    forall c | c in s.rows ensures LinkOk(s, c) <==> LinkOk(t, c) {
    }
  }

  /** It does happen: a reply waits in one conversation, a message of that id comes in
      another, and its repetition under the first links the two. */
  lemma RepetitionCrossesConversations(child: Envelope, parent: Envelope, again: Envelope)
    requires child.id != parent.id && child.replyTo == Some(parent.id)
             && again == parent.(conversation := child.conversation)
    requires parent.conversation != child.conversation
    ensures var s := PerformAll(NO_ROWS, [Deliver(child, true, {}), Deliver(parent, true, {})]);
            Sound(s) && !Sound(Perform(s, Deliver(again, true, {})))
  {
    var waiting := Process(NO_ROWS, child, true, {});
    var s := Process(waiting, parent, true, {});
    var steps := [Deliver(child, true, {}), Deliver(parent, true, {})];
    assert steps[1..] == [Deliver(parent, true, {})];
    assert PerformAll(NO_ROWS, steps) == PerformAll(waiting, [Deliver(parent, true, {})]) == s;
    DeliveryKeepsSoundExactly(NO_ROWS, child, true, {});
    DeliveryKeepsSoundExactly(waiting, parent, true, {});
    ResolveKeepsRows(Insert(NO_ROWS, child, true), child.conversation, child.id, {});
    ResolveKeepsRows(Insert(waiting, parent, true), parent.conversation, parent.id, {});
    assert Message(child.id) in Reached(s, again.conversation, again.id, {});
    DeliveryKeepsSoundExactly(s, again, true, {});
  }

  // ---- The row of a recall ----

  /** The step runs the update that links what waits for m in the conversation, and the
      update reaches row c. */
  predicate Sweeps(s: State, step: Step, conversation: Conversation, m: MessageId, c: RowId) {
    match step
    case Deliver(e, _, missed) => e.id == m && e.conversation == conversation && c !in missed
    case HealAfter(e, visible) => e.conversation == conversation && Lookup(s, e, visible) == Some(m)
    case Resolve(d, token, now, _, _, _, visible) =>
      && HoldsRetry(s, d, token, now) && Unresolved(s, d) && visible
      && s.rows[d].conversation == conversation && s.rows[d].replyTo == Some(m) && Find(s, conversation, m).Some?
    case _ => false
  }

  ghost predicate SweptBy(s: State, steps: seq<Step>, conversation: Conversation, m: MessageId, c: RowId) {
    exists i :: 0 <= i < |steps| && Sweeps(PerformAll(s, steps[..i]), steps[i], conversation, m, c)
  }

  lemma SweptNowOrLater(s: State, steps: seq<Step>, conversation: Conversation, m: MessageId, c: RowId)
    requires steps != []
    ensures SweptBy(s, steps, conversation, m, c) <==>
            Sweeps(s, steps[0], conversation, m, c) || SweptBy(Perform(s, steps[0]), steps[1..], conversation, m, c)
  {
    var next, rest := Perform(s, steps[0]), steps[1..];
    assert PerformAll(s, steps[..0]) == s;
    forall i | 0 < i < |steps|
      ensures PerformAll(s, steps[..i]) == PerformAll(next, rest[..i - 1]) && steps[i] == rest[i - 1]
    {
      assert steps[..i][1..] == rest[..i - 1];
    }
    if i :| 0 <= i < |rest| && Sweeps(PerformAll(next, rest[..i]), rest[i], conversation, m, c) {
      assert Sweeps(PerformAll(s, steps[..i + 1]), steps[i + 1], conversation, m, c);
    }
  }

  /** A row changes only when it waits and is swept. */
  lemma StepSweeps(s: State, step: Step, c: RowId)
    requires c in s.rows
    ensures c in Perform(s, step).rows
    ensures Perform(s, step).rows[c]
            == if Unresolved(s, c) && Sweeps(s, step, s.rows[c].conversation, s.rows[c].replyTo.value, c)
               then s.rows[c].(link := s.rows[c].replyTo) else s.rows[c]
  {
    match step
    case Deliver(e, visible, missed) =>
      if Message(e.id) in s.rows {
        ResolveKeepsRows(s, e.conversation, e.id, missed);
      } else {
        ResolveKeepsRows(Insert(s, e, visible), e.conversation, e.id, missed);
      }
    case HealAfter(e, visible) =>
      if Lookup(s, e, visible).Some? {
        ResolveKeepsRows(s, e.conversation, Lookup(s, e, visible).value, {});
      }
    case Resolve(d, _, _, _, _, _, _) =>
      if Unresolved(s, d) {
        ResolveKeepsRows(s, s.rows[d].conversation, s.rows[d].replyTo.value, {});
      }
    case _ =>
  }

  lemma {:induction false} RunKeepsLink(s: State, steps: seq<Step>, c: RowId)
    requires c in s.rows && s.rows[c].link.Some?
    ensures c in PerformAll(s, steps).rows && PerformAll(s, steps).rows[c] == s.rows[c]
    decreases |steps|
  {
    if steps != [] {
      StepSweeps(s, steps[0], c);
      RunKeepsLink(Perform(s, steps[0]), steps[1..], c);
    }
  }

  /** Over any run a waiting row is linked to what it waits for iff some step sweeps it. */
  lemma {:induction false} WaitingIsLinkedOnceSwept(s: State, steps: seq<Step>, c: RowId)
    requires Unresolved(s, c)
    ensures var row := s.rows[c];
            && c in PerformAll(s, steps).rows
            && PerformAll(s, steps).rows[c]
               == if SweptBy(s, steps, row.conversation, row.replyTo.value, c) then row.(link := row.replyTo) else row
    decreases |steps|
  {
    if steps != [] {
      var row, next := s.rows[c], Perform(s, steps[0]);
      StepSweeps(s, steps[0], c);
      SweptNowOrLater(s, steps, row.conversation, row.replyTo.value, c);
      if Sweeps(s, steps[0], row.conversation, row.replyTo.value, c) {
        RunKeepsLink(next, steps[1..], c);
      } else {
        WaitingIsLinkedOnceSwept(next, steps[1..], c);
      }
    }
  }

  /** The row of a recall is linked iff, after the recall was recorded, some step linked
      what waits for the recalled message: a first or repeated delivery of it, a heal, or
      the repair of a sibling. What happened before the recall does not matter; the update
      has no filter on the kind of row, and recalls are neither looked up nor queued. */
  lemma RecallIsLinkedExactlyIfSweptLater(s: State, r: RecallId, conversation: Conversation, m: MessageId,
                                          later: seq<Step>)
    requires Recall(r) !in s.rows
    ensures var recalled := Perform(s, StoreRecall(r, conversation, m));
            var t := PerformAll(recalled, later);
            && Recall(r) in t.rows
            && t.rows[Recall(r)].link == if SweptBy(recalled, later, conversation, m, Recall(r)) then Some(m) else None
  {
    WaitingIsLinkedOnceSwept(Perform(s, StoreRecall(r, conversation, m)), later, Recall(r));
  }

  predicate HasLink(s: State, c: RowId, link: Option<MessageId>) {
    c in s.rows && s.rows[c].link == link
  }

  lemma TwoSteps(s: State, a: Step, b: Step)
    ensures PerformAll(s, [a, b]) == Perform(Perform(s, a), b)
  {
    assert [a, b][1..] == [b] && [b][1..] == [];
    assert PerformAll(Perform(s, a), [b]) == PerformAll(Perform(Perform(s, a), b), []);
  }

  lemma DeliveryStoresNoRecall(s: State, e: Envelope, r: RecallId)
    requires Recall(r) !in s.rows
    ensures Recall(r) !in Process(s, e, true, {}).rows
  {
    DeliveryStores(s, e, true, {});
  }

  /** So the order of one delivery and its recall matters, until the delivery is repeated. */
  lemma RecallLinkDependsOnOrder(s: State, e: Envelope, r: RecallId)
    requires Recall(r) !in s.rows
    ensures var deliver, recall := Deliver(e, true, {}), StoreRecall(r, e.conversation, e.id);
            && HasLink(PerformAll(s, [recall, deliver]), Recall(r), Some(e.id))
            && HasLink(PerformAll(s, [deliver, recall]), Recall(r), None)
            && HasLink(PerformAll(Perform(s, deliver), [recall, deliver]), Recall(r), Some(e.id))
  {
    var deliver, recall := Deliver(e, true, {}), StoreRecall(r, e.conversation, e.id);
    DeliveryStoresNoRecall(s, e, r);
    TwoSteps(s, recall, deliver);
    TwoSteps(s, deliver, recall);
    TwoSteps(Perform(s, deliver), recall, deliver);
    StepSweeps(Perform(s, recall), deliver, Recall(r));
    StepSweeps(Perform(Perform(s, deliver), recall), deliver, Recall(r));
  }
}
