// Replies that may arrive before the messages they answer, for one account
// (personal-secretary-mysql/src/repo/mysql_inbound.rs, mysql_reconcile.rs, mysql_recall.rs).
module Replies {
  import opened Wrappers
  import opened Integers

  type MessageId(==,!new)
  type RecallId(==,!new)
  type Conversation(==,!new)
  type Token(==,!new)

  /** The unique key of an event row: the platform's message id, or for a recall a
      key made from its own id. */
  datatype RowId = Message(id: MessageId) | Recall(recall: RecallId)

  datatype Row = Row(conversation: Conversation, replyTo: Option<MessageId>, link: Option<MessageId>)

  datatype Lease = Lease(token: Token, expires: int)

  /** A row of the retry queue. */
  datatype Retry = Retry(lease: Option<Lease>, attempts: U32, nextEligible: Option<int>)

  const NEW_RETRY := Retry(None, 0, None)

  datatype State = State(rows: map<RowId, Row>, queue: map<RowId, Retry>)

  datatype Envelope = Envelope(id: MessageId, conversation: Conversation, replyTo: Option<MessageId>)

  datatype Outcome = Accepted(link: Option<MessageId>) | Duplicate

  // ---- The transactions ----

  /** The stored message with this id, if it belongs to the conversation. */
  function Find(s: State, conversation: Conversation, id: MessageId): Option<MessageId> {
    if Message(id) in s.rows && s.rows[Message(id)].conversation == conversation then Some(id) else None
  }

  predicate Waits(row: Row, conversation: Conversation, parent: MessageId) {
    row.conversation == conversation && row.replyTo == Some(parent) && row.link == None
  }

  /** The rows the update reaches; rows of transactions that commit in between are missed. */
  function Reached(s: State, conversation: Conversation, parent: MessageId, missed: set<RowId>): set<RowId> {
    set c | c in s.rows && Waits(s.rows[c], conversation, parent) && c !in missed
  }

  /** Links every waiting row of the conversation to the parent and, if there was
      one, drops the queue rows of all its linked children. */
  function ResolvePending(s: State, conversation: Conversation, parent: MessageId, missed: set<RowId>): State {
    var reached := Reached(s, conversation, parent, missed);
    if reached == {} then s
    else
      var rows := map c | c in s.rows :: if c in reached then s.rows[c].(link := Some(parent)) else s.rows[c];
      State(rows, map c | c in s.queue && !Done(rows, c, conversation, parent) :: s.queue[c])
  }

  predicate Done(rows: map<RowId, Row>, c: RowId, conversation: Conversation, parent: MessageId) {
    c in rows && rows[c].conversation == conversation && rows[c].replyTo == Some(parent) && rows[c].link.Some?
  }

  /** INSERT IGNORE: an existing row keeps its back-off. */
  function Enqueue(s: State, c: RowId): State {
    if c in s.queue then s else s.(queue := s.queue[c := NEW_RETRY])
  }

  function Lookup(s: State, e: Envelope, visible: bool): Option<MessageId> {
    if e.replyTo.Some? && visible then Find(s, e.conversation, e.replyTo.value) else None
  }

  /** One message. Its look-up of the parent reads a snapshot that may be older than
      the parent's commit. */
  function Process(s: State, e: Envelope, visible: bool, missed: set<RowId>): State {
    if Message(e.id) in s.rows then
      var stored := s.rows[Message(e.id)];
      var resolved := ResolvePending(s, e.conversation, e.id, missed);
      if stored.link.None? && stored.replyTo.Some? then Enqueue(resolved, Message(e.id)) else resolved
    else
      var link := Lookup(s, e, visible);
      var inserted := s.(rows := s.rows[Message(e.id) := Row(e.conversation, e.replyTo, link)]);
      var resolved := ResolvePending(inserted, e.conversation, e.id, missed);
      if link.None? && e.replyTo.Some? then Enqueue(resolved, Message(e.id)) else resolved
  }

  function OutcomeOf(s: State, e: Envelope, visible: bool): Outcome {
    if Message(e.id) in s.rows then Duplicate else Accepted(Lookup(s, e, visible))
  }

  /** After the commit: a second look for the parent, in a transaction of its own. */
  function Heal(s: State, e: Envelope, visible: bool): State {
    var parent := Lookup(s, e, visible);
    if parent.None? then s else ResolvePending(s, e.conversation, parent.value, {})
  }

  /** A recall is an event row that answers the recalled message; it is never queued. */
  function RecordRecall(s: State, r: RecallId, conversation: Conversation, m: MessageId): State {
    if Recall(r) in s.rows then s else s.(rows := s.rows[Recall(r) := Row(conversation, Some(m), None)])
  }

  // ---- The background repair ----

  predicate ClaimableRetry(s: State, c: RowId, now: int) {
    && c in s.queue && c in s.rows && s.rows[c].link.None? && s.rows[c].replyTo.Some?
    && (|| (s.queue[c].lease.None? && (s.queue[c].nextEligible.None? || s.queue[c].nextEligible.value <= now))
        || (s.queue[c].lease.Some? && s.queue[c].lease.value.expires < now))
  }

  function ClaimRetry(s: State, c: RowId, token: Token, expires: int): State
    requires c in s.queue
  {
    s.(queue := s.queue[c := Retry(Some(Lease(token, expires)), s.queue[c].attempts, None)])
  }

  predicate HoldsRetry(s: State, c: RowId, token: Token, now: int) {
    && c in s.queue && s.queue[c].lease.Some?
    && s.queue[c].lease.value.token == token && s.queue[c].lease.value.expires >= now
  }

  function Min(a: nat, b: nat): nat {
    if a <= b then a else b
  }

  /** initial shifted left n times. */
  function Doubled(initial: nat, n: nat): nat {
    if n == 0 then initial else 2 * Doubled(initial, n - 1)
  }

  /** The wait after the given number of attempts: doubled each time, saturating. */
  function Backoff(initial: U64, maximum: U64, attempts: U32): nat {
    Cap(Doubled(initial, Min(if attempts == 0 then 0 else attempts - 1, 63)), maximum)
  }

  /** A claimed row is checked again: cleared if it is linked by now, linked if its
      parent is there, put back with a longer wait otherwise. */
  function ResolveClaimed(s: State, c: RowId, token: Token, now: int, attempts: U32, initial: U64, maximum: U64,
                          visible: bool): (State, bool)
  {
    if !HoldsRetry(s, c, token, now) then (s, false)
    else if c !in s.rows || s.rows[c].link.Some? || s.rows[c].replyTo.None? then (s.(queue := s.queue - {c}), false)
    else
      var row := s.rows[c];
      var parent := if visible then Find(s, row.conversation, row.replyTo.value) else None;
      if parent.Some? then (ResolvePending(s, row.conversation, parent.value, {}), true)
      else
        var next := SaturatingNext(attempts);
        (s.(queue := s.queue[c := Retry(None, next, Some(now + Backoff(initial, maximum, next)))]), false)
  }

  lemma {:induction false} DoubledGrows(initial: nat, m: nat, n: nat)
    requires m <= n
    ensures Doubled(initial, m) <= Doubled(initial, n)
    decreases n
  {
    if m < n {
      DoubledGrows(initial, m, n - 1);
    }
  }

  /** The wait is at least a millisecond, at most the maximum, and never shrinks. */
  lemma BackoffNeverShrinks(initial: U64, maximum: U64, attempts: U32, later: U32)
    requires attempts <= later
    ensures 1 <= Backoff(initial, maximum, attempts) <= Backoff(initial, maximum, later)
    ensures Backoff(initial, maximum, later) <= Min(if maximum < 1 then 1 else maximum, I64_MAX)
  {
    var a := Min(if attempts == 0 then 0 else attempts - 1, 63);
    var b := Min(if later == 0 then 0 else later - 1, 63);
    DoubledGrows(initial, a, b);
    CapGrows(Doubled(initial, a), Doubled(initial, b), maximum);
  }

  /** A wait brought into the representable range and below the maximum. */
  function Cap(wanted: nat, maximum: nat): nat {
    var bounded := Min(maximum, Min(wanted, U64_MAX));
    Min(if bounded < 1 then 1 else bounded, I64_MAX)
  }

  lemma CapGrows(a: nat, b: nat, maximum: nat)
    requires a <= b
    ensures 1 <= Cap(a, maximum) <= Cap(b, maximum) <= Min(if maximum < 1 then 1 else maximum, I64_MAX)
  {
  }

  // ---- The store ----

  class MySqlInboundEventStore {
    var rows: map<RowId, Row>
    var queue: map<RowId, Retry>

    function Value(): State
      reads this
    {
      State(rows, queue)
    }

    method ResolvePendingReplies(conversation: Conversation, parent: MessageId, missed: set<RowId>)
      returns (resolved: nat)
      modifies this
      ensures Value() == ResolvePending(old(Value()), conversation, parent, missed)
      ensures resolved == |Reached(old(Value()), conversation, parent, missed)|
    {
      var reached := Reached(Value(), conversation, parent, missed);
      resolved := |reached|;
      if resolved == 0 {
        return;
      }
      rows := map c | c in rows :: if c in reached then rows[c].(link := Some(parent)) else rows[c];
      queue := map c | c in queue && !Done(rows, c, conversation, parent) :: queue[c];
    }

    method ProcessMessage(e: Envelope, visible: bool, missed: set<RowId>) returns (outcome: Outcome)
      modifies this
      ensures Value() == Process(old(Value()), e, visible, missed)
      ensures outcome == OutcomeOf(old(Value()), e, visible)
    {
      var link := Lookup(Value(), e, visible);
      if Message(e.id) in rows {
        var stored := rows[Message(e.id)];
        var _ := ResolvePendingReplies(e.conversation, e.id, missed);
        if stored.link.None? && stored.replyTo.Some? && Message(e.id) !in queue {
          queue := queue[Message(e.id) := NEW_RETRY];
        }
        return Duplicate;
      }
      rows := rows[Message(e.id) := Row(e.conversation, e.replyTo, link)];
      var _ := ResolvePendingReplies(e.conversation, e.id, missed);
      if link.None? && e.replyTo.Some? && Message(e.id) !in queue {
        queue := queue[Message(e.id) := NEW_RETRY];
      }
      return Accepted(link);
    }

    /** A batch in one transaction, then one healing transaction per reply. */
    method InsertMessagesIfAbsent(batch: seq<Envelope>) returns (outcomes: seq<Outcome>)
      modifies this
      ensures Value() == HealAll(ProcessAll(old(Value()), batch), batch)
      ensures outcomes == OutcomesOf(old(Value()), batch)
    {
      outcomes := ProcessBatch(batch);
      HealBatch(batch);
    }

    method ProcessBatch(batch: seq<Envelope>) returns (outcomes: seq<Outcome>)
      modifies this
      ensures Value() == ProcessAll(old(Value()), batch)
      ensures outcomes == OutcomesOf(old(Value()), batch)
    {
      outcomes := [];
      ghost var before := Value();
      var i := 0;
      while i < |batch|
        invariant 0 <= i <= |batch|
        invariant Value() == ProcessAll(before, batch[..i]) && outcomes == OutcomesOf(before, batch[..i])
      {
        var outcome := ProcessMessage(batch[i], true, {});
        outcomes := outcomes + [outcome];
        ProcessOneMore(before, batch, i);
        i := i + 1;
      }
      assert batch[..i] == batch;
    }

    method HealBatch(batch: seq<Envelope>)
      modifies this
      ensures Value() == HealAll(old(Value()), batch)
    {
      ghost var before := Value();
      var i := 0;
      while i < |batch|
        invariant 0 <= i <= |batch|
        invariant Value() == HealAll(before, batch[..i])
      {
        var parent := Lookup(Value(), batch[i], true);
        if parent.Some? {
          var _ := ResolvePendingReplies(batch[i].conversation, parent.value, {});
        }
        assert batch[..i + 1][..i] == batch[..i];
        i := i + 1;
      }
      assert batch[..i] == batch;
    }

    method ClaimReconcileBatch(now: int, leaseSecs: nat, limit: nat, token: Token) returns (claimed: seq<RowId>)
      modifies this`queue
      ensures |claimed| <= limit
      ensures forall i :: 0 <= i < |claimed| ==> ClaimableRetry(old(Value()), claimed[i], now)
      ensures forall i, j :: 0 <= i < j < |claimed| ==> claimed[i] != claimed[j]
      ensures queue.Keys == old(queue).Keys
      ensures forall c :: c in queue ==>
                queue[c] == if c in claimed
                            then Retry(Some(Lease(token, now + leaseSecs)), old(queue)[c].attempts, None)
                            else old(queue)[c]
      ensures |claimed| < limit ==> forall c :: ClaimableRetry(old(Value()), c, now) ==> c in claimed
    {
      claimed := [];
      var eligible := set c | c in queue && ClaimableRetry(Value(), c, now);
      ghost var all, before := eligible, queue;
      while |claimed| < limit && eligible != {}
        invariant |claimed| <= limit && eligible <= all && queue.Keys == before.Keys
        invariant forall i :: 0 <= i < |claimed| ==> claimed[i] in all && claimed[i] !in eligible
        invariant forall i, j :: 0 <= i < j < |claimed| ==> claimed[i] != claimed[j]
        invariant forall c :: c in all ==> c in eligible || c in claimed
        invariant forall c :: c in before ==>
                    queue[c] == if c in claimed
                                then Retry(Some(Lease(token, now + leaseSecs)), before[c].attempts, None)
                                else before[c]
        decreases eligible
      {
        var c :| c in eligible;
        eligible := eligible - {c};
        queue := queue[c := Retry(Some(Lease(token, now + leaseSecs)), queue[c].attempts, None)];
        claimed := claimed + [c];
      }
    }

    method ResolveClaimedPendingReply(c: RowId, token: Token, now: int, attempts: U32, initial: U64, maximum: U64,
                                      visible: bool) returns (linked: bool)
      modifies this
      ensures (Value(), linked) == ResolveClaimed(old(Value()), c, token, now, attempts, initial, maximum, visible)
    {
      if !HoldsRetry(Value(), c, token, now) {
        return false;
      }
      if c !in rows || rows[c].link.Some? || rows[c].replyTo.None? {
        queue := queue - {c};
        return false;
      }
      var row := rows[c];
      var parent := if visible then Find(Value(), row.conversation, row.replyTo.value) else None;
      if parent.Some? {
        assert c in Reached(Value(), row.conversation, parent.value, {});
        var resolved := ResolvePendingReplies(row.conversation, parent.value, {});
        if resolved > 0 {
          return true;
        }
        assert false;
      }
      var next := SaturatingNext(attempts);
      queue := queue[c := Retry(None, next, Some(now + Backoff(initial, maximum, next)))];
      return false;
    }
  }

  function ProcessAll(s: State, batch: seq<Envelope>): State
    decreases |batch|
  {
    if batch == [] then s
    else
      var n := |batch| - 1;
      Process(ProcessAll(s, batch[..n]), batch[n], true, {})
  }

  /** What each message of a batch is told, given the ones before it. */
  function OutcomesOf(s: State, batch: seq<Envelope>): seq<Outcome>
    decreases |batch|
  {
    if batch == [] then []
    else
      var n := |batch| - 1;
      OutcomesOf(s, batch[..n]) + [OutcomeOf(ProcessAll(s, batch[..n]), batch[n], true)]
  }

  lemma ProcessOneMore(s: State, batch: seq<Envelope>, i: nat)
    requires i < |batch|
    ensures ProcessAll(s, batch[..i + 1]) == Process(ProcessAll(s, batch[..i]), batch[i], true, {})
    ensures OutcomesOf(s, batch[..i + 1])
            == OutcomesOf(s, batch[..i]) + [OutcomeOf(ProcessAll(s, batch[..i]), batch[i], true)]
  {
    assert batch[..i + 1][..i] == batch[..i];
  }

  function HealAll(s: State, batch: seq<Envelope>): State
    decreases |batch|
  {
    if batch == [] then s
    else
      var n := |batch| - 1;
      Heal(HealAll(s, batch[..n]), batch[n], true)
  }
}
