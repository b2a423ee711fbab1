// Extraction of memory candidates from one account's event log: a leased cursor
// over a total order, with a side queue for events that only a local model may read
// (personal-secretary-mysql/src/repo/mysql_memory_candidate.rs, mysql_memory.rs).
module MemoryCandidates {
  import opened Wrappers

  type ConversationId = nat
  type Token(==,!new)
  type CandidateId(==,!new)
  type Fingerprint(==,!new)

  /** An event's place in the log: its receive time, then its id in column order. */
  datatype Pos = Pos(at: int, id: nat)

  predicate Less(a: Pos, b: Pos) {
    a.at < b.at || (a.at == b.at && a.id < b.id)
  }

  predicate AtMost(a: Pos, b: Pos) {
    a == b || Less(a, b)
  }

  datatype Trust = Normal | LocalOnly | EnvelopeOnly | NeverLongTerm

  /** An event row joined with its content row; an event may have no content. */
  datatype Event = Event(conversation: ConversationId, content: Option<Content>)

  datatype Content = Content(mode: Trust, text: string)

  datatype Lease = Lease(token: Token, expires: int)

  datatype StateRow = StateRow(cursor: Option<Pos>, lease: Option<Lease>)

  /** The tables, restricted to one account. */
  datatype Tables = Tables(
    active: bool,
    events: map<Pos, Event>,
    modes: map<ConversationId, Trust>,
    recalled: set<Pos>,
    row: Option<StateRow>,
    deferred: set<Pos>,
    candidates: map<CandidateId, Fingerprint>)

  datatype BatchEvent = BatchEvent(pos: Pos, trust: Trust, text: string, omitted: bool)

  datatype Batch = Batch(token: Token, conversation: ConversationId, events: seq<BatchEvent>, next: Pos)

  datatype Candidate = Candidate(id: CandidateId, fingerprint: Fingerprint)

  datatype StoreError = InvalidData | LeaseLost

  /** How much one claim may take, and until when it is held. */
  datatype Bounds = Bounds(maxEvents: nat, maxEventChars: nat, maxTotalChars: nat, leaseSecs: nat)

  // ---- Which events may be extracted ----

  /** The stricter of the conversation's mode and the content's mode. */
  function Stricter(a: Trust, b: Trust): Trust {
    if a == NeverLongTerm || b == NeverLongTerm then NeverLongTerm
    else if a == EnvelopeOnly || b == EnvelopeOnly then EnvelopeOnly
    else if a == LocalOnly || b == LocalOnly then LocalOnly
    else Normal
  }

  predicate HasContent(t: Tables, p: Pos) {
    p in t.events && t.events[p].content.Some? && t.events[p].conversation in t.modes
  }

  function TrustOf(t: Tables, p: Pos): Trust
    requires HasContent(t, p)
  {
    Stricter(t.modes[t.events[p].conversation], t.events[p].content.value.mode)
  }

  predicate Allows(local: bool, trust: Trust) {
    trust == Normal || (local && trust == LocalOnly)
  }

  predicate Eligible(t: Tables, local: bool, p: Pos) {
    HasContent(t, p) && p !in t.recalled && Allows(local, TrustOf(t, p))
  }

  /** The query filters each mode by itself; the stricter one is allowed exactly when both are. */
  lemma BothModesAllowed(local: bool, a: Trust, b: Trust)
    ensures Allows(local, Stricter(a, b)) <==> Allows(local, a) && Allows(local, b)
  {
  }

  predicate Beyond(cursor: Option<Pos>, p: Pos) {
    cursor.None? || Less(cursor.value, p)
  }

  // ---- Ordered queries ----

  lemma LeastExists(q: set<Pos>)
    requires q != {}
    ensures exists m :: m in q && forall x :: x in q ==> AtMost(m, x)
    decreases |q|
  {
    var p :| p in q;
    if q != {p} {
      var rest := q - {p};
      assert q == rest + {p} && rest != {};
      LeastExists(rest);
      var m :| m in rest && forall x :: x in rest ==> AtMost(m, x);
      var least := if AtMost(p, m) then p else m;
      assert least in q && forall x :: x in q ==> AtMost(least, x);
    }
  }

  /** ORDER BY position LIMIT 1. */
  function Least(q: set<Pos>): (m: Pos)
    requires q != {}
    ensures m in q && forall x :: x in q ==> AtMost(m, x)
  {
    LeastExists(q);
    var m :| m in q && forall x :: x in q ==> AtMost(m, x);
    m
  }

  /** ORDER BY position. */
  function Ordered(q: set<Pos>): (s: seq<Pos>)
    ensures |s| == |q| && forall p :: p in s <==> p in q
    decreases |q|
  {
    if q == {} then []
    else
      var m := Least(q);
      [m] + Ordered(q - {m})
  }

  lemma {:induction false} OrderedIsIncreasing(q: set<Pos>, i: nat, j: nat)
    requires i < j < |q|
    ensures Less(Ordered(q)[i], Ordered(q)[j])
    decreases |q|
  {
    var m := Least(q);
    if i > 0 {
      OrderedIsIncreasing(q - {m}, i - 1, j - 1);
    } else {
      assert Ordered(q)[j] == Ordered(q - {m})[j - 1];
      assert Ordered(q - {m})[j - 1] in q - {m};
    }
  }

  /** LIMIT n. */
  function Take(s: seq<Pos>, n: nat): seq<Pos> {
    if |s| <= n then s else s[..n]
  }

  /** The longest prefix whose events all belong to one conversation. */
  function SameConversation(t: Tables, s: seq<Pos>, c: ConversationId): seq<Pos>
    requires forall p :: p in s ==> p in t.events
  {
    if s == [] || t.events[s[0]].conversation != c then [] else [s[0]] + SameConversation(t, s[1..], c)
  }

  /** What a claim takes from a set of events: in order, from the first event on,
      as long as the conversation stays the same, at most n. */
  function BatchRows(t: Tables, q: set<Pos>, n: nat): seq<Pos>
    requires q != {} && forall p :: p in q ==> p in t.events
  {
    Take(SameConversation(t, Ordered(q), t.events[Least(q)].conversation), n)
  }

  // ---- The switch-point form computes the same rows ----

  function OfOthers(t: Tables, q: set<Pos>, c: ConversationId): set<Pos>
    requires forall p :: p in q ==> p in t.events
  {
    set p | p in q && t.events[p].conversation != c
  }

  /** The events of one conversation that precede every event of another one. */
  function BeforeSwitch(t: Tables, q: set<Pos>, c: ConversationId): set<Pos>
    requires forall p :: p in q ==> p in t.events
  {
    var others := OfOthers(t, q, c);
    set p | p in q && t.events[p].conversation == c && (others == {} || Less(p, Least(others)))
  }

  /** Taking away the first event, if it is of the conversation, leaves the switch point alone. */
  lemma FirstBeforeSwitch(t: Tables, q: set<Pos>, c: ConversationId)
    requires q != {} && (forall p :: p in q ==> p in t.events) && t.events[Least(q)].conversation == c
    ensures var m := Least(q);
            && m in BeforeSwitch(t, q, c) && Least(BeforeSwitch(t, q, c)) == m
            && BeforeSwitch(t, q, c) - {m} == BeforeSwitch(t, q - {m}, c)
  {
    var m := Least(q);
    assert OfOthers(t, q, c) == OfOthers(t, q - {m}, c);
    if OfOthers(t, q, c) != {} {
      assert Least(OfOthers(t, q, c)) in q;
    }
    LeastOfUnion(BeforeSwitch(t, q, c), m);
  }

  lemma NothingBeforeSwitch(t: Tables, q: set<Pos>, c: ConversationId)
    requires forall p :: p in q ==> p in t.events
    requires q == {} || t.events[Least(q)].conversation != c
    ensures BeforeSwitch(t, q, c) == {}
  {
    if q != {} {
      assert Least(q) in OfOthers(t, q, c);
    }
  }

  lemma {:induction false} SwitchPointFindsThePrefix(t: Tables, q: set<Pos>, c: ConversationId)
    requires forall p :: p in q ==> p in t.events
    ensures Ordered(BeforeSwitch(t, q, c)) == SameConversation(t, Ordered(q), c)
    decreases |q|
  {
    if q == {} || t.events[Least(q)].conversation != c {
      NothingBeforeSwitch(t, q, c);
    } else {
      FirstBeforeSwitch(t, q, c);
      SwitchPointFindsThePrefix(t, q - {Least(q)}, c);
      assert Ordered(q)[1..] == Ordered(q - {Least(q)});
    }
  }

  lemma LeastOfUnion(q: set<Pos>, m: Pos)
    requires m in q && forall x :: x in q ==> AtMost(m, x)
    ensures Least(q) == m
  {
  }

  lemma {:induction false} PrefixStaysInConversation(t: Tables, s: seq<Pos>, c: ConversationId)
    requires forall p :: p in s ==> p in t.events
    ensures SameConversation(t, s, c) <= s
    ensures forall p :: p in SameConversation(t, s, c) ==> t.events[p].conversation == c
    ensures s != [] && t.events[s[0]].conversation == c ==> SameConversation(t, s, c) != []
  {
    if s != [] && t.events[s[0]].conversation == c {
      PrefixStaysInConversation(t, s[1..], c);
    }
  }

  /** The rows are a prefix of the ordered events: nothing before the last row is skipped. */
  lemma RowsSkipNothing(t: Tables, q: set<Pos>, n: nat)
    requires q != {} && (forall p :: p in q ==> p in t.events) && n > 0
    ensures var rows := BatchRows(t, q, n);
            && rows != [] && (forall p :: p in rows ==> p in q)
            && (forall p :: p in q && AtMost(p, rows[|rows| - 1]) ==> p in rows)
  {
    var s, rows := Ordered(q), BatchRows(t, q, n);
    assert s[0] == Least(q);
    PrefixStaysInConversation(t, s, t.events[Least(q)].conversation);
    assert rows <= s;
    forall p | p in rows ensures p in q {
      var i :| 0 <= i < |rows| && rows[i] == p;
      assert s[i] == p;
    }
    forall p | p in q && AtMost(p, rows[|rows| - 1]) ensures p in rows {
      var i :| 0 <= i < |s| && s[i] == p;
      if i >= |rows| {
        OrderedIsIncreasing(q, |rows| - 1, i);
      } else {
        assert rows[i] == p;
      }
    }
  }

  // ---- Bounded contents ----

  /** SUBSTRING(text, 1, n). */
  function Truncate(text: string, n: nat): string {
    if |text| <= n then text else text[..n]
  }

  function TextOf(t: Tables, p: Pos): string
    requires HasContent(t, p)
  {
    t.events[p].content.value.text
  }

  predicate AllHaveContent(t: Tables, rows: seq<Pos>) {
    forall p :: p in rows ==> HasContent(t, p)
  }

  /** Each row in turn: its whole text while the budget lasts, or nothing of it. */
  function Bounded(t: Tables, rows: seq<Pos>, maxEventChars: nat, remaining: nat): seq<BatchEvent>
    requires AllHaveContent(t, rows)
  {
    if rows == [] then []
    else
      var text := TextOf(t, rows[0]);
      if |text| > maxEventChars || |text| > remaining
      then [BatchEvent(rows[0], TrustOf(t, rows[0]), "", true)] + Bounded(t, rows[1..], maxEventChars, remaining)
      else [BatchEvent(rows[0], TrustOf(t, rows[0]), text, false)]
           + Bounded(t, rows[1..], maxEventChars, remaining - |text|)
  }

  function Positions(events: seq<BatchEvent>): set<Pos> {
    set e | e in events :: e.pos
  }

  function Chars(events: seq<BatchEvent>): nat {
    if events == [] then 0 else |events[0].text| + Chars(events[1..])
  }

  /** The text of row i must be omitted, given what the events before it have used. */
  predicate MustOmit(t: Tables, p: Pos, maxEventChars: nat, used: nat, remaining: nat)
    requires HasContent(t, p)
  {
    |TextOf(t, p)| > maxEventChars || used + |TextOf(t, p)| > remaining
  }

  predicate EventFor(t: Tables, p: Pos, maxEventChars: nat, used: nat, remaining: nat, e: BatchEvent)
    requires HasContent(t, p)
  {
    && e.pos == p && e.trust == TrustOf(t, p)
    && (e.omitted <==> MustOmit(t, p, maxEventChars, used, remaining))
    && e.text == if e.omitted then "" else TextOf(t, p)
  }

  lemma CharsSplit(e: BatchEvent, tail: seq<BatchEvent>, i: nat)
    requires i <= |tail|
    ensures Chars(([e] + tail)[..i + 1]) == |e.text| + Chars(tail[..i])
  {
    assert ([e] + tail)[..i + 1] == [e] + tail[..i];
    assert ([e] + tail[..i])[1..] == tail[..i];
  }

  lemma {:induction false} BoundedFits(t: Tables, rows: seq<Pos>, maxEventChars: nat, remaining: nat)
    requires AllHaveContent(t, rows)
    ensures var events := Bounded(t, rows, maxEventChars, remaining);
            |events| == |rows| && Chars(events) <= remaining
  {
    if rows != [] {
      var text := TextOf(t, rows[0]);
      var omit := |text| > maxEventChars || |text| > remaining;
      BoundedFits(t, rows[1..], maxEventChars, if omit then remaining else remaining - |text|);
    }
  }

  lemma {:induction false} BoundedEvent(t: Tables, rows: seq<Pos>, maxEventChars: nat, remaining: nat, i: nat)
    requires AllHaveContent(t, rows) && i < |rows|
    ensures var events := Bounded(t, rows, maxEventChars, remaining);
            && |events| == |rows| && rows[i] in rows
            && EventFor(t, rows[i], maxEventChars, Chars(events[..i]), remaining, events[i])
  {
    var text := TextOf(t, rows[0]);
    var omit := |text| > maxEventChars || |text| > remaining;
    var rest := if omit then remaining else remaining - |text|;
    var events, tail := Bounded(t, rows, maxEventChars, remaining), Bounded(t, rows[1..], maxEventChars, rest);
    var first := BatchEvent(rows[0], TrustOf(t, rows[0]), if omit then "" else text, omit);
    BoundedFits(t, rows, maxEventChars, remaining);
    assert events == [first] + tail;
    if i > 0 {
      BoundedEvent(t, rows[1..], maxEventChars, rest, i - 1);
      CharsSplit(first, tail, i - 1);
    }
  }

  /** One event per row, in row order and with its trust. A text is omitted iff it exceeds the
      limit for one event or what the events before it leave of the limit for all; otherwise
      it is whole. */
  lemma BoundedKeepsRows(t: Tables, rows: seq<Pos>, maxEventChars: nat, remaining: nat)
    requires AllHaveContent(t, rows)
    ensures var events := Bounded(t, rows, maxEventChars, remaining);
            && |events| == |rows| && Chars(events) <= remaining
            && forall i :: 0 <= i < |rows| ==>
                 rows[i] in rows && EventFor(t, rows[i], maxEventChars, Chars(events[..i]), remaining, events[i])
  {
    var events := Bounded(t, rows, maxEventChars, remaining);
    BoundedFits(t, rows, maxEventChars, remaining);
    forall i | 0 <= i < |rows|
      ensures rows[i] in rows && EventFor(t, rows[i], maxEventChars, Chars(events[..i]), remaining, events[i])
    {
      BoundedEvent(t, rows, maxEventChars, remaining, i);
    }
  }

  lemma BoundedPositions(t: Tables, rows: seq<Pos>, maxEventChars: nat, remaining: nat)
    requires AllHaveContent(t, rows)
    ensures forall p :: p in Positions(Bounded(t, rows, maxEventChars, remaining)) <==> p in rows
  {
    var events := Bounded(t, rows, maxEventChars, remaining);
    BoundedKeepsRows(t, rows, maxEventChars, remaining);
    forall p | p in rows ensures p in Positions(events) {
      var i :| 0 <= i < |rows| && rows[i] == p;
      assert events[i] in events;
    }
  }

  // ---- Claim, commit, release, as transactions on the tables ----

  function CursorOf(t: Tables): Option<Pos> {
    if t.row.Some? then t.row.value.cursor else None
  }

  predicate Free(t: Tables, now: int) {
    t.row.Some? && t.row.value.lease.Some? ==> t.row.value.lease.value.expires < now
  }

  /** Events beyond the cursor that this mode may read. */
  function Pending(t: Tables, local: bool): set<Pos> {
    set p | p in t.events && Eligible(t, local, p) && Beyond(CursorOf(t), p)
  }

  /** Deferred rows that a local model may still read. */
  function LiveDeferred(t: Tables): set<Pos> {
    set p | p in t.deferred && Eligible(t, true, p)
  }

  /** Deferred rows a claim deletes: joined with their event and content, and no longer readable. */
  function DeadDeferred(t: Tables): set<Pos> {
    set p | p in t.deferred && HasContent(t, p) && !Eligible(t, true, p)
  }

  function BatchOf(t: Tables, token: Token, q: set<Pos>, bounds: Bounds, next: Pos): Batch
    requires q != {} && forall p :: p in q ==> HasContent(t, p)
  {
    assert forall p :: p in q ==> HasContent(t, p) && p in t.events;
    var rows := BatchRows(t, q, bounds.maxEvents);
    PrefixStaysInConversation(t, Ordered(q), t.events[Least(q)].conversation);
    Batch(token, t.events[Least(q)].conversation,
          Bounded(t, rows, bounds.maxEventChars, bounds.maxTotalChars), next)
  }

  function Held(t: Tables, token: Token, now: int, bounds: Bounds): Tables {
    t.(row := Some(StateRow(CursorOf(t), Some(Lease(token, now + bounds.leaseSecs)))))
  }

  /** Local-only events a remote batch passes over. */
  function PassedOver(t: Tables, last: Pos): set<Pos> {
    set p | p in t.events && HasContent(t, p) && p !in t.recalled && TrustOf(t, p) == LocalOnly
            && Beyond(CursorOf(t), p) && Less(p, last)
  }

  /** The main path of a claim, the lease already taken. */
  function ClaimMain(t: Tables, token: Token, local: bool, bounds: Bounds): Result<(Tables, Option<Batch>), StoreError>
    requires t.row.Some?
  {
    var q := Pending(t, local);
    if q == {} then Ok((t.(row := Some(t.row.value.(lease := None))), None))
    else
      var rows := BatchRows(t, q, bounds.maxEvents);
      if rows == [] then Err(InvalidData)
      else
        var last := rows[|rows| - 1];
        var after := if local then t else t.(deferred := t.deferred + PassedOver(t, last));
        Ok((after, Some(BatchOf(t, token, q, bounds, last))))
  }

  /** The local path to deferred events; it never moves the cursor, and needs one. */
  function ClaimDeferred(t: Tables, token: Token, bounds: Bounds): (Tables, Option<Batch>) {
    if CursorOf(t).None? then (t, None)
    else
      var cleaned := t.(deferred := t.deferred - DeadDeferred(t));
      var q := LiveDeferred(cleaned);
      (cleaned,
       if q == {} || bounds.maxEvents == 0 then None
       else Some(BatchOf(cleaned, token, q, bounds, CursorOf(t).value)))
  }

  /** Both paths, the lease already taken. */
  function ClaimWith(t: Tables, token: Token, local: bool, bounds: Bounds): Result<(Tables, Option<Batch>), StoreError>
    requires t.row.Some?
  {
    var (cleaned, early) := if local then ClaimDeferred(t, token, bounds) else (t, None);
    if early.Some? then Ok((cleaned, early)) else ClaimMain(cleaned, token, local, bounds)
  }

  /** A failed claim is rolled back as a whole. */
  function Claim(t: Tables, now: int, token: Token, local: bool, bounds: Bounds)
    : (Tables, Result<Option<Batch>, StoreError>)
  {
    if !t.active || !Free(t, now) then (t, Ok(None))
    else match ClaimWith(Held(t, token, now, bounds), token, local, bounds)
      case Ok((after, batch)) => (after, Ok(batch))
      case Err(e) => (t, Err(e))
  }

  /** Inserts what is new by fingerprint; a clash of ids spoils the whole commit. */
  function InsertAll(known: map<CandidateId, Fingerprint>, new_: seq<Candidate>)
    : Result<(map<CandidateId, Fingerprint>, nat), StoreError>
    decreases |new_|
  {
    if new_ == [] then Ok((known, 0))
    else if new_[0].fingerprint in known.Values then InsertAll(known, new_[1..])
    else if new_[0].id in known then Err(InvalidData)
    else match InsertAll(known[new_[0].id := new_[0].fingerprint], new_[1..])
      case Ok((all, n)) => Ok((all, n + 1))
      case Err(e) => Err(e)
  }

  predicate Owns(t: Tables, token: Token, now: int) {
    t.row.Some? && t.row.value.lease.Some?
    && t.row.value.lease.value.token == token && t.row.value.lease.value.expires >= now
  }

  function Commit(t: Tables, now: int, batch: Batch, new_: seq<Candidate>, valid: (Candidate, Batch) -> bool)
    : (Tables, Result<nat, StoreError>)
  {
    if exists c :: c in new_ && !valid(c, batch) then (t, Err(InvalidData))
    else if !Owns(t, batch.token, now) then (t, Err(LeaseLost))
    else match InsertAll(t.candidates, new_)
      case Err(e) => (t, Err(e))
      case Ok((all, n)) =>
        (t.(candidates := all, deferred := t.deferred - Positions(batch.events),
            row := Some(StateRow(Some(batch.next), None))), Ok(n))
  }

  function Release(t: Tables, token: Token): Tables {
    if t.row.Some? && t.row.value.lease.Some? && t.row.value.lease.value.token == token
    then t.(row := Some(t.row.value.(lease := None))) else t
  }

  /** Changing a conversation's mode also forgets the cursor and the lease. */
  function SwitchMode(t: Tables, c: ConversationId, mode: Trust): Tables {
    if c !in t.modes || t.modes[c] == mode then t else t.(modes := t.modes[c := mode], row := None)
  }

  class MySqlMemoryCandidateStore {
    var active: bool
    var events: map<Pos, Event>
    var modes: map<ConversationId, Trust>
    var recalled: set<Pos>
    var row: Option<StateRow>
    var deferred: set<Pos>
    var candidates: map<CandidateId, Fingerprint>

    function Value(): Tables
      reads this
    {
      Tables(active, events, modes, recalled, row, deferred, candidates)
    }

    /** The three queries of a claim: the first event, the switch point, the rows. */
    method SelectRows(q: set<Pos>, maxEvents: nat) returns (rows: seq<Pos>)
      requires q != {} && forall p :: p in q ==> HasContent(Value(), p)
      ensures (forall p :: p in q ==> p in events) && rows == BatchRows(Value(), q, maxEvents)
    {
      assert forall p :: p in q ==> HasContent(Value(), p) && p in events;
      var conversation := events[Least(q)].conversation;
      var others := OfOthers(Value(), q, conversation);
      var bound := if others == {} then None else Some(Least(others));
      var own := set p | p in q && events[p].conversation == conversation && (bound.None? || Less(p, bound.value));
      SwitchPointFindsThePrefix(Value(), q, conversation);
      assert own == BeforeSwitch(Value(), q, conversation);
      rows := Take(Ordered(own), maxEvents);
    }

    method BuildCandidateEvents(rows: seq<Pos>, maxEventChars: nat, maxTotalChars: nat)
      returns (built: seq<BatchEvent>)
      requires AllHaveContent(Value(), rows)
      ensures built == Bounded(Value(), rows, maxEventChars, maxTotalChars)
    {
      var remaining: nat := maxTotalChars;
      built := [];
      var i := 0;
      while i < |rows|
        invariant 0 <= i <= |rows|
        invariant built + Bounded(Value(), rows[i..], maxEventChars, remaining)
                  == Bounded(Value(), rows, maxEventChars, maxTotalChars)
      {
        assert rows[i..][1..] == rows[i + 1..];
        var text := Truncate(TextOf(Value(), rows[i]), maxEventChars + 1);
        var omitted := |text| > maxEventChars || |text| > remaining;
        if omitted {
          text := "";
        } else {
          remaining := remaining - |text|;
        }
        built := built + [BatchEvent(rows[i], TrustOf(Value(), rows[i]), text, omitted)];
        i := i + 1;
      }
    }

    /** The rows of a batch and what they load, unless there is no room for a row. */
    method LoadBatch(ghost t: Tables, q: set<Pos>, token: Token, bounds: Bounds, cursor: Option<Pos>)
      returns (rows: seq<Pos>, batch: Option<Batch>)
      requires t == Value() && q != {} && forall p :: p in q ==> HasContent(t, p)
      ensures (forall p :: p in q ==> p in events) && rows == BatchRows(t, q, bounds.maxEvents)
      ensures rows == [] <==> bounds.maxEvents == 0
      ensures batch == if rows == [] then None
                       else Some(BatchOf(t, token, q, bounds,
                                         if cursor.Some? then cursor.value else rows[|rows| - 1]))
    {
      rows := SelectRows(q, bounds.maxEvents);
      if rows == [] {
        NoRowsOnlyWithoutRoom(Value(), q, bounds.maxEvents);
        return rows, None;
      }
      RowsHaveContent(Value(), q, bounds.maxEvents);
      var built := BuildCandidateEvents(rows, bounds.maxEventChars, bounds.maxTotalChars);
      var next := if cursor.Some? then cursor.value else rows[|rows| - 1];
      batch := Some(Batch(token, events[Least(q)].conversation, built, next));
    }

    method ClaimDeferredBatch(token: Token, bounds: Bounds) returns (batch: Option<Batch>)
      modifies this`deferred
      ensures (Value(), batch) == ClaimDeferred(old(Value()), token, bounds)
    {
      if row.None? || row.value.cursor.None? {
        return None;
      }
      deferred := deferred - DeadDeferred(Value());
      var live := LiveDeferred(Value());
      if live == {} {
        return None;
      }
      assert forall p :: p in live ==> Eligible(Value(), true, p);
      var rows;
      rows, batch := LoadBatch(Value(), live, token, bounds, row.value.cursor);
    }

    method DeferPassedOver(ghost t: Tables, last: Pos)
      requires t == Value()
      modifies this`deferred
      ensures deferred == t.deferred + PassedOver(t, last)
    {
      deferred := deferred + PassedOver(Value(), last);
    }

    method ClaimMainBatch(ghost t: Tables, token: Token, local: bool, bounds: Bounds)
      returns (r: Result<Option<Batch>, StoreError>)
      requires t == Value() && t.row.Some?
      modifies this`row, this`deferred
      ensures match ClaimMain(t, token, local, bounds)
              case Ok((after, batch)) => Value() == after && r == Ok(batch)
              case Err(e) => Value() == t && r == Err(e)
    {
      var q := Pending(Value(), local);
      if q == {} {
        row := Some(row.value.(lease := None));
        return Ok(None);
      }
      PendingHaveContent(t, local);
      var rows, batch := LoadBatch(t, q, token, bounds, None);
      if rows == [] {
        return Err(InvalidData);
      }
      if !local {
        DeferPassedOver(t, rows[|rows| - 1]);
      }
      return Ok(batch);
    }

    method ClaimCandidateBatch(now: int, token: Token, local: bool, bounds: Bounds)
      returns (r: Result<Option<Batch>, StoreError>)
      modifies this
      ensures (Value(), r) == Claim(old(Value()), now, token, local, bounds)
    {
      if !active || (row.Some? && row.value.lease.Some? && row.value.lease.value.expires >= now) {
        return Ok(None);
      }
      var oldRow, oldDeferred := row, deferred;
      row := Some(StateRow(CursorOf(Value()), Some(Lease(token, now + bounds.leaseSecs))));
      r := ClaimHeld(Held(old(Value()), token, now, bounds), token, local, bounds);
      if r.Err? {
        // The transaction is dropped together with the lease and the clean-up.
        row, deferred := oldRow, oldDeferred;
      }
    }

    method ClaimHeld(ghost t: Tables, token: Token, local: bool, bounds: Bounds)
      returns (r: Result<Option<Batch>, StoreError>)
      requires t == Value() && t.row.Some?
      modifies this`row, this`deferred
      ensures match ClaimWith(t, token, local, bounds)
              case Ok((after, batch)) => Value() == after && r == Ok(batch)
              case Err(e) => r == Err(e)
    {
      if local {
        var batch := ClaimDeferredBatch(token, bounds);
        if batch.Some? {
          return Ok(batch);
        }
      }
      r := ClaimMainBatch(Value(), token, local, bounds);
    }

    method CommitCandidates(now: int, batch: Batch, new_: seq<Candidate>, valid: (Candidate, Batch) -> bool)
      returns (r: Result<nat, StoreError>)
      modifies this
      ensures (Value(), r) == Commit(old(Value()), now, batch, new_, valid)
    {
      var i := 0;
      while i < |new_|
        invariant 0 <= i <= |new_|
        invariant forall j :: 0 <= j < i ==> valid(new_[j], batch)
      {
        if !valid(new_[i], batch) {
          return Err(InvalidData);
        }
        i := i + 1;
      }
      if row.None? || row.value.lease.None? || row.value.lease.value.token != batch.token
         || row.value.lease.value.expires < now {
        return Err(LeaseLost);
      }
      var all, inserted := candidates, 0;
      i := 0;
      while i < |new_|
        invariant 0 <= i <= |new_| && Value() == old(Value())
        invariant InsertAll(candidates, new_) ==
                  match InsertAll(all, new_[i..])
                  case Ok((known, n)) => Ok((known, n + inserted))
                  case Err(e) => Err(e)
      {
        assert new_[i..][1..] == new_[i + 1..];
        var candidate := new_[i];
        if candidate.fingerprint !in all.Values {
          if candidate.id in all {
            return Err(InvalidData);
          }
          all := all[candidate.id := candidate.fingerprint];
          inserted := inserted + 1;
        }
        i := i + 1;
      }
      candidates := all;
      deferred := deferred - Positions(batch.events);
      row := Some(StateRow(Some(batch.next), None));
      return Ok(inserted);
    }

    method ReleaseCandidateClaim(token: Token)
      modifies this`row
      ensures Value() == Release(old(Value()), token)
    {
      if row.Some? && row.value.lease.Some? && row.value.lease.value.token == token {
        row := Some(row.value.(lease := None));
      }
    }

    method SetConversationMode(c: ConversationId, mode: Trust)
      modifies this
      ensures Value() == SwitchMode(old(Value()), c, mode)
    {
      if c in modes && modes[c] != mode {
        modes := modes[c := mode];
        row := None;
      }
    }
  }

  lemma PendingHaveContent(t: Tables, local: bool)
    ensures forall p :: p in Pending(t, local) ==> HasContent(t, p)
  {
    forall p | p in Pending(t, local) ensures HasContent(t, p) {
      assert Eligible(t, local, p);
    }
  }

  lemma NoRowsOnlyWithoutRoom(t: Tables, q: set<Pos>, n: nat)
    requires q != {} && (forall p :: p in q ==> p in t.events) && BatchRows(t, q, n) == []
    ensures n == 0
  {
    if n > 0 {
      RowsSkipNothing(t, q, n);
    }
  }

  lemma RowsHaveContent(t: Tables, q: set<Pos>, n: nat)
    requires q != {} && forall p :: p in q ==> HasContent(t, p)
    ensures (forall p :: p in q ==> p in t.events) && AllHaveContent(t, BatchRows(t, q, n))
  {
    assert forall p :: p in q ==> HasContent(t, p) && p in t.events;
    if n > 0 {
      RowsSkipNothing(t, q, n);
    }
  }
}
