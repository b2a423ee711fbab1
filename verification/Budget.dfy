// Resource limits of one run (agent-core/src/graph/budget.rs).
module Budgets {
  import opened Wrappers
  import opened Integers

  datatype Limits = Limits(
    maxSteps: NonZeroU32,
    maxLlmCalls: Option<U32>,
    maxToolCalls: Option<U32>,
    maxTokens: Option<U64>)

  datatype Usage = Usage(steps: U32, llmCalls: U32, toolCalls: U32, tokens: U64)

  const NO_USAGE := Usage(0, 0, 0, 0)

  datatype Resource = Steps | LlmCalls | ToolCalls | Tokens

  datatype BudgetError = BudgetExceeded(resource: Resource, limit: U64, attempted: U64)

  /** The calls a node may make on its budget handle; steps are out of its reach. */
  datatype Reservation = LlmCall | ToolCallBatch(count: U32) | TokenCount(tokens: U64)

  function GetOr<T>(o: Option<T>, default: T): T {
    if o.Some? then o.value else default
  }

  function Widen(o: Option<U32>): Option<U64> {
    if o.Some? then Some(o.value) else None
  }

  /** Adds with an overflow check, then compares with the configured limit or,
      without one, with what the counter can hold. */
  function CheckOptionalLimit(resource: Resource, current: U64, delta: U64,
                              configured: Option<U64>, representation: U64): (r: Result<U64, BudgetError>)
    ensures r.Ok? <==> current + delta <= GetOr(configured, representation)
    ensures r.Ok? ==> r.value == current + delta
    ensures r.Err? ==> r.error.resource == resource && r.error.limit == GetOr(configured, representation)
    ensures r.Err? ==> r.error.attempted == if current + delta <= U64_MAX then current + delta else U64_MAX
  {
    if current + delta > U64_MAX then
      Err(BudgetExceeded(resource, GetOr(configured, representation), U64_MAX))
    else
      var attempted: U64 := current + delta;
      var limit := GetOr(configured, representation);
      if attempted > limit then Err(BudgetExceeded(resource, limit, attempted)) else Ok(attempted)
  }

  function Reserve(limits: Limits, usage: Usage, r: Reservation): Result<Usage, BudgetError> {
    match r
    case LlmCall =>
      (match CheckOptionalLimit(LlmCalls, usage.llmCalls, 1, Widen(limits.maxLlmCalls), U32_MAX)
       case Ok(next) => Ok(usage.(llmCalls := next))
       case Err(e) => Err(e))
    case ToolCallBatch(count) =>
      (match CheckOptionalLimit(ToolCalls, usage.toolCalls, count, Widen(limits.maxToolCalls), U32_MAX)
       case Ok(next) => Ok(usage.(toolCalls := next))
       case Err(e) => Err(e))
    case TokenCount(tokens) =>
      (match CheckOptionalLimit(Tokens, usage.tokens, tokens, limits.maxTokens, U64_MAX)
       case Ok(next) => Ok(usage.(tokens := next))
       case Err(e) => Err(e))
  }

  /** A node's calls in order; a refused call leaves the counters alone. */
  function ReserveAll(limits: Limits, usage: Usage, rs: seq<Reservation>): Usage
    decreases |rs|
  {
    if rs == [] then usage
    else match Reserve(limits, usage, rs[0])
      case Ok(next) => ReserveAll(limits, next, rs[1..])
      case Err(_) => ReserveAll(limits, usage, rs[1..])
  }

  function StepLimit(limits: Limits, graphMaxSteps: NonZeroU32): NonZeroU32 {
    if limits.maxSteps < graphMaxSteps then limits.maxSteps else graphMaxSteps
  }

  /** The step number granted together with the counters after the grant. */
  function ReserveStep(limits: Limits, graphMaxSteps: NonZeroU32, usage: Usage): Result<Usage, BudgetError> {
    var limit := StepLimit(limits, graphMaxSteps);
    var attempted := SaturatingNext(usage.steps);
    if attempted > limit then Err(BudgetExceeded(Steps, limit, attempted))
    else Ok(usage.(steps := attempted))
  }

  /** The handle a run and its nodes share. */
  class RunBudgetHandle {
    const limits: Limits
    var usage: Usage

    constructor New(limits: Limits)
      ensures this.limits == limits && usage == NO_USAGE
    {
      this.limits := limits;
      usage := NO_USAGE;
    }

    constructor FromSnapshot(limits: Limits, usage: Usage)
      ensures this.limits == limits && this.usage == usage
    {
      this.limits := limits;
      this.usage := usage;
    }

    method ReserveLlmCall() returns (error: Option<BudgetError>)
      modifies this`usage
      ensures match Reserve(limits, old(usage), LlmCall)
              case Ok(next) => error == None && usage == next
              case Err(e) => error == Some(e) && usage == old(usage)
    {
      var next := CheckOptionalLimit(LlmCalls, usage.llmCalls, 1, Widen(limits.maxLlmCalls), U32_MAX);
      if next.Err? {
        return Some(next.error);
      }
      usage := usage.(llmCalls := next.value);
      return None;
    }

    method ReserveToolCalls(count: U32) returns (error: Option<BudgetError>)
      modifies this`usage
      ensures match Reserve(limits, old(usage), ToolCallBatch(count))
              case Ok(next) => error == None && usage == next
              case Err(e) => error == Some(e) && usage == old(usage)
    {
      var next := CheckOptionalLimit(ToolCalls, usage.toolCalls, count, Widen(limits.maxToolCalls), U32_MAX);
      if next.Err? {
        return Some(next.error);
      }
      usage := usage.(toolCalls := next.value);
      return None;
    }

    method RecordTokens(count: U64) returns (error: Option<BudgetError>)
      modifies this`usage
      ensures match Reserve(limits, old(usage), TokenCount(count))
              case Ok(next) => error == None && usage == next
              case Err(e) => error == Some(e) && usage == old(usage)
    {
      var next := CheckOptionalLimit(Tokens, usage.tokens, count, limits.maxTokens, U64_MAX);
      if next.Err? {
        return Some(next.error);
      }
      usage := usage.(tokens := next.value);
      return None;
    }

    method ReserveRunStep(graphMaxSteps: NonZeroU32) returns (step: Result<NonZeroU32, BudgetError>)
      modifies this`usage
      ensures match ReserveStep(limits, graphMaxSteps, old(usage))
              case Ok(next) => usage == next && step == Ok(next.steps)
              case Err(e) => usage == old(usage) && step == Err(e)
    {
      var limit := StepLimit(limits, graphMaxSteps);
      var attempted := SaturatingNext(usage.steps);
      if attempted > limit {
        return Err(BudgetExceeded(Steps, limit, attempted));
      }
      usage := usage.(steps := attempted);
      return Ok(attempted);
    }

    /** Runs a node's own calls on the handle. */
    method ReserveInOrder(rs: seq<Reservation>)
      modifies this`usage
      ensures usage == ReserveAll(limits, old(usage), rs)
    {
      var i := 0;
      while i < |rs|
        invariant 0 <= i <= |rs|
        invariant ReserveAll(limits, usage, rs[i..]) == ReserveAll(limits, old(usage), rs)
      {
        assert rs[i..][1..] == rs[i + 1..];
        match rs[i] {
          case LlmCall => var _ := ReserveLlmCall();
          case ToolCallBatch(count) => var _ := ReserveToolCalls(count);
          case TokenCount(tokens) => var _ := RecordTokens(tokens);
        }
        i := i + 1;
      }
    }
  }

  // ---- Properties ----

  predicate WithinLimits(limits: Limits, usage: Usage) {
    && usage.steps <= limits.maxSteps
    && usage.llmCalls <= GetOr(Widen(limits.maxLlmCalls), U32_MAX)
    && usage.toolCalls <= GetOr(Widen(limits.maxToolCalls), U32_MAX)
    && usage.tokens <= GetOr(limits.maxTokens, U64_MAX)
  }

  predicate NoLess(before: Usage, after: Usage) {
    && before.steps <= after.steps && before.llmCalls <= after.llmCalls
    && before.toolCalls <= after.toolCalls && before.tokens <= after.tokens
  }

  /** Whatever a node asks of its handle, counters only grow, never pass a limit,
      and the step counter is not touched. */
  lemma {:induction false} NodeCallsStayWithinLimits(limits: Limits, usage: Usage, rs: seq<Reservation>)
    requires WithinLimits(limits, usage)
    ensures WithinLimits(limits, ReserveAll(limits, usage, rs))
    ensures NoLess(usage, ReserveAll(limits, usage, rs))
    ensures ReserveAll(limits, usage, rs).steps == usage.steps
    decreases |rs|
  {
    if rs != [] {
      match Reserve(limits, usage, rs[0])
      case Ok(next) => NodeCallsStayWithinLimits(limits, next, rs[1..]);
      case Err(_) => NodeCallsStayWithinLimits(limits, usage, rs[1..]);
    }
  }

  /** A granted step repeats the previous number exactly when both the counter and
      the limit stand at the top of the 32-bit range; otherwise it is the next one. */
  lemma StepNumbersRepeatOnlyAtTheTop(limits: Limits, graphMaxSteps: NonZeroU32, usage: Usage)
    ensures var r := ReserveStep(limits, graphMaxSteps, usage);
            && (r.Ok? && r.value.steps == usage.steps
                <==> usage.steps == U32_MAX && StepLimit(limits, graphMaxSteps) == U32_MAX)
            && (r.Ok? && usage.steps < U32_MAX ==> r.value.steps == usage.steps + 1)
            && (r.Ok? ==> r.value.steps <= StepLimit(limits, graphMaxSteps))
  {
  }

  // ---- Every counter is a sum ----

  function Counter(usage: Usage, r: Resource): nat {
    match r
    case Steps => usage.steps
    case LlmCalls => usage.llmCalls
    case ToolCalls => usage.toolCalls
    case Tokens => usage.tokens
  }

  /** The configured limit of a resource or, without one, what its counter can hold. */
  function LimitOn(limits: Limits, r: Resource): nat {
    match r
    case Steps => limits.maxSteps
    case LlmCalls => if limits.maxLlmCalls.Some? then limits.maxLlmCalls.value else U32_MAX
    case ToolCalls => if limits.maxToolCalls.Some? then limits.maxToolCalls.value else U32_MAX
    case Tokens => if limits.maxTokens.Some? then limits.maxTokens.value else U64_MAX
  }

  function ResourceOf(q: Reservation): Resource {
    match q
    case LlmCall => LlmCalls
    case ToolCallBatch(_) => ToolCalls
    case TokenCount(_) => Tokens
  }

  function Amount(q: Reservation): nat {
    match q
    case LlmCall => 1
    case ToolCallBatch(count) => count
    case TokenCount(tokens) => tokens
  }

  function AmountOf(rs: seq<Reservation>, r: Resource): nat {
    if rs == [] then 0
    else AmountOf(rs[..|rs| - 1], r) + if ResourceOf(rs[|rs| - 1]) == r then Amount(rs[|rs| - 1]) else 0
  }

  /** The requests that fit: each is granted iff it fits with those granted before it. */
  function Granted(limits: Limits, usage: Usage, rs: seq<Reservation>): seq<Reservation> {
    if rs == [] then []
    else
      var before, last := Granted(limits, usage, rs[..|rs| - 1]), rs[|rs| - 1];
      var r := ResourceOf(last);
      if Counter(usage, r) + AmountOf(before, r) + Amount(last) <= LimitOn(limits, r) then before + [last] else before
  }

  /** One request is granted iff it fits its own limit, and then adds to its own counter only. */
  lemma ReserveCounts(limits: Limits, usage: Usage, q: Reservation)
    ensures Reserve(limits, usage, q).Ok? <==>
            Counter(usage, ResourceOf(q)) + Amount(q) <= LimitOn(limits, ResourceOf(q))
    ensures Reserve(limits, usage, q).Ok? ==>
              forall r :: Counter(Reserve(limits, usage, q).value, r)
                          == Counter(usage, r) + if r == ResourceOf(q) then Amount(q) else 0
  {
  }

  lemma {:induction false} ReserveOneMore(limits: Limits, usage: Usage, rs: seq<Reservation>, q: Reservation)
    ensures var before := ReserveAll(limits, usage, rs);
            ReserveAll(limits, usage, rs + [q])
            == if Reserve(limits, before, q).Ok? then Reserve(limits, before, q).value else before
    decreases |rs|
  {
    if rs == [] {
      assert [] + [q] == [q] && [q][1..] == [];
    } else {
      assert (rs + [q])[0] == rs[0] && (rs + [q])[1..] == rs[1..] + [q];
      match Reserve(limits, usage, rs[0])
      case Ok(next) => ReserveOneMore(limits, next, rs[1..], q);
      case Err(_) => ReserveOneMore(limits, usage, rs[1..], q);
    }
  }

  /** Whatever is asked in whatever order, each counter ends at its start plus the sum of the
      granted requests for it; a refused one counts nothing. */
  lemma {:induction false} CountersAreSums(limits: Limits, usage: Usage, rs: seq<Reservation>, r: Resource)
    ensures Counter(ReserveAll(limits, usage, rs), r) == Counter(usage, r) + AmountOf(Granted(limits, usage, rs), r)
    decreases |rs|
  {
    if rs != [] {
      var front, last := rs[..|rs| - 1], rs[|rs| - 1];
      assert rs == front + [last];
      CountersAreSums(limits, usage, front, r);
      CountersAreSums(limits, usage, front, ResourceOf(last));
      ReserveOneMore(limits, usage, front, last);
      ReserveCounts(limits, ReserveAll(limits, usage, front), last);
      var before := Granted(limits, usage, front);
      assert (before + [last])[..|before|] == before;
    }
  }
}
