// The agent state and its update protocol (agent-core/src/state.rs).
//
// Snapshot is the value of a state; the class AgentState is the object whose
// methods update it. The payload types and the business rule belong to the
// application, so they are left abstract.
module AgentStates {
  import opened Wrappers

  type Message(==,!new)
  type PromptSection(==,!new)
  type Action(==,!new)
  type Observation(==,!new)
  type AgentOutcome(==,!new)
  type Business(==,!new)
  type BusinessPatch(==,!new)

  datatype StateError = TerminalState | BusinessRejected(reason: string)

  datatype Update =
    | AppendMessages(messages: seq<Message>)
    | AppendPromptSections(sections: seq<PromptSection>)
    | ReplacePendingActions(actions: seq<Action>)
    | AppendObservations(observations: seq<Observation>)
    | SetOutcome(outcome: AgentOutcome)
    | BusinessUpdate(patch: BusinessPatch)

  datatype Snapshot = Snapshot(
    messages: seq<Message>,
    promptSections: seq<PromptSection>,
    pendingActions: seq<Action>,
    observations: seq<Observation>,
    outcome: Option<AgentOutcome>,
    business: Business)

  /** What the application's update hook did: it works in place, so it may leave
      a half-changed business value behind even when it reports a rejection. */
  datatype BusinessStep = BusinessStep(business: Business, rejection: Option<string>)

  type BusinessRule = (Business, BusinessPatch) -> BusinessStep

  /** One update on a live object: the value it leaves behind and the verdict. */
  function StepOne(rule: BusinessRule, s: Snapshot, u: Update): (Snapshot, Option<StateError>) {
    if s.outcome.Some? && !u.BusinessUpdate? then (s, Some(TerminalState))
    else match u
      case AppendMessages(ms) => (s.(messages := s.messages + ms), None)
      case AppendPromptSections(ps) => (s.(promptSections := s.promptSections + ps), None)
      case ReplacePendingActions(actions) => (s.(pendingActions := actions), None)
      case AppendObservations(os) => (s.(observations := s.observations + os), None)
      case SetOutcome(o) => (s.(outcome := Some(o)), None)
      case BusinessUpdate(patch) =>
        var step := rule(s.business, patch);
        (s.(business := step.business),
         if step.rejection.Some? then Some(BusinessRejected(step.rejection.value)) else None)
  }

  /** A whole batch: every update in turn, or the first rejection and no value. */
  function ApplyAll(rule: BusinessRule, s: Snapshot, us: seq<Update>): Result<Snapshot, StateError>
    decreases |us|
  {
    if us == [] then Ok(s)
    else
      var (next, rejection) := StepOne(rule, s, us[0]);
      if rejection.Some? then Err(rejection.value) else ApplyAll(rule, next, us[1..])
  }

  class AgentState {
    var messages: seq<Message>
    var promptSections: seq<PromptSection>
    var pendingActions: seq<Action>
    var observations: seq<Observation>
    var outcome: Option<AgentOutcome>
    var business: Business

    function Value(): Snapshot
      reads this
    {
      Snapshot(messages, promptSections, pendingActions, observations, outcome, business)
    }

    constructor New(business: Business)
      ensures Value() == Snapshot([], [], [], [], None, business)
    {
      messages, promptSections, pendingActions, observations := [], [], [], [];
      outcome := None;
      this.business := business;
    }

    /** A copy of a state value. */
    constructor Clone(s: Snapshot)
      ensures Value() == s
    {
      messages, promptSections := s.messages, s.promptSections;
      pendingActions, observations := s.pendingActions, s.observations;
      outcome, business := s.outcome, s.business;
    }

    method ApplyOne(rule: BusinessRule, update: Update) returns (rejection: Option<StateError>)
      modifies this
      ensures (Value(), rejection) == StepOne(rule, old(Value()), update)
    {
      if outcome.Some? && !update.BusinessUpdate? {
        return Some(TerminalState);
      }
      match update {
        case AppendMessages(ms) => messages := messages + ms;
        case AppendPromptSections(ps) => promptSections := promptSections + ps;
        case ReplacePendingActions(actions) => pendingActions := actions;
        case AppendObservations(os) => observations := observations + os;
        case SetOutcome(o) => outcome := Some(o);
        case BusinessUpdate(patch) =>
          var step := rule(business, patch);
          business := step.business;
          if step.rejection.Some? {
            return Some(BusinessRejected(step.rejection.value));
          }
      }
      return None;
    }

    /** All-or-nothing: the batch runs on a copy that replaces this object only
        when every update was accepted. */
    method ApplyUpdates(rule: BusinessRule, updates: seq<Update>) returns (rejection: Option<StateError>)
      modifies this
      ensures match ApplyAll(rule, old(Value()), updates)
              case Ok(next) => rejection == None && Value() == next
              case Err(error) => rejection == Some(error) && Value() == old(Value())
    {
      var candidate := new AgentState.Clone(Value());
      var i := 0;
      while i < |updates|
        invariant 0 <= i <= |updates|
        invariant fresh(candidate) && Value() == old(Value())
        invariant ApplyAll(rule, candidate.Value(), updates[i..]) == ApplyAll(rule, old(Value()), updates)
      {
        var verdict := candidate.ApplyOne(rule, updates[i]);
        if verdict.Some? {
          return verdict;
        }
        assert updates[i..][1..] == updates[i + 1..];
        i := i + 1;
      }
      messages, promptSections := candidate.messages, candidate.promptSections;
      pendingActions, observations := candidate.pendingActions, candidate.observations;
      outcome, business := candidate.outcome, candidate.business;
      return None;
    }
  }

  // ---- Properties ----

  /** Two batches in a row behave as their concatenation. */
  lemma {:induction false} BatchesCompose(rule: BusinessRule, s: Snapshot, a: seq<Update>, b: seq<Update>)
    ensures ApplyAll(rule, s, a + b) ==
            match ApplyAll(rule, s, a)
            case Ok(middle) => ApplyAll(rule, middle, b)
            case Err(error) => Err(error)
    decreases |a|
  {
    if a == [] {
      assert a + b == b;
    } else {
      assert (a + b)[0] == a[0] && (a + b)[1..] == a[1..] + b;
      BatchesCompose(rule, StepOne(rule, s, a[0]).0, a[1..], b);
    }
  }

  /** s2 differs from s1 in its business value at most. */
  predicate FrozenSince(s1: Snapshot, s2: Snapshot) {
    s2 == s1.(business := s2.business)
  }

  /** Once an outcome is set, an accepted batch consists of business updates
      only and changes nothing but the business value. */
  lemma {:induction false} OutcomeFreezesState(rule: BusinessRule, s: Snapshot, us: seq<Update>)
    requires s.outcome.Some?
    requires ApplyAll(rule, s, us).Ok?
    ensures FrozenSince(s, ApplyAll(rule, s, us).value)
    ensures forall i :: 0 <= i < |us| ==> us[i].BusinessUpdate?
    decreases |us|
  {
    if us != [] {
      var next := StepOne(rule, s, us[0]).0;
      OutcomeFreezesState(rule, next, us[1..]);
      assert forall i :: 1 <= i < |us| ==> us[i] == us[1..][i - 1];
    }
  }

  /** An outcome, once set, is never lost or replaced by an accepted batch. */
  lemma {:induction false} OutcomeIsKept(rule: BusinessRule, s: Snapshot, us: seq<Update>)
    requires ApplyAll(rule, s, us).Ok?
    ensures s.outcome.Some? ==> ApplyAll(rule, s, us).value.outcome == s.outcome
    ensures s.messages <= ApplyAll(rule, s, us).value.messages
    ensures s.observations <= ApplyAll(rule, s, us).value.observations
    decreases |us|
  {
    if us != [] {
      OutcomeIsKept(rule, StepOne(rule, s, us[0]).0, us[1..]);
    }
  }

  // ---- What a batch adds, field by field ----

  function MessagesOf(us: seq<Update>): seq<Message> {
    if us == [] then []
    else
      var front, last := us[..|us| - 1], us[|us| - 1];
      MessagesOf(front) + if last.AppendMessages? then last.messages else []
  }

  function SectionsOf(us: seq<Update>): seq<PromptSection> {
    if us == [] then []
    else
      var front, last := us[..|us| - 1], us[|us| - 1];
      SectionsOf(front) + if last.AppendPromptSections? then last.sections else []
  }

  function ObservationsOf(us: seq<Update>): seq<Observation> {
    if us == [] then []
    else
      var front, last := us[..|us| - 1], us[|us| - 1];
      ObservationsOf(front) + if last.AppendObservations? then last.observations else []
  }

  /** The last actions set, or those there were before. */
  function ActionsAfter(before: seq<Action>, us: seq<Update>): seq<Action> {
    if us == [] then before
    else if us[|us| - 1].ReplacePendingActions? then us[|us| - 1].actions
    else ActionsAfter(before, us[..|us| - 1])
  }

  function OutcomeAfter(before: Option<AgentOutcome>, us: seq<Update>): Option<AgentOutcome> {
    if us == [] then before
    else if us[|us| - 1].SetOutcome? then Some(us[|us| - 1].outcome)
    else OutcomeAfter(before, us[..|us| - 1])
  }

  function BusinessAfter(rule: BusinessRule, before: Business, us: seq<Update>): Business {
    if us == [] then before
    else
      var front, last := us[..|us| - 1], us[|us| - 1];
      var business := BusinessAfter(rule, before, front);
      if last.BusinessUpdate? then rule(business, last.patch).business else business
  }

  /** What the i-th update runs into: the outcome before it, or the application's refusal. */
  function Refusal(rule: BusinessRule, s: Snapshot, us: seq<Update>, i: nat): Option<StateError>
    requires i < |us|
  {
    if us[i].BusinessUpdate? then
      var rejection := rule(BusinessAfter(rule, s.business, us[..i]), us[i].patch).rejection;
      if rejection.Some? then Some(BusinessRejected(rejection.value)) else None
    else if OutcomeAfter(s.outcome, us[..i]).Some? then Some(TerminalState)
    else None
  }

  lemma RefusalOfFront(rule: BusinessRule, s: Snapshot, us: seq<Update>, i: nat)
    requires i < |us| - 1
    ensures Refusal(rule, s, us[..|us| - 1], i) == Refusal(rule, s, us, i)
  {
    assert us[..|us| - 1][..i] == us[..i];
  }

  /** Every field with what the updates of its kind put there. */
  function Added(rule: BusinessRule, s: Snapshot, us: seq<Update>): Snapshot {
    Snapshot(s.messages + MessagesOf(us), s.promptSections + SectionsOf(us), ActionsAfter(s.pendingActions, us),
             s.observations + ObservationsOf(us), OutcomeAfter(s.outcome, us), BusinessAfter(rule, s.business, us))
  }

  lemma ApplySingle(rule: BusinessRule, s: Snapshot, u: Update)
    ensures var (next, rejection) := StepOne(rule, s, u);
            ApplyAll(rule, s, [u]) == if rejection.Some? then Err(rejection.value) else Ok(next)
  {
    assert [u][1..] == [];
  }

  lemma AddsLast(rule: BusinessRule, s: Snapshot, us: seq<Update>)
    requires us != []
    ensures var n := |us| - 1;
            var (next, rejection) := StepOne(rule, Added(rule, s, us[..n]), us[n]);
            rejection == Refusal(rule, s, us, n) && (rejection.None? ==> next == Added(rule, s, us))
  {
    var n := |us| - 1;
    match us[n]
    case AppendMessages(ms) => assert s.messages + MessagesOf(us) == s.messages + MessagesOf(us[..n]) + ms;
    case AppendPromptSections(ps) =>
      assert s.promptSections + SectionsOf(us) == s.promptSections + SectionsOf(us[..n]) + ps;
    case AppendObservations(os) =>
      assert s.observations + ObservationsOf(us) == s.observations + ObservationsOf(us[..n]) + os;
    case _ =>
  }

  predicate NoneRefused(rule: BusinessRule, s: Snapshot, us: seq<Update>, k: nat)
    requires k <= |us|
  {
    forall i :: 0 <= i < k ==> Refusal(rule, s, us, i).None?
  }

  /** A batch is accepted iff none of its updates is refused, and then every field holds what
      the updates of its kind put there; otherwise the first refusal is reported. */
  lemma {:induction false} BatchAddsExactly(rule: BusinessRule, s: Snapshot, us: seq<Update>)
    ensures ApplyAll(rule, s, us).Ok? <==> NoneRefused(rule, s, us, |us|)
    ensures ApplyAll(rule, s, us).Ok? ==> ApplyAll(rule, s, us).value == Added(rule, s, us)
    ensures ApplyAll(rule, s, us).Err? ==>
              exists i :: 0 <= i < |us| && NoneRefused(rule, s, us, i)
                          && Refusal(rule, s, us, i) == Some(ApplyAll(rule, s, us).error)
    decreases |us|
  {
    if us != [] {
      var n := |us| - 1;
      var front := us[..n];
      BatchAddsExactly(rule, s, front);
      assert us == front + [us[n]];
      BatchesCompose(rule, s, front, [us[n]]);
      forall i | 0 <= i < n ensures Refusal(rule, s, us, i) == Refusal(rule, s, front, i) {
        RefusalOfFront(rule, s, us, i);
      }
      if ApplyAll(rule, s, front).Ok? {
        AddsLast(rule, s, us);
        ApplySingle(rule, Added(rule, s, front), us[n]);
        assert NoneRefused(rule, s, us, n);
      } else {
        var i :| 0 <= i < n && NoneRefused(rule, s, front, i)
                 && Refusal(rule, s, front, i) == Some(ApplyAll(rule, s, front).error);
        assert NoneRefused(rule, s, us, i);
      }
    }
  }
}
