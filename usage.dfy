/**
 * The document workflow exercised by the state machine's own test: five
 * states, four transitions, and the entity taken from draft through proposed
 * and accepted to the FINAL state rejected.
 */
module Usage {
  import opened Wrappers
  import opened PhpStrings
  import opened StateTypes
  import opened States
  import opened Transitions
  import opened StateMachines
  import Config

  const Draft: State := State("draft", TYPE_INITIAL)
  const Proposed: State := State("proposed", TYPE_NORMAL)
  const Accepted: State := State("accepted", TYPE_NORMAL)
  const Published: State := State("published", TYPE_FINAL)
  const Rejected: State := State("rejected", TYPE_FINAL)

  /** The service the propose action calls: methodX returns the product of its arguments. */
  function MethodX(a: int, b: int): int {
    a * b
  }

  /** The transitions as the configuration builds them, keyed by name. */
  function Workflow(): map<string, TransitionValue> {
    map[
      "propose" := TransitionValue("propose", [Draft], [Proposed], 0, Some(Action(0, "methodX", [42, 0])), false),
      "accept" := TransitionValue("accept", [Proposed], [Accepted], 0, None, false),
      "publish" := TransitionValue("publish", [Accepted], [Published], 0, None, false),
      "reject" := TransitionValue("reject", [Proposed, Accepted], [Rejected], 0, None, false)
    ]
  }

  /** The states as the configuration builds them, keyed by name. */
  function WorkflowStates(): map<string, State> {
    map["draft" := Draft, "proposed" := Proposed, "accepted" := Accepted, "published" := Published, "rejected" := Rejected]
  }

  /** The calls of the test: propose (its action yields methodX(42, 0)), accept, reject. */
  const ProposeCall: Call := Call("propose", MethodX(42, 0))
  const AcceptCall: Call := Call("accept", 0)
  const RejectCall: Call := Call("reject", 0)

  /** The calls in the order the test makes them. */
  function Calls(): seq<Call> {
    [ProposeCall] + [AcceptCall] + [RejectCall]
  }

  /** The four transition names are their own trimmed forms. */
  lemma NamesTrimmed()
    ensures Trim("propose") == "propose" && Trim("accept") == "accept"
    ensures Trim("publish") == "publish" && Trim("reject") == "reject"
  {
    assert IsTrimmed("propose") && IsTrimmed("accept") && IsTrimmed("publish") && IsTrimmed("reject");
  }

  /** Which states each transition accepts, by the state's name. */
  lemma Accepts(s: State)
    ensures Workflow()["propose"].Can(s) <==> s.name == "draft"
    ensures Workflow()["accept"].Can(s) <==> s.name == "proposed"
    ensures Workflow()["publish"].Can(s) <==> s.name == "accepted"
    ensures Workflow()["reject"].Can(s) <==> s.name == "proposed" || s.name == "accepted"
  {
    var w := Workflow();
    assert w["propose"].added == [Draft] && w["accept"].added == [Proposed];
    assert w["publish"].added == [Accepted] && w["reject"].added == [Proposed, Accepted];
    assert w["reject"].added[0].name == "proposed" && w["reject"].added[1].name == "accepted";
    if s.name == "accepted" {
      assert w["reject"].added[1].name == s.name;
    }
  }

  /** can() under one of the four names asks that transition. */
  lemma CanOf(name: string, s: State)
    requires name in Workflow() && Trim(name) == name
    ensures CanSpec(Workflow(), name, Some(s)) == Success(Workflow()[name].Can(s))
  {
  }

  /** What can() answers for each transition name, by the state's name. */
  lemma CanAnswers(s: State)
    ensures CanSpec(Workflow(), "propose", Some(s)) == Success(s.name == "draft")
    ensures CanSpec(Workflow(), "accept", Some(s)) == Success(s.name == "proposed")
    ensures CanSpec(Workflow(), "publish", Some(s)) == Success(s.name == "accepted")
    ensures CanSpec(Workflow(), "reject", Some(s)) == Success(s.name == "proposed" || s.name == "accepted")
  {
    NamesTrimmed();
    Accepts(s);
    CanOf("propose", s);
    CanOf("accept", s);
    CanOf("publish", s);
    CanOf("reject", s);
  }

  /** apply() under one of the four names, on a state the transition accepts and that is not FINAL, fires it. */
  lemma ApplyOf(name: string, s: State, outcome: int)
    requires name in Workflow() && Trim(name) == name
    requires Workflow()[name].Can(s) && s.stateType != TYPE_FINAL
    ensures ApplySpec(Workflow(), name, Some(s), outcome) == Fire(Workflow()[name].name, s, Resolve(Workflow()[name], s, outcome).0)
  {
  }

  /** A single call is one apply(). */
  lemma RunOne(transitions: map<string, TransitionValue>, current: Option<State>, call: Call)
    ensures Run(transitions, current, [call]) == ApplySpec(transitions, call.transition, current, call.outcome).state
  {
    assert [call][..0] == [];
  }

  /** One more call extends the run by one apply(). */
  lemma RunSnoc(transitions: map<string, TransitionValue>, current: Option<State>, calls: seq<Call>, call: Call)
    ensures Run(transitions, current, calls + [call]) == ApplySpec(transitions, call.transition, Run(transitions, current, calls), call.outcome).state
  {
    assert (calls + [call])[..|calls|] == calls;
  }

  /** initialize() puts a new entity in draft. */
  lemma InitializesToDraft()
    ensures InitializeSpec(Some(Draft), None) == Step(Success(true), Some(Draft), [Initialization(Before), Initialization(After)])
  {
  }

  /** Proposing from draft fires propose, which yields proposed. */
  lemma ProposeFires()
    ensures ApplySpec(Workflow(), "propose", Some(Draft), MethodX(42, 0)) == Fire("propose", Draft, Success(Proposed))
  {
    Accepts(Draft);
    NamesTrimmed();
    ApplyOf("propose", Draft, MethodX(42, 0));
  }

  /** In draft only propose can be applied, and it moves the entity to proposed with all four notifications. */
  lemma AtDraft()
    ensures var w := Workflow();
      && CanSpec(w, "propose", Some(Draft)) == Success(true)
      && CanSpec(w, "accept", Some(Draft)) == Success(false)
      && CanSpec(w, "reject", Some(Draft)) == Success(false)
      && CanSpec(w, "publish", Some(Draft)) == Success(false)
    ensures ApplySpec(Workflow(), "propose", Some(Draft), MethodX(42, 0)).result == Success(true)
    ensures ApplySpec(Workflow(), "propose", Some(Draft), MethodX(42, 0)).state == Some(Proposed)
  {
    CanAnswers(Draft);
    ProposeFires();
  }

  /** Proposing dispatches the four notifications around the change from draft to proposed, in order. */
  lemma ProposeNotifies()
    ensures ApplySpec(Workflow(), "propose", Some(Draft), MethodX(42, 0)).events == [
      ApplyTransition(Before, Draft, Draft, "propose"), StateChange(Before, Draft, Proposed),
      StateChange(After, Draft, Proposed), ApplyTransition(After, Draft, Proposed, "propose")]
  {
    ProposeFires();
    ChangeNotifications("propose", Draft, Proposed);
  }

  /** Accepting from proposed fires accept, which yields accepted. */
  lemma AcceptFires()
    ensures ApplySpec(Workflow(), "accept", Some(Proposed), 0) == Fire("accept", Proposed, Success(Accepted))
  {
    Accepts(Proposed);
    NamesTrimmed();
    ApplyOf("accept", Proposed, 0);
  }

  /** In proposed, accept and reject can be applied; accept moves the entity to accepted. */
  lemma AtProposed()
    ensures var w := Workflow();
      && CanSpec(w, "propose", Some(Proposed)) == Success(false)
      && CanSpec(w, "accept", Some(Proposed)) == Success(true)
      && CanSpec(w, "reject", Some(Proposed)) == Success(true)
      && CanSpec(w, "publish", Some(Proposed)) == Success(false)
    ensures ApplySpec(Workflow(), "accept", Some(Proposed), 0).result == Success(true)
    ensures ApplySpec(Workflow(), "accept", Some(Proposed), 0).state == Some(Accepted)
  {
    CanAnswers(Proposed);
    AcceptFires();
  }

  /** Rejecting from accepted fires reject, which yields rejected. */
  lemma RejectFires()
    ensures ApplySpec(Workflow(), "reject", Some(Accepted), 0) == Fire("reject", Accepted, Success(Rejected))
  {
    Accepts(Accepted);
    NamesTrimmed();
    ApplyOf("reject", Accepted, 0);
  }

  /** In accepted, reject and publish can be applied; reject moves the entity to rejected. */
  lemma AtAccepted()
    ensures var w := Workflow();
      && CanSpec(w, "propose", Some(Accepted)) == Success(false)
      && CanSpec(w, "accept", Some(Accepted)) == Success(false)
      && CanSpec(w, "reject", Some(Accepted)) == Success(true)
      && CanSpec(w, "publish", Some(Accepted)) == Success(true)
    ensures ApplySpec(Workflow(), "reject", Some(Accepted), 0).result == Success(true)
    ensures ApplySpec(Workflow(), "reject", Some(Accepted), 0).state == Some(Rejected)
  {
    CanAnswers(Accepted);
    RejectFires();
  }

  /** In rejected no transition can be applied. */
  lemma AtRejected()
    ensures var w := Workflow();
      && CanSpec(w, "propose", Some(Rejected)) == Success(false)
      && CanSpec(w, "accept", Some(Rejected)) == Success(false)
      && CanSpec(w, "reject", Some(Rejected)) == Success(false)
      && CanSpec(w, "publish", Some(Rejected)) == Success(false)
  {
    CanAnswers(Rejected);
  }

  /**
   * Publishing or rejecting again after reject raises NotApplicable, which
   * apply() checks before the FINAL type, and dispatches nothing.
   */
  lemma NothingAppliesAfterReject(outcome: int)
    ensures ApplySpec(Workflow(), "publish", Some(Rejected), outcome) ==
      Step(Failure(NotApplicable("publish", "rejected")), Some(Rejected), [])
    ensures ApplySpec(Workflow(), "reject", Some(Rejected), outcome) ==
      Step(Failure(NotApplicable("reject", "rejected")), Some(Rejected), [])
  {
    Accepts(Rejected);
    NamesTrimmed();
    Refuses("publish", Rejected, outcome);
    Refuses("reject", Rejected, outcome);
  }

  /** apply() under one of the four names, on a state the transition does not accept, raises NotApplicable. */
  lemma Refuses(name: string, s: State, outcome: int)
    requires name in Workflow() && Trim(name) == name && Workflow()[name].name == name
    requires !Workflow()[name].Can(s)
    ensures ApplySpec(Workflow(), name, Some(s), outcome) == Step(Failure(NotApplicable(name, s.name)), Some(s), [])
  {
    ApplyChecks(Workflow(), name, Some(s), outcome);
  }

  /**
   * The test's run: propose, accept and reject take the entity from draft to
   * rejected, which it never leaves whatever is applied afterwards.
   */
  lemma DocumentLifecycle(later: seq<Call>)
    ensures Run(Workflow(), Some(Draft), Calls()) == Some(Rejected)
    ensures Run(Workflow(), Some(Draft), Calls() + later) == Some(Rejected)
  {
    var w := Workflow();
    AtDraft();
    AtProposed();
    AtAccepted();
    RunOne(w, Some(Draft), ProposeCall);
    RunSnoc(w, Some(Draft), [ProposeCall], AcceptCall);
    RunSnoc(w, Some(Draft), [ProposeCall] + [AcceptCall], RejectCall);
    FinalStateIsAbsorbing(w, Rejected, later);
    RunConcat(w, Some(Draft), Calls(), later);
  }

  /** The five states are valid, stored under their own names. */
  lemma StatesKeyed()
    ensures Config.KeyedStates(WorkflowStates())
    ensures Draft in WorkflowStates().Values && Proposed in WorkflowStates().Values
    ensures Accepted in WorkflowStates().Values && Published in WorkflowStates().Values
    ensures Rejected in WorkflowStates().Values
  {
    var states := WorkflowStates();
    assert IsTrimmed("draft") && IsTrimmed("proposed") && IsTrimmed("accepted");
    assert IsTrimmed("published") && IsTrimmed("rejected");
    assert states["draft"] == Draft && states["proposed"] == Proposed && states["accepted"] == Accepted;
    assert states["published"] == Published && states["rejected"] == Rejected;
  }

  /** The workflow is wired as a loaded configuration: states under their names, transitions built from them. */
  lemma WorkflowWired()
    ensures Wired(WorkflowStates(), Workflow())
  {
    NamesTrimmed();
    StatesKeyed();
  }

  /** Whatever is applied, an entity starting in draft is only ever in one of the five states. */
  lemma StaysInWorkflowStates(calls: seq<Call>)
    ensures Run(Workflow(), Some(Draft), calls).Some?
    ensures Run(Workflow(), Some(Draft), calls).value in WorkflowStates().Values
  {
    WorkflowWired();
    StatesKeyed();
    RunStaysInConfiguredStates(WorkflowStates(), Workflow(), Some(Draft), calls);
  }
}
