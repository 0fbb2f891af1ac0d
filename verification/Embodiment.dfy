/** The engine's commands at the avatar driver. */
module Embodiment {
  import opened Prelude
  import opened Decisions
  import opened Behaviors
  import opened Avatars

  /** The actions of a planned plan come from the planner's candidates. */
  lemma PlannedActions(d: Decision, capabilities: Capabilities, actionTimeout: int)
    requires Planned(d, capabilities, actionTimeout).Ok? && actionTimeout > 0
    ensures var plan := Planned(d, capabilities, actionTimeout).value;
      forall a :: a in Actions(plan.root) ==>
        a.timeout > 0 && (a.actionType.Speak? ==> a.templateID == "welcome.return") && Supported(capabilities, a.actionType)
  {
    var plan := Planned(d, capabilities, actionTimeout).value;
    var candidates := Candidates(actionTimeout);
    KeptActionsSupported(capabilities, candidates);
    assert Actions(plan.root) == AllActions(plan.root.children);
    KeptActions(capabilities, candidates, actionTimeout);
  }

  lemma {:induction false} KeptActions(capabilities: Capabilities, candidates: seq<Node>, actionTimeout: int)
    requires candidates == Candidates(actionTimeout) && actionTimeout > 0
    ensures forall a :: a in AllActions(Kept(capabilities, candidates)) ==> a.timeout > 0 && (a.actionType.Speak? ==> a.templateID == "welcome.return")
  {
    var kept := Kept(capabilities, candidates);
    KeptComeFrom(capabilities, candidates);
    forall a | a in AllActions(kept) ensures a.timeout > 0 && (a.actionType.Speak? ==> a.templateID == "welcome.return") {
      ActionOfLeaf(kept, a);
    }
  }

  lemma {:induction false} KeptComeFrom(capabilities: Capabilities, nodes: seq<Node>)
    ensures forall n :: n in Kept(capabilities, nodes) ==> n in nodes
  {
    if nodes != [] {
      KeptComeFrom(capabilities, nodes[..|nodes| - 1]);
    }
  }

  /** An action of leaves is the action of one of them. */
  lemma {:induction false} ActionOfLeaf(nodes: seq<Node>, a: ActionSpec)
    requires a in AllActions(nodes) && forall n :: n in nodes ==> n.children == []
    ensures exists n :: n in nodes && n.action == Some(a)
  {
    FirstActions(nodes);
    if a in Actions(nodes[0]) {
      assert nodes[0].action == Some(a);
    } else {
      ActionOfLeaf(nodes[1..], a);
    }
  }

  /** Every command of every plan the planner returns, dispatched at a set time, is valid
      for the driver, has its action's own time to run, and is not refused for its
      deadline or its capability: a driver that offers the capabilities the plan was made
      for refuses it only because another speech is active. */
  lemma PlannedCommandsAreTaken(d: Decision, capabilities: Capabilities, actionTimeout: int, at: Time, driver: Driver, k: nat)
    requires Planned(d, capabilities, actionTimeout).Ok? && actionTimeout > 0 && at > 0 && d.interactionID != "" && d.traceID != ""
    requires driver.hasSpeaker <==> Supported(capabilities, Speak)
    requires k < |PlanCommands(Planned(d, capabilities, actionTimeout).value, at)|
    ensures var command := PlanCommands(Planned(d, capabilities, actionTimeout).value, at)[k];
      && ValidCommand(command) && command.deadline == at + command.action.timeout
      && command.action == Actions(Planned(d, capabilities, actionTimeout).value.root)[k]
      && command.interactionID == d.interactionID && command.traceID == d.traceID
      && Refusal(driver, at, command) == if command.action.actionType.Speak? && driver.active.Some? then Some(AdapterRejected) else None
  {
    var plan := Planned(d, capabilities, actionTimeout).value;
    PlannedActions(d, capabilities, actionTimeout);
    var command := PlanCommands(plan, at)[k];
    assert command.action == Actions(plan.root)[k] && command.action in Actions(plan.root);
    assert command.id == ActionId(plan.interactionID, k + 1) && command.id != "";
  }
}
