/** Behavior plans, their split around the one user-reply wait, and action commands. */
module Behaviors {
  import opened Prelude
  import opened Decisions

  datatype NodeKind = Sequence | Parallel | Race | Action | WaitEvent | Condition | UnknownKind
  datatype ActionType = AttendUser | Acknowledge | Speak | Express | ReturnIdle
  datatype Resource = Voice | Attention | Display | Gesture | Locomotion
  datatype Capability = Capability(supported: bool, interruptible: bool)
  type Capabilities = map<ActionType, Capability>

  datatype ActionSpec = ActionSpec(actionType: ActionType, templateID: string, resource: Resource, timeout: int)

  datatype Node = Node(
    kind: NodeKind,
    children: seq<Node>,
    action: Option<ActionSpec>,
    waitFor: int,
    eventType: string,
    condition: string)

  datatype BehaviorPlan = BehaviorPlan(id: string, interactionID: string, traceID: string, root: Node)

  /** Every command is interruptible and idempotent by its id. */
  datatype ActionCommand = ActionCommand(
    id: string,
    interactionID: string,
    traceID: string,
    deadline: Time,
    requiredCapability: ActionType,
    action: ActionSpec)

  datatype PhaseAction = PhaseAction(ordinal: nat, action: ActionSpec)
  datatype ActionPhase = ActionPhase(interactionID: string, traceID: string, actions: seq<PhaseAction>)
  datatype UserReplyPhases = UserReplyPhases(before: ActionPhase, after: ActionPhase, waitFor: int)

  datatype ActionState =
    | Created | Dispatched | Accepted | Started
    | Completed | Rejected | Cancelled | TimedOut | Failed

  datatype ActionStatus = ActionStatus(
    actionID: string, interactionID: string, traceID: string, state: ActionState, occurredAt: Time, reason: string)

  predicate Supported(capabilities: Capabilities, a: ActionType) {
    a in capabilities && capabilities[a].supported
  }

  // ---------------------------------------------------------------------------
  // Traversal and command ids.

  /** Action nodes in deterministic pre-order, whatever the shape of the tree. */
  function Actions(node: Node): seq<ActionSpec>
    decreases node, 1
  {
    (if node.kind == Action && node.action.Some? then [node.action.value] else []) + AllActions(node.children)
  }

  function AllActions(nodes: seq<Node>): seq<ActionSpec>
    decreases nodes, 0
  {
    if nodes == [] then [] else Actions(nodes[0]) + AllActions(nodes[1..])
  }

  function Numbered(actions: seq<ActionSpec>, first: nat): (r: seq<PhaseAction>)
    ensures |r| == |actions| && forall i :: 0 <= i < |r| ==> r[i] == PhaseAction(first + i, actions[i])
  {
    seq(|actions|, i requires 0 <= i < |actions| => PhaseAction(first + i, actions[i]))
  }

  function Digits(n: nat): (r: string)
    ensures r != ""
  {
    var digit := ["0", "1", "2", "3", "4", "5", "6", "7", "8", "9"][n % 10];
    if n < 10 then digit else Digits(n / 10) + digit
  }

  function ActionId(interactionID: string, ordinal: nat): string {
    interactionID + ":action:" + Digits(ordinal)
  }

  function Command(phase: ActionPhase, item: PhaseAction, now: Time): ActionCommand {
    ActionCommand(ActionId(phase.interactionID, item.ordinal), phase.interactionID, phase.traceID,
                  now + item.action.timeout, item.action.actionType, item.action)
  }

  function Commands(phase: ActionPhase, now: Time): (r: seq<ActionCommand>)
    ensures |r| == |phase.actions| && forall i :: 0 <= i < |r| ==> r[i] == Command(phase, phase.actions[i], now)
  {
    seq(|phase.actions|, i requires 0 <= i < |phase.actions| => Command(phase, phase.actions[i], now))
  }

  function PlanCommands(plan: BehaviorPlan, now: Time): seq<ActionCommand> {
    Commands(ActionPhase(plan.interactionID, plan.traceID, Numbered(Actions(plan.root), 1)), now)
  }

  lemma {:induction false} DigitsInjective(m: nat, n: nat)
    ensures Digits(m) == Digits(n) <==> m == n
  {
    var digits := ["0", "1", "2", "3", "4", "5", "6", "7", "8", "9"];
    var s, t := Digits(m), Digits(n);
    if s == t {
      DigitsShape(m);
      DigitsShape(n);
      assert digits[m % 10][0] == digits[n % 10][0];
      assert m % 10 == n % 10;
      if m >= 10 && n >= 10 {
        DigitsInjective(m / 10, n / 10);
      }
    }
  }

  lemma {:induction false} DigitsShape(n: nat)
    ensures Last(Digits(n)) == ["0", "1", "2", "3", "4", "5", "6", "7", "8", "9"][n % 10][0]
    ensures n < 10 <==> |Digits(n)| == 1
    ensures n >= 10 ==> Digits(n)[..|Digits(n)| - 1] == Digits(n / 10)
  {
  }

  lemma ActionIdInjective(interaction: string, m: nat, n: nat)
    ensures ActionId(interaction, m) == ActionId(interaction, n) <==> m == n
  {
    if ActionId(interaction, m) == ActionId(interaction, n) {
      var p := interaction + ":action:";
      assert Digits(m) == (p + Digits(m))[|p|..] && Digits(n) == (p + Digits(n))[|p|..];
      DigitsInjective(m, n);
    }
  }

  // ---------------------------------------------------------------------------
  // Splitting a plan around its wait.

  /** A root child the split supports: a leaf that is an action with a spec, a
      positive user.reply wait, or a condition. */
  predicate SupportedLeaf(n: Node) {
    && n.children == []
    && (n.kind == Action || n.kind == WaitEvent || n.kind == Condition)
    && (n.kind == Action ==> n.action.Some?)
    && (n.kind == WaitEvent ==> n.eventType == "user.reply" && n.waitFor > 0)
  }

  predicate WaitAt(nodes: seq<Node>, w: int) {
    0 <= w < |nodes| && nodes[w].kind == WaitEvent
  }

  /** The children split at w: supported leaves, of which exactly w is a wait. */
  predicate OneWaitAt(nodes: seq<Node>, w: int) {
    && (forall k :: 0 <= k < |nodes| ==> SupportedLeaf(nodes[k]))
    && WaitAt(nodes, w)
    && forall v :: 0 <= v < |nodes| && nodes[v].kind == WaitEvent ==> v == w
  }

  /** The plans that compile: a root sequence of supported leaves with one wait. */
  predicate SplitsAt(plan: BehaviorPlan, w: int) {
    plan.root.kind == Sequence && OneWaitAt(plan.root.children, w)
  }

  /** What splitting at w means. */
  function SplitAt(plan: BehaviorPlan, w: nat): UserReplyPhases
    requires w < |plan.root.children|
  {
    var nodes := plan.root.children;
    var before, after := AllActions(nodes[..w]), AllActions(nodes[w + 1..]);
    UserReplyPhases(
      ActionPhase(plan.interactionID, plan.traceID, Numbered(before, 1)),
      ActionPhase(plan.interactionID, plan.traceID, Numbered(after, |before| + 1)),
      nodes[w].waitFor)
  }

  /** The position of the first wait. */
  function FirstWait(nodes: seq<Node>): nat {
    if nodes == [] || nodes[0].kind == WaitEvent then 0 else 1 + FirstWait(nodes[1..])
  }

  /** Splitting as a function: a plan that splits does so at its first wait. */
  function PhasesOf(plan: BehaviorPlan): Result<UserReplyPhases> {
    var w := FirstWait(plan.root.children);
    if SplitsAt(plan, w) then Ok(SplitAt(plan, w)) else Err(InvalidInput)
  }

  lemma {:induction false} FirstWaitIs(nodes: seq<Node>, w: int)
    requires WaitAt(nodes, w) && forall v :: 0 <= v < w ==> nodes[v].kind != WaitEvent
    ensures FirstWait(nodes) == w
  {
    if w > 0 {
      FirstWaitIs(nodes[1..], w - 1);
    }
  }

  /** A plan splits in at most one place, and PhasesOf finds it. */
  lemma SplitIsUnique(plan: BehaviorPlan, w: int)
    requires SplitsAt(plan, w)
    ensures PhasesOf(plan) == Ok(SplitAt(plan, w))
  {
    FirstWaitIs(plan.root.children, w);
  }

  lemma {:induction false} AllActionsConcat(a: seq<Node>, b: seq<Node>)
    ensures AllActions(a + b) == AllActions(a) + AllActions(b)
  {
    if a == [] {
      assert a + b == b;
    } else {
      AllActionsConcat(a[1..], b);
      assert (a + b)[1..] == a[1..] + b;
      FirstActions(a);
      FirstActions(a + b);
      Regroup(Actions(a[0]), AllActions(a[1..]), AllActions(b));
    }
  }

  lemma Regroup<T>(x: seq<T>, y: seq<T>, z: seq<T>)
    ensures x + (y + z) == (x + y) + z
  {
  }

  lemma {:induction false} FirstActions(nodes: seq<Node>)
    requires nodes != []
    ensures AllActions(nodes) == Actions(nodes[0]) + AllActions(nodes[1..])
  {
  }

  /** The numbered actions of a slice of leaves: a function of the slice. */
  function SliceActions(nodes: seq<Node>, from: int, to: int, first: nat): seq<PhaseAction>
    requires 0 <= from <= to <= |nodes|
  {
    Numbered(AllActions(nodes[from..to]), first)
  }

  lemma ExtendSlice(nodes: seq<Node>, from: nat, i: nat, first: nat)
    requires from <= i < |nodes| && nodes[i].children == []
    ensures var s := SliceActions(nodes, from, i, first);
      SliceActions(nodes, from, i + 1, first) ==
        if nodes[i].kind == Action && nodes[i].action.Some? then s + [PhaseAction(first + |s|, nodes[i].action.value)] else s
  {
    assert nodes[from..i + 1] == nodes[from..i] + [nodes[i]];
    AllActionsConcat(nodes[from..i], [nodes[i]]);
    assert AllActions([nodes[i]]) == Actions(nodes[i]);
  }

  lemma EmptySlice(nodes: seq<Node>, from: nat, first: nat)
    requires from <= |nodes|
    ensures SliceActions(nodes, from, from, first) == []
  {
    assert nodes[from..from] == [];
  }

  /** What the scan has collected from the first i children. */
  ghost predicate Scanned(nodes: seq<Node>, i: nat, wait: Option<nat>, before: seq<PhaseAction>, after: seq<PhaseAction>)
    requires i <= |nodes|
  {
    match wait
    case None => before == SliceActions(nodes, 0, i, 1) && after == []
    case Some(w) => w < i && before == SliceActions(nodes, 0, w, 1) && after == SliceActions(nodes, w + 1, i, |before| + 1)
  }

  lemma ScannedStep(nodes: seq<Node>, i: nat, wait: Option<nat>, before: seq<PhaseAction>, after: seq<PhaseAction>)
    requires i < |nodes| && SupportedLeaf(nodes[i]) && Scanned(nodes, i, wait, before, after)
    ensures nodes[i].kind == Action ==>
      var item := [PhaseAction(|before| + |after| + 1, nodes[i].action.value)];
      if wait.None? then Scanned(nodes, i + 1, wait, before + item, after) else Scanned(nodes, i + 1, wait, before, after + item)
    ensures nodes[i].kind == WaitEvent && wait.None? ==> Scanned(nodes, i + 1, Some(i), before, after)
    ensures nodes[i].kind == Condition ==> Scanned(nodes, i + 1, wait, before, after)
  {
    if wait.None? {
      ExtendSlice(nodes, 0, i, 1);
    } else {
      ExtendSlice(nodes, wait.value + 1, i, |before| + 1);
    }
    EmptySlice(nodes, i + 1, |before| + 1);
  }

  /** The one-pass scan of the root's children: it numbers actions as it goes,
      switches phase at the wait and refuses everything unsupported. */
  method ScanChildren(nodes: seq<Node>)
    returns (ok: bool, before: seq<PhaseAction>, after: seq<PhaseAction>, waitFor: int, ghost w: int)
    ensures ok ==> OneWaitAt(nodes, w) && waitFor == nodes[w].waitFor
    ensures ok ==> before == SliceActions(nodes, 0, w, 1) && after == SliceActions(nodes, w + 1, |nodes|, |before| + 1)
    ensures !ok ==> forall v :: !OneWaitAt(nodes, v)
  {
    var waitFound, ordinal := false, 0;
    ok, before, after, waitFor, w := false, [], [], 0, 0;
    ghost var wait: Option<nat> := None;
    EmptySlice(nodes, 0, 1);
    for i := 0 to |nodes|
      invariant forall k :: 0 <= k < i ==> SupportedLeaf(nodes[k])
      invariant forall k :: 0 <= k < i && nodes[k].kind == WaitEvent ==> wait == Some(k)
      invariant ordinal == |before| + |after| && waitFound == wait.Some?
      invariant wait.Some? ==> wait.value < i && nodes[wait.value].kind == WaitEvent && waitFor == nodes[wait.value].waitFor
      invariant Scanned(nodes, i, wait, before, after)
    {
      var node := nodes[i];
      // Every refusal carries the same fault.
      if !SupportedLeaf(node) || (node.kind == WaitEvent && waitFound) {
        return;
      }
      ScannedStep(nodes, i, wait, before, after);
      if node.kind == Action {
        ordinal := ordinal + 1;
        var item := PhaseAction(ordinal, node.action.value);
        if waitFound {
          after := after + [item];
        } else {
          before := before + [item];
        }
      } else if node.kind == WaitEvent {
        waitFound, waitFor, wait := true, node.waitFor, Some(i);
      }
    }
    ok := waitFound;
    w := if wait.Some? then wait.value else 0;
  }

  /** The split the engine asks for: it succeeds exactly on the plans that have one
      supported wait, and its phases are the actions on either side of it. */
  method CompileUserReplyPhases(plan: BehaviorPlan) returns (r: Result<UserReplyPhases>)
    ensures r == PhasesOf(plan)
    ensures r.Ok? <==> exists w :: SplitsAt(plan, w)
  {
    if plan.root.kind != Sequence {
      return Err(InvalidInput);
    }
    var nodes := plan.root.children;
    ghost var w: int;
    var ok, before, after, waitFor;
    ok, before, after, waitFor, w := ScanChildren(nodes);
    if !ok {
      return Err(InvalidInput);
    }
    assert nodes[w + 1..|nodes|] == nodes[w + 1..] && nodes[0..w] == nodes[..w];
    assert SplitsAt(plan, w);
    SplitIsUnique(plan, w);
    return Ok(UserReplyPhases(ActionPhase(plan.interactionID, plan.traceID, before),
                              ActionPhase(plan.interactionID, plan.traceID, after), waitFor));
  }

  lemma SplitActions(plan: BehaviorPlan, w: int)
    requires SplitsAt(plan, w)
    ensures Actions(plan.root) == AllActions(plan.root.children[..w]) + AllActions(plan.root.children[w + 1..])
  {
    var nodes := plan.root.children;
    assert nodes == nodes[..w] + ([nodes[w]] + nodes[w + 1..]);
    AllActionsConcat(nodes[..w], [nodes[w]] + nodes[w + 1..]);
    AllActionsConcat([nodes[w]], nodes[w + 1..]);
    assert SupportedLeaf(nodes[w]);
    assert AllActions([nodes[w]]) == [];
  }

  lemma CommandIdsDistinct(plan: BehaviorPlan, now: Time)
    ensures forall i, j :: 0 <= i < j < |PlanCommands(plan, now)| ==> PlanCommands(plan, now)[i].id != PlanCommands(plan, now)[j].id
  {
    var commands := PlanCommands(plan, now);
    forall i, j | 0 <= i < j < |commands| ensures commands[i].id != commands[j].id {
      assert commands[i].id == ActionId(plan.interactionID, i + 1) && commands[j].id == ActionId(plan.interactionID, j + 1);
      ActionIdInjective(plan.interactionID, i + 1, j + 1);
    }
  }

  /** Splitting preserves meaning: the two phases together are the whole traversal,
      numbered 1..n, and their commands carry the whole plan's ids, all distinct. */
  lemma SplitPreservesMeaning(plan: BehaviorPlan, w: int, now: Time)
    requires SplitsAt(plan, w)
    ensures SplitAt(plan, w).before.actions + SplitAt(plan, w).after.actions == Numbered(Actions(plan.root), 1)
    ensures Commands(SplitAt(plan, w).before, now) + Commands(SplitAt(plan, w).after, now) == PlanCommands(plan, now)
    ensures forall i, j :: 0 <= i < j < |PlanCommands(plan, now)| ==> PlanCommands(plan, now)[i].id != PlanCommands(plan, now)[j].id
  {
    SplitActions(plan, w);
    CommandIdsDistinct(plan, now);
    NumberedSplit(AllActions(plan.root.children[..w]), AllActions(plan.root.children[w + 1..]));
    CommandsSplit(plan.interactionID, plan.traceID, SplitAt(plan, w).before.actions, SplitAt(plan, w).after.actions, now);
  }

  lemma NumberedSplit(before: seq<ActionSpec>, after: seq<ActionSpec>)
    ensures Numbered(before + after, 1) == Numbered(before, 1) + Numbered(after, |before| + 1)
  {
  }

  lemma CommandsSplit(interactionID: string, traceID: string, before: seq<PhaseAction>, after: seq<PhaseAction>, now: Time)
    ensures Commands(ActionPhase(interactionID, traceID, before), now) + Commands(ActionPhase(interactionID, traceID, after), now) ==
      Commands(ActionPhase(interactionID, traceID, before + after), now)
  {
  }

  // ---------------------------------------------------------------------------
  // Planning a greeting.

  function ActionNode(a: ActionType, templateID: string, resource: Resource, timeout: int): Node {
    Node(Action, [], Some(ActionSpec(a, templateID, resource, timeout)), 0, "", "")
  }

  const REPLY_WAIT := 8000

  /** Durations are in milliseconds. */
  function Candidates(actionTimeout: int): seq<Node> {
    [ActionNode(AttendUser, "", Attention, 200),
     Node(Condition, [], None, 0, "", "attend_user_completed_or_skipped"),
     ActionNode(Acknowledge, "", Gesture, 500),
     ActionNode(Speak, "welcome.return", Voice, actionTimeout),
     Node(WaitEvent, [], None, REPLY_WAIT, "user.reply", ""),
     ActionNode(ReturnIdle, "", Attention, actionTimeout)]
  }

  predicate Keeps(capabilities: Capabilities, n: Node) {
    n.kind == Action ==> n.action.Some? && Supported(capabilities, n.action.value.actionType)
  }

  function Kept(capabilities: Capabilities, nodes: seq<Node>): seq<Node> {
    if nodes == [] then []
    else
      var rest := Kept(capabilities, nodes[..|nodes| - 1]);
      if Keeps(capabilities, Last(nodes)) then rest + [Last(nodes)] else rest
  }

  /** A greeting gets a plan exactly when some feedback action is supported; every
      unsupported action is left out. */
  function Planned(d: Decision, capabilities: Capabilities, actionTimeout: int): Result<BehaviorPlan> {
    if d.kind != GreetShort then Err(PolicyBlocked)
    else if !Supported(capabilities, Acknowledge) && !Supported(capabilities, Speak) then Err(CapabilityMissing)
    else
      Ok(BehaviorPlan("plan:" + d.id, d.interactionID, d.traceID,
                      Node(Sequence, Kept(capabilities, Candidates(actionTimeout)), None, 0, "", "")))
  }

  /** Some kept action among the first n nodes gives the user feedback. */
  function GivesFeedback(capabilities: Capabilities, nodes: seq<Node>, n: nat): bool
    requires n <= |nodes|
  {
    n > 0 && (GivesFeedback(capabilities, nodes, n - 1) ||
              (nodes[n - 1].kind == Action && nodes[n - 1].action.Some? && nodes[n - 1].action.value.actionType in {Acknowledge, Speak, Express} &&
               Supported(capabilities, nodes[n - 1].action.value.actionType)))
  }

  lemma {:induction false} FeedbackIs(capabilities: Capabilities, actionTimeout: int)
    ensures var c := Candidates(actionTimeout);
      GivesFeedback(capabilities, c, |c|) <==> Supported(capabilities, Acknowledge) || Supported(capabilities, Speak)
  {
    var c := Candidates(actionTimeout);
    assert !GivesFeedback(capabilities, c, 1) && !GivesFeedback(capabilities, c, 2);
    assert GivesFeedback(capabilities, c, 3) <==> Supported(capabilities, Acknowledge);
    assert GivesFeedback(capabilities, c, 4) <==> Supported(capabilities, Acknowledge) || Supported(capabilities, Speak);
    assert GivesFeedback(capabilities, c, 6) == GivesFeedback(capabilities, c, 4);
  }

  method Plan(d: Decision, capabilities: Capabilities, actionTimeout: int) returns (r: Result<BehaviorPlan>)
    ensures r == Planned(d, capabilities, actionTimeout)
  {
    if d.kind == Silent {
      return Err(PolicyBlocked);
    }
    var candidates := Candidates(actionTimeout);
    var children, hasFeedback := [], false;
    for i := 0 to |candidates|
      invariant children == Kept(capabilities, candidates[..i])
      invariant hasFeedback == GivesFeedback(capabilities, candidates, i)
    {
      var node := candidates[i];
      assert candidates[..i + 1][..i] == candidates[..i];
      if node.kind != Action {
        children := children + [node];
      } else {
        var a := node.action.value.actionType;
        if Supported(capabilities, a) {
          children := children + [node];
          hasFeedback := hasFeedback || a in {Acknowledge, Speak, Express};
        }
      }
    }
    assert candidates[..|candidates|] == candidates;
    FeedbackIs(capabilities, actionTimeout);
    if !hasFeedback {
      return Err(CapabilityMissing);
    }
    var plan := BehaviorPlan("plan:" + d.id, d.interactionID, d.traceID, Node(Sequence, children, None, 0, "", ""));
    KeptActionsSupported(capabilities, candidates);
    r := if ValidateCapabilities(plan, capabilities) then Ok(plan) else Err(CapabilityMissing);
  }

  predicate ValidateCapabilities(plan: BehaviorPlan, capabilities: Capabilities) {
    forall a :: a in Actions(plan.root) ==> Supported(capabilities, a.actionType)
  }

  lemma {:induction false} KeptActionsSupported(capabilities: Capabilities, nodes: seq<Node>)
    requires forall n :: n in nodes ==> n.children == []
    ensures forall n :: n in Kept(capabilities, nodes) ==> n in nodes && Keeps(capabilities, n)
    ensures forall a :: a in AllActions(Kept(capabilities, nodes)) ==> Supported(capabilities, a.actionType)
  {
    if nodes != [] {
      KeptActionsSupported(capabilities, nodes[..|nodes| - 1]);
      AllActionsConcat(Kept(capabilities, nodes[..|nodes| - 1]), [Last(nodes)]);
    }
  }

  lemma SplitsAround(plan: BehaviorPlan, a: seq<Node>, wait: Node, b: seq<Node>)
    requires plan.root.kind == Sequence && plan.root.children == a + [wait] + b
    requires wait.kind == WaitEvent && SupportedLeaf(wait)
    requires forall n :: n in a || n in b ==> SupportedLeaf(n) && n.kind != WaitEvent
    ensures SplitsAt(plan, |a|) && plan.root.children[..|a|] == a
  {
    var nodes := plan.root.children;
    assert forall k :: 0 <= k < |a| ==> nodes[k] in a;
    assert forall k :: |a| < k < |nodes| ==> nodes[k] in b;
  }

  function Optional(capabilities: Capabilities, n: Node): seq<Node> {
    if Keeps(capabilities, n) then [n] else []
  }

  /** A filtered candidate list, spelled out. */
  lemma {:induction false} KeptCandidates(capabilities: Capabilities, actionTimeout: int)
    ensures var c := Candidates(actionTimeout);
      Kept(capabilities, c) ==
        (Optional(capabilities, c[0]) + [c[1]] + Optional(capabilities, c[2]) + Optional(capabilities, c[3])) +
        [c[4]] + Optional(capabilities, c[5])
  {
    var c := Candidates(actionTimeout);
    assert c[..1][..0] == [] && c[..2][..1] == c[..1] && c[..3][..2] == c[..2];
    assert c[..4][..3] == c[..3] && c[..5][..4] == c[..4] && c[..5] == c[..|c| - 1];
    assert Kept(capabilities, c[..1]) == Optional(capabilities, c[0]);
    assert Kept(capabilities, c[..2]) == Optional(capabilities, c[0]) + [c[1]];
    assert Kept(capabilities, c[..3]) == Optional(capabilities, c[0]) + [c[1]] + Optional(capabilities, c[2]);
    assert Kept(capabilities, c[..4]) == Optional(capabilities, c[0]) + [c[1]] + Optional(capabilities, c[2]) + Optional(capabilities, c[3]);
  }

  /** Every plan the planner returns, for any capability map, splits around its
      eight-second wait, with at least one action before it. */
  lemma PlannedPlansSplit(d: Decision, capabilities: Capabilities, actionTimeout: int) returns (w: nat)
    requires Planned(d, capabilities, actionTimeout).Ok?
    ensures SplitsAt(Planned(d, capabilities, actionTimeout).value, w)
    ensures SplitAt(Planned(d, capabilities, actionTimeout).value, w).waitFor == REPLY_WAIT
    ensures SplitAt(Planned(d, capabilities, actionTimeout).value, w).before.actions != []
  {
    var c := Candidates(actionTimeout);
    var plan := Planned(d, capabilities, actionTimeout).value;
    KeptCandidates(capabilities, actionTimeout);
    var lead := Optional(capabilities, c[0]) + [c[1]];
    var feedback := Optional(capabilities, c[2]) + Optional(capabilities, c[3]);
    var a := Optional(capabilities, c[0]) + [c[1]] + Optional(capabilities, c[2]) + Optional(capabilities, c[3]);
    assert a == lead + feedback;
    SplitsAround(plan, a, c[4], Optional(capabilities, c[5]));
    w := |a|;
    AllActionsConcat(lead, feedback);
    assert feedback != [] && Actions(feedback[0]) != [];
  }

  // ---------------------------------------------------------------------------
  // What a greeting does.

  /** The actions of the list that the driver offers. */
  function Offered(actions: seq<ActionSpec>, capabilities: Capabilities): seq<ActionSpec> {
    if actions == [] then []
    else (if Supported(capabilities, actions[0].actionType) then [actions[0]] else []) + Offered(actions[1..], capabilities)
  }

  /** Turn to the user, acknowledge and speak, before the wait; return to idle after it. */
  function Welcome(actionTimeout: int): seq<ActionSpec> {
    [ActionSpec(AttendUser, "", Attention, 200), ActionSpec(Acknowledge, "", Gesture, 500), ActionSpec(Speak, "welcome.return", Voice, actionTimeout)]
  }

  function Farewell(actionTimeout: int): seq<ActionSpec> { [ActionSpec(ReturnIdle, "", Attention, actionTimeout)] }

  function IfOffered(a: ActionSpec, capabilities: Capabilities): seq<ActionSpec> {
    if Supported(capabilities, a.actionType) then [a] else []
  }

  lemma {:induction false} OfferedThree(a: ActionSpec, b: ActionSpec, c: ActionSpec, capabilities: Capabilities)
    ensures Offered([a, b, c], capabilities) == IfOffered(a, capabilities) + IfOffered(b, capabilities) + IfOffered(c, capabilities)
    ensures Offered([a], capabilities) == IfOffered(a, capabilities)
  {
    assert [a, b, c][1..] == [b, c] && [b, c][1..] == [c] && [c][1..] == [] && [a][1..] == [];
    assert Offered([b, c], capabilities) == IfOffered(b, capabilities) + Offered([c], capabilities);
  }

  lemma OptionalActs(capabilities: Capabilities, n: Node)
    requires n.kind == Action && n.children == [] && n.action.Some?
    ensures AllActions(Optional(capabilities, n)) == IfOffered(n.action.value, capabilities)
  {
    OneLeaf(n);
  }

  lemma OneLeaf(n: Node)
    requires n.children == []
    ensures AllActions([n]) == if n.kind == Action && n.action.Some? then [n.action.value] else []
  {
    FirstActions([n]);
    assert [n][1..] == [] && AllActions([]) == [];
  }

  lemma {:induction false} FourParts(a: seq<Node>, b: seq<Node>, c: seq<Node>, d: seq<Node>)
    ensures AllActions(a + b + c + d) == AllActions(a) + AllActions(b) + AllActions(c) + AllActions(d)
  {
    AllActionsConcat(a + b + c, d);
    AllActionsConcat(a + b, c);
    AllActionsConcat(a, b);
  }

  lemma {:induction false} WelcomeActs(capabilities: Capabilities, actionTimeout: int)
    ensures var c := Candidates(actionTimeout);
      AllActions(Optional(capabilities, c[0]) + [c[1]] + Optional(capabilities, c[2]) + Optional(capabilities, c[3])) ==
      Offered(Welcome(actionTimeout), capabilities)
  {
    var c := Candidates(actionTimeout);
    FourParts(Optional(capabilities, c[0]), [c[1]], Optional(capabilities, c[2]), Optional(capabilities, c[3]));
    OptionalActs(capabilities, c[0]);
    OneLeaf(c[1]);
    OptionalActs(capabilities, c[2]);
    OptionalActs(capabilities, c[3]);
    var w := Welcome(actionTimeout);
    OfferedThree(w[0], w[1], w[2], capabilities);
  }

  /** Every planned greeting does what the driver offers of turning to the user,
      acknowledging and speaking, in this order, then waits eight seconds, and afterwards
      returns to idle if the driver offers that. */
  lemma {:induction false} GreetingDoes(d: Decision, capabilities: Capabilities, actionTimeout: int)
    requires Planned(d, capabilities, actionTimeout).Ok?
    ensures var plan := Planned(d, capabilities, actionTimeout).value;
      && PhasesOf(plan).Ok? && PhasesOf(plan).value.waitFor == 8000
      && PhasesOf(plan).value.before.actions == Numbered(Offered(Welcome(actionTimeout), capabilities), 1)
      && PhasesOf(plan).value.after.actions ==
           Numbered(Offered(Farewell(actionTimeout), capabilities), |Offered(Welcome(actionTimeout), capabilities)| + 1)
      && Actions(plan.root) == Offered(Welcome(actionTimeout), capabilities) + Offered(Farewell(actionTimeout), capabilities)
  {
    var before, wait, after := GreetingNodes(capabilities, actionTimeout);
    PhasesAround(Planned(d, capabilities, actionTimeout).value, before, wait, after);
  }

  /** The kept candidates, around their wait. */
  lemma GreetingNodes(capabilities: Capabilities, actionTimeout: int) returns (before: seq<Node>, wait: Node, after: seq<Node>)
    ensures Kept(capabilities, Candidates(actionTimeout)) == before + [wait] + after
    ensures wait.kind == WaitEvent && SupportedLeaf(wait) && wait.waitFor == 8000
    ensures forall n :: n in before || n in after ==> SupportedLeaf(n) && n.kind != WaitEvent
    ensures AllActions(before) == Offered(Welcome(actionTimeout), capabilities) && AllActions(after) == Offered(Farewell(actionTimeout), capabilities)
  {
    var c := Candidates(actionTimeout);
    KeptCandidates(capabilities, actionTimeout);
    before := Optional(capabilities, c[0]) + [c[1]] + Optional(capabilities, c[2]) + Optional(capabilities, c[3]);
    wait, after := c[4], Optional(capabilities, c[5]);
    WelcomeActs(capabilities, actionTimeout);
    FarewellActs(capabilities, actionTimeout);
  }

  lemma {:induction false} FarewellActs(capabilities: Capabilities, actionTimeout: int)
    ensures AllActions(Optional(capabilities, Candidates(actionTimeout)[5])) == Offered(Farewell(actionTimeout), capabilities)
  {
    OptionalActs(capabilities, Candidates(actionTimeout)[5]);
    var f := Farewell(actionTimeout)[0];
    OfferedThree(f, f, f, capabilities);
  }

  /** The phases of leaves around one wait. */
  lemma {:induction false} PhasesAround(plan: BehaviorPlan, a: seq<Node>, wait: Node, b: seq<Node>)
    requires plan.root.kind == Sequence && plan.root.children == a + [wait] + b
    requires wait.kind == WaitEvent && SupportedLeaf(wait)
    requires forall n :: n in a || n in b ==> SupportedLeaf(n) && n.kind != WaitEvent
    ensures PhasesOf(plan).Ok? && PhasesOf(plan).value.waitFor == wait.waitFor
    ensures PhasesOf(plan).value.before.actions == Numbered(AllActions(a), 1)
    ensures PhasesOf(plan).value.after.actions == Numbered(AllActions(b), |AllActions(a)| + 1)
    ensures Actions(plan.root) == AllActions(a) + AllActions(b)
  {
    SplitsAround(plan, a, wait, b);
    SplitIsUnique(plan, |a|);
    assert plan.root.children[..|a|] == a && plan.root.children[|a| + 1..] == b && plan.root.children[|a|] == wait;
    SplitActions(plan, |a|);
  }
}
