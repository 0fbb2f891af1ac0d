/** The observation ingress server: which transported observations reach the engine.
    It joins the lease registry, scenario readiness and the engine's reply window. */
module IngressServer {
  import opened Prelude
  import opened Capability
  import opened Observations
  import opened Permutations
  import opened Registries
  import Readiness
  import ReadinessLaws
  import Engines
  import EngineInvariant
  import EngineRuns
  import LeaseHistory

  datatype Denial =
    | LeaseNotFound | LeaseExpired | ProviderUnhealthy | ProviderNotSelected | InstanceMismatch | CapabilityNotDeclared
    | PayloadNotAllowed | InactiveSpeech | ReplyWindowClosed | ScenarioBlocked

  /** What a transport message maps to. */
  datatype Message =
    | Malformed
    | Refused(denial: Denial)
    | Message(input: Observation, capability: CapabilityKind, speech: bool, speechActive: bool)

  datatype Receipt =
    | ContextEnded | InvalidTransport | InvalidObservation
    | Denied(denial: Denial)
    | StaleObservation
    | Forwarded

  /** Which provider was selected for each capability. */
  type Selected = map<CapabilityKind, string>

  // ---------------------------------------------------------------------------
  // Selection.

  /** The map holds the first n selections and nothing else. */
  ghost predicate Chosen(sels: seq<Readiness.Selection>, n: nat, selected: Selected)
    requires n <= |sels|
  {
    && (forall j :: 0 <= j < n ==> sels[j].kind in selected && selected[sels[j].kind] == sels[j].providerID)
    && (forall k :: k in selected ==> exists j :: 0 <= j < n && sels[j].kind == k)
  }

  lemma ChosenStep(sels: seq<Readiness.Selection>, n: nat, selected: Selected)
    requires n < |sels| && Chosen(sels, n, selected)
    requires KeysDistinct(sels, (sel: Readiness.Selection) => sel.kind)
    ensures Chosen(sels, n + 1, selected[sels[n].kind := sels[n].providerID])
  {
    var longer := selected[sels[n].kind := sels[n].providerID];
    forall k | k in longer ensures exists j :: 0 <= j < n + 1 && sels[j].kind == k {
      if k == sels[n].kind {
        assert sels[n].kind == k;
      } else {
        var j :| 0 <= j < n && sels[j].kind == k;
      }
    }
  }

  /** The selection map a server is built with, for valid scenarios only: exactly the
      scenario's selections, required and optional. */
  method NewServer(s: Readiness.Scenario) returns (r: Option<Selected>)
    ensures r.Some? <==> Readiness.ValidScenario(s)
    ensures r.Some? ==> Chosen(Readiness.Selections(s), |Readiness.Selections(s)|, r.value)
  {
    var ok := Readiness.ValidateScenario(s);
    if !ok {
      return None;
    }
    var selected := SelectAll(s);
    r := Some(selected);
  }

  method SelectAll(s: Readiness.Scenario) returns (selected: Selected)
    requires Readiness.ValidScenario(s)
    ensures Chosen(Readiness.Selections(s), |Readiness.Selections(s)|, selected)
  {
    ghost var sels := Readiness.Selections(s);
    ReadinessLaws.SelectionKindsDistinct(s);
    selected := SelectRequired(s.required, sels);
    selected := SelectOptional(s.optional, |s.required|, sels, selected);
  }

  method SelectRequired(required: seq<Readiness.Requirement>, ghost sels: seq<Readiness.Selection>) returns (selected: Selected)
    requires |required| <= |sels| && KeysDistinct(sels, (sel: Readiness.Selection) => sel.kind)
    requires forall i :: 0 <= i < |required| ==> sels[i].kind == required[i].kind && sels[i].providerID == required[i].providerID
    ensures Chosen(sels, |required|, selected)
  {
    selected := map[];
    for i := 0 to |required|
      invariant Chosen(sels, i, selected)
    {
      ChosenStep(sels, i, selected);
      selected := selected[required[i].kind := required[i].providerID];
    }
  }

  method SelectOptional(optional: seq<Readiness.OptionalCapability>, ghost first: nat, ghost sels: seq<Readiness.Selection>, before: Selected)
    returns (selected: Selected)
    requires |sels| == first + |optional| && KeysDistinct(sels, (sel: Readiness.Selection) => sel.kind) && Chosen(sels, first, before)
    requires forall i :: 0 <= i < |optional| ==> sels[first + i].kind == optional[i].kind && sels[first + i].providerID == optional[i].providerID
    ensures Chosen(sels, |sels|, selected)
  {
    selected := before;
    for i := 0 to |optional|
      invariant Chosen(sels, first + i, selected)
    {
      ChosenStep(sels, first + i, selected);
      selected := selected[optional[i].kind := optional[i].providerID];
    }
  }

  // ---------------------------------------------------------------------------
  // Authorization.

  /** Why a held lease does not entitle a source to a capability, in order. */
  function LeaseDenial(l: Lease, selected: Selected, capability: CapabilityKind, sourceID: string, now: Time): Option<Denial> {
    if l.health.Unhealthy? then Some(ProviderUnhealthy)
    else if now >= l.expiresAt then Some(LeaseExpired)
    else if capability !in selected || selected[capability] != l.declaration.providerID then Some(ProviderNotSelected)
    else if l.declaration.instanceID != sourceID then Some(InstanceMismatch)
    else if capability !in l.declaration.capabilities then Some(CapabilityNotDeclared)
    else None
  }

  ghost function AuthorizeDenial(m: Leases, selected: Selected, leaseID: string, capability: CapabilityKind, sourceID: string, now: Time): Option<Denial> {
    match Holder(m, leaseID)
    case None => Some(LeaseNotFound)
    case Some(p) => LeaseDenial(m[p], selected, capability, sourceID, now)
  }

  method Authorize(registry: Registry, selected: Selected, leaseID: string, capability: CapabilityKind, sourceID: string, now: Time)
    returns (denial: Option<Denial>)
    requires registry.Valid()
    ensures denial == AuthorizeDenial(registry.Model(), selected, leaseID, capability, sourceID, now)
  {
    registry.ModelWellformed();
    var lease := registry.LeaseSnapshot(leaseID);
    if lease.None? {
      return Some(LeaseNotFound);
    }
    var provider := lease.value;
    if !provider.health.Healthy? {
      return Some(ProviderUnhealthy);
    }
    if now >= provider.expiresAt {
      return Some(LeaseExpired);
    }
    if capability !in selected || selected[capability] != provider.declaration.providerID {
      return Some(ProviderNotSelected);
    }
    if provider.declaration.instanceID != sourceID {
      return Some(InstanceMismatch);
    }
    for i := 0 to |provider.declaration.capabilities|
      invariant capability !in provider.declaration.capabilities[..i]
    {
      if provider.declaration.capabilities[i] == capability {
        return None;
      }
    }
    assert provider.declaration.capabilities[..|provider.declaration.capabilities|] == provider.declaration.capabilities;
    denial := Some(CapabilityNotDeclared);
  }

  // ---------------------------------------------------------------------------
  // Publishing.

  /** What the surroundings say during one Publish: the context before and after, the
      scenario's status, the clock and the published reply window. */
  datatype Surroundings = Surroundings(
    live: bool, status: Readiness.Status, now: Time, window: Option<Engines.ReplyWindow>, liveAtSubmit: bool)

  ghost function Publish(m: Leases, selected: Selected, leaseID: string, message: Message, w: Surroundings): Receipt {
    if !w.live then ContextEnded
    else if message.Malformed? then InvalidTransport
    else if message.Refused? then Denied(message.denial)
    else if w.status.Blocked? then Denied(ScenarioBlocked)
    else
      var o := message.input;
      var denial := AuthorizeDenial(m, selected, leaseID, message.capability, o.sourceID, w.now);
      if denial.Some? then Denied(denial.value)
      else if w.now > o.occurredAt + o.ttl then StaleObservation
      else if ValidateAt(o, w.now).Some? then (if ValidateAt(o, w.now).value.StaleInput? then StaleObservation else InvalidObservation)
      else if message.speech && !message.speechActive then Denied(InactiveSpeech)
      else if message.speech && !EngineRuns.ReplyWindowContains(w.window, o) then Denied(ReplyWindowClosed)
      else if !w.liveAtSubmit then ContextEnded
      else Forwarded
  }

  /** The lease is held, healthy, unexpired, of the selected provider and of the very
      instance that observed, and covers the capability. */
  ghost predicate Entitled(m: Leases, selected: Selected, leaseID: string, capability: CapabilityKind, sourceID: string, now: Time) {
    exists p :: p in m && m[p].leaseID == leaseID && EntitledAs(m[p], selected, capability, sourceID, now)
  }

  predicate EntitledAs(l: Lease, selected: Selected, capability: CapabilityKind, sourceID: string, now: Time) {
    && l.health.Healthy? && now < l.expiresAt
    && capability in selected && selected[capability] == l.declaration.providerID
    && l.declaration.instanceID == sourceID && capability in l.declaration.capabilities
  }

  lemma AuthorizedIffEntitled(m: Leases, selected: Selected, leaseID: string, capability: CapabilityKind, sourceID: string, now: Time)
    requires Wellformed(m)
    ensures AuthorizeDenial(m, selected, leaseID, capability, sourceID, now).None? <==> Entitled(m, selected, leaseID, capability, sourceID, now)
  {
    if Entitled(m, selected, leaseID, capability, sourceID, now) {
      var p :| p in m && m[p].leaseID == leaseID && EntitledAs(m[p], selected, capability, sourceID, now);
      HolderUnique(m, p);
    }
  }

  /** Exactly what reaches the engine: a live call with a well-formed message for a
      scenario that is not blocked, from an entitled source, valid and in time, and if
      it is speech, active and inside the published reply window. */
  lemma ForwardedIff(m: Leases, selected: Selected, leaseID: string, message: Message, w: Surroundings)
    requires Wellformed(m)
    ensures Publish(m, selected, leaseID, message, w).Forwarded? <==>
      && w.live && w.liveAtSubmit && message.Message? && !w.status.Blocked?
      && Entitled(m, selected, leaseID, message.capability, message.input.sourceID, w.now)
      && ValidateAt(message.input, w.now).None?
      && (message.speech ==> message.speechActive && EngineRuns.ReplyWindowContains(w.window, message.input))
  {
    if message.Message? {
      AuthorizedIffEntitled(m, selected, leaseID, message.capability, message.input.sourceID, w.now);
      assert ValidateAt(message.input, w.now).None? ==> w.now <= message.input.occurredAt + message.input.ttl;
    }
  }

  /** The message got as far as its own checks: a live call, a well-formed message, a
      scenario that is not blocked, an entitled source. */
  ghost predicate Reaches(m: Leases, selected: Selected, leaseID: string, message: Message, w: Surroundings) {
    && w.live && message.Message? && !w.status.Blocked?
    && Entitled(m, selected, leaseID, message.capability, message.input.sourceID, w.now)
  }

  /** What a refused message is told: a blocked scenario before anything about the lease,
      the lease before the message, its age before its content, its content before the
      reply window. */
  lemma RefusedBecause(m: Leases, selected: Selected, leaseID: string, message: Message, w: Surroundings)
    requires Wellformed(m) && w.live && message.Message?
    ensures var r, o := Publish(m, selected, leaseID, message, w), message.input;
      && (r == Denied(ScenarioBlocked) <==> w.status.Blocked?)
      && (r == StaleObservation <==> Reaches(m, selected, leaseID, message, w) && w.now > o.occurredAt + o.ttl)
      && (r == InvalidObservation <==>
            Reaches(m, selected, leaseID, message, w) && w.now <= o.occurredAt + o.ttl && ValidateAt(o, w.now).Some?)
      && (r == Denied(InactiveSpeech) <==>
            Reaches(m, selected, leaseID, message, w) && ValidateAt(o, w.now).None? && message.speech && !message.speechActive)
      && (r == Denied(ReplyWindowClosed) <==>
            && Reaches(m, selected, leaseID, message, w) && ValidateAt(o, w.now).None? && message.speech && message.speechActive
            && !EngineRuns.ReplyWindowContains(w.window, o))
  {
    AuthorizedIffEntitled(m, selected, leaseID, message.capability, message.input.sourceID, w.now);
  }

  /** Why a lease is refused: unknown; else unhealthy, before expired, before the
      selection, before the instance, before the capability. */
  lemma LeaseRefusedBecause(m: Leases, selected: Selected, leaseID: string, capability: CapabilityKind, sourceID: string, now: Time)
    requires Wellformed(m)
    ensures var denial := AuthorizeDenial(m, selected, leaseID, capability, sourceID, now);
      && (denial == Some(LeaseNotFound) <==> forall p :: p in m ==> m[p].leaseID != leaseID)
      && forall p :: p in m && m[p].leaseID == leaseID ==>
           var l := m[p];
           var chosen := capability in selected && selected[capability] == p;
           && (denial == Some(ProviderUnhealthy) <==> l.health.Unhealthy?)
           && (denial == Some(LeaseExpired) <==> l.health.Healthy? && l.expiresAt <= now)
           && (denial == Some(ProviderNotSelected) <==> l.health.Healthy? && now < l.expiresAt && !chosen)
           && (denial == Some(InstanceMismatch) <==> l.health.Healthy? && now < l.expiresAt && chosen && l.declaration.instanceID != sourceID)
           && (denial == Some(CapabilityNotDeclared) <==>
                 && l.health.Healthy? && now < l.expiresAt && chosen && l.declaration.instanceID == sourceID
                 && capability !in l.declaration.capabilities)
  {
    forall p | p in m && m[p].leaseID == leaseID ensures Holder(m, leaseID) == Some(p) {
      HolderUnique(m, p);
    }
  }

  // ---------------------------------------------------------------------------
  // Across components.

  /** The snapshot of a lease that readiness evaluates. */
  function SnapshotOf(l: Lease): ProviderSnapshot {
    var d := l.declaration;
    ProviderSnapshot(d.providerID, d.instanceID, d.protocolVersion, d.implementationVersion, d.capabilities, l.health, l.expiresAt)
  }

  /** The server and readiness judge a provider by separate code, and agree: for a
      capability without biometric rules, the holder of the selected provider's lease
      is entitled to it exactly when readiness finds the selection available. */
  lemma EntitledIffAvailable(m: Leases, selected: Selected, p: string, sel: Readiness.Selection, policy: Readiness.BiometricPolicy, now: Time)
    requires Wellformed(m) && p in m && sel.providerID == p && sel.kind in selected && selected[sel.kind] == p
    requires !Readiness.IsBiometric(sel.kind)
    ensures AuthorizeDenial(m, selected, m[p].leaseID, sel.kind, m[p].declaration.instanceID, now).None? <==>
      Readiness.Code(sel, Some(SnapshotOf(m[p])), policy, now).None?
  {
    HolderUnique(m, p);
  }

  /** Over every history of registry calls, whatever is forwarded comes under a lease
      that was issued or renewed less than one lease duration ago. */
  lemma {:induction false} ForwardedUnderFreshLease(history: seq<LeaseHistory.TimedCall>, duration: int, selected: Selected, leaseID: string, message: Message, w: Surroundings)
    requires LeaseHistory.ValidHistory(history, duration)
    requires Publish(LeaseHistory.After(history, duration), selected, leaseID, message, w).Forwarded?
    ensures var touched := LeaseHistory.LastTouch(history, duration, leaseID);
      touched.Some? && w.now - duration < touched.value
  {
    var m := LeaseHistory.After(history, duration);
    LeaseHistory.ExpiryIsLastTouch(history, duration);
    ForwardedIff(m, selected, leaseID, message, w);
    var p :| p in m && m[p].leaseID == leaseID && EntitledAs(m[p], selected, message.capability, message.input.sourceID, w.now);
    assert LeaseHistory.OnTime(history, duration, p);
  }

  /** Speech that passes the server while the engine is quiescent is accepted as the
      reply, if the engine admits it at all. */
  lemma ForwardedSpeechIsAccepted(m: Leases, selected: Selected, leaseID: string, message: Message, w: Surroundings,
                                  c: Engines.Config, s: Engines.EngineState, env: Engines.ProcessEnv)
    requires Wellformed(m) && EngineInvariant.Inv(c, s) && w.window == s.published && env.context.Live?
    requires Publish(m, selected, leaseID, message, w).Forwarded? && message.speech && message.input.userReply
    requires AcceptFault(s.ingress, message.input, env.now).None?
    ensures var r := Engines.Process(c, s, message.input, env).1;
      |r.outcomes| == 1 && r.outcomes[0].kind.Accepted?
  {
    ForwardedIff(m, selected, leaseID, message, w);
    EngineRuns.GateIffAccepted(c, s, message.input, env);
  }
}
