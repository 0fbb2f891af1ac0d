/** Scenario readiness: validate a capability selection against provider snapshots and
    biometric policy, and list what is not available at a given time. */
module Readiness {
  import opened Prelude
  import opened Capability
  import opened Permutations

  datatype Fallback = NoFallback | AnonymousSubject | NoVoiceReply | NoTranscript | VisualOnly | AudioOnly

  datatype Requirement = Requirement(kind: CapabilityKind, providerID: string)
  datatype OptionalCapability = OptionalCapability(kind: CapabilityKind, providerID: string, fallback: Fallback)
  datatype Scenario = Scenario(id: string, required: seq<Requirement>, optional: seq<OptionalCapability>)
  datatype BiometricPolicy = BiometricPolicy(enabled: bool, authorized: seq<CapabilityKind>, enrolled: seq<CapabilityKind>)

  datatype Status = Ready | Degraded | Blocked
  datatype Issue = Issue(capability: CapabilityKind, providerID: string, code: Fault, fallback: Fallback)
  datatype Activation = Activation(status: Status, issues: seq<Issue>)

  predicate IsBiometric(k: CapabilityKind) {
    k in {FaceDetection, FaceIdentification, FaceLiveness, SpeakerIdentification, SpeakerVerification}
  }

  predicate RequiresEnrollment(k: CapabilityKind) { k in {FaceIdentification, SpeakerIdentification, SpeakerVerification} }

  predicate ValidFallback(k: CapabilityKind, f: Fallback) {
    match k
    case FaceIdentification => f.AnonymousSubject?
    case FaceLiveness => f.AnonymousSubject?
    case SpeakerIdentification => f.AnonymousSubject?
    case SpeakerVerification => f.AnonymousSubject?
    case VoiceActivity => f.NoVoiceReply?
    case SpeechTranscription => f.NoTranscript?
    case SpeechSynthesis => f.VisualOnly?
    case DisplayText => f.AudioOnly?
    case AvatarAttend => f.AudioOnly?
    case AvatarExpression => f.AudioOnly?
    case _ => false
  }

  /** Alphabetical position of a capability's name. */
  function Rank(k: CapabilityKind): nat {
    match k
    case AttentionEstimation => 0
    case AvatarAttend => 1
    case AvatarExpression => 2
    case BusyState => 3
    case DeviceState => 4
    case DisplayText => 5
    case FaceDetection => 6
    case FaceIdentification => 7
    case FaceLiveness => 8
    case Gesture => 9
    case GestureDetection => 10
    case Light => 11
    case Locomotion => 12
    case PersonPresence => 13
    case SpeakerIdentification => 14
    case SpeakerVerification => 15
    case SpeechSynthesis => 16
    case SpeechTranscription => 17
    case VoiceActivity => 18
    case OtherKind(_) => 19
  }

  // ---------------------------------------------------------------------------
  // Validation.

  predicate ValidSelection(k: CapabilityKind, providerID: string) { !k.OtherKind? && providerID != "" }

  ghost predicate ValidScenario(s: Scenario) {
    && s.id != "" && |s.required| + |s.optional| > 0
    && (forall r :: r in s.required ==> ValidSelection(r.kind, r.providerID))
    && (forall o :: o in s.optional ==> ValidSelection(o.kind, o.providerID) && ValidFallback(o.kind, o.fallback))
    && KeysDistinct(s.required, (r: Requirement) => r.kind)
    && KeysDistinct(s.optional, (o: OptionalCapability) => o.kind)
    && (forall r, o :: r in s.required && o in s.optional ==> r.kind != o.kind)
  }

  ghost predicate ValidProvider(p: ProviderSnapshot) {
    && p.providerID != "" && p.instanceID != "" && p.protocolVersion != "" && p.implementationVersion != ""
    && p.leaseExpiresAt != UNSET && p.capabilities != []
    && (forall c :: c in p.capabilities ==> !c.OtherKind?) && Distinct(p.capabilities)
  }

  ghost predicate ValidProviders(ps: seq<ProviderSnapshot>) {
    (forall p :: p in ps ==> ValidProvider(p)) && KeysDistinct(ps, (p: ProviderSnapshot) => p.providerID)
  }

  ghost predicate ValidKinds(kinds: seq<CapabilityKind>, allowed: CapabilityKind -> bool) {
    (forall k :: k in kinds ==> !k.OtherKind? && allowed(k)) && KeysDistinct(kinds, (k: CapabilityKind) => k)
  }

  ghost predicate ValidPolicy(p: BiometricPolicy) {
    ValidKinds(p.authorized, IsBiometric) && ValidKinds(p.enrolled, RequiresEnrollment)
  }

  ghost predicate ValidInputs(s: Scenario, ps: seq<ProviderSnapshot>, policy: BiometricPolicy) {
    ValidScenario(s) && ValidProviders(ps) && ValidPolicy(policy)
  }

  function Lookup(ps: seq<ProviderSnapshot>, id: string): Option<ProviderSnapshot> {
    if ps == [] then None
    else if Last(ps).providerID == id then Some(Last(ps))
    else Lookup(ps[..|ps| - 1], id)
  }

  // ---------------------------------------------------------------------------
  // Evaluation.

  /** One selected capability, required or optional. */
  datatype Selection = Selection(kind: CapabilityKind, providerID: string, fallback: Fallback, required: bool)

  function Selections(s: Scenario): seq<Selection> {
    seq(|s.required|, i requires 0 <= i < |s.required| => Selection(s.required[i].kind, s.required[i].providerID, NoFallback, true)) +
    seq(|s.optional|, i requires 0 <= i < |s.optional| => Selection(s.optional[i].kind, s.optional[i].providerID, s.optional[i].fallback, false))
  }

  /** Why a selection is not available, if it is not. */
  function Code(sel: Selection, provider: Option<ProviderSnapshot>, policy: BiometricPolicy, now: Time): Option<Fault> {
    if provider.None? then Some(Unavailable)
    else if sel.kind !in provider.value.capabilities then Some(CapabilityMissing)
    else if provider.value.health.Unhealthy? then Some(Unavailable)
    else if now >= provider.value.leaseExpiresAt then Some(DeadlineExceeded)
    else if !IsBiometric(sel.kind) then None
    else if !policy.enabled then Some(PolicyBlocked)
    else if sel.kind !in policy.authorized then Some(PermissionDenied)
    else if RequiresEnrollment(sel.kind) && sel.kind !in policy.enrolled then Some(PolicyBlocked)
    else None
  }

  function IssueFor(sel: Selection, ps: seq<ProviderSnapshot>, policy: BiometricPolicy, now: Time): Option<Issue> {
    match Code(sel, Lookup(ps, sel.providerID), policy, now)
    case None => None
    case Some(code) => Some(Issue(sel.kind, sel.providerID, code, sel.fallback))
  }

  /** The issues of the selections, in order. */
  function Collected(sels: seq<Selection>, ps: seq<ProviderSnapshot>, policy: BiometricPolicy, now: Time): seq<Issue> {
    if sels == [] then []
    else
      var before := Collected(sels[..|sels| - 1], ps, policy, now);
      match IssueFor(Last(sels), ps, policy, now)
      case None => before
      case Some(i) => before + [i]
  }

  predicate Failing(sel: Selection, ps: seq<ProviderSnapshot>, policy: BiometricPolicy, now: Time) {
    IssueFor(sel, ps, policy, now).Some?
  }

  /** Blocked when a required capability is missing, degraded when only optional ones
      are, ready when none is. */
  ghost function StatusAt(s: Scenario, ps: seq<ProviderSnapshot>, policy: BiometricPolicy, now: Time): Status {
    if exists sel :: sel in Selections(s) && sel.required && Failing(sel, ps, policy, now) then Blocked
    else if exists sel :: sel in Selections(s) && Failing(sel, ps, policy, now) then Degraded
    else Ready
  }

  predicate Less(a: Issue, b: Issue) { Rank(a.capability) < Rank(b.capability) }

  /** The comparison also breaks ties by provider; selected kinds never tie. */
  ghost predicate Ordered(issues: seq<Issue>) {
    forall i, j :: 0 <= i < j < |issues| ==> !Less(issues[j], issues[i])
  }

  /** What an evaluation may return when its sort may order ties as it likes. */
  ghost predicate Outcome(s: Scenario, ps: seq<ProviderSnapshot>, policy: BiometricPolicy, now: Time, r: Result<Activation>) {
    if !ValidInputs(s, ps, policy) then r == Err(InvalidInput)
    else
      && r.Ok? && r.value.status == StatusAt(s, ps, policy, now)
      && Ordered(r.value.issues) && Permuted(r.value.issues, Collected(Selections(s), ps, policy, now))
  }

  // ---------------------------------------------------------------------------
  // The loops.

  method ValidateScenario(s: Scenario) returns (ok: bool)
    ensures ok <==> ValidScenario(s)
  {
    if s.id == "" || |s.required| + |s.optional| == 0 {
      return false;
    }
    var selected: set<CapabilityKind> := {};
    for i := 0 to |s.required|
      invariant forall j :: 0 <= j < i ==> ValidSelection(s.required[j].kind, s.required[j].providerID)
      invariant KeysDistinct(s.required[..i], (r: Requirement) => r.kind)
      invariant forall k :: k in selected <==> exists j :: 0 <= j < i && s.required[j].kind == k
    {
      var r := s.required[i];
      assert r in s.required;
      if !ValidSelection(r.kind, r.providerID) || r.kind in selected {
        return false;
      }
      selected := selected + {r.kind};
    }
    assert s.required[..|s.required|] == s.required;
    ok := ValidateOptional(s, selected);
  }

  method ValidateOptional(s: Scenario, required: set<CapabilityKind>) returns (ok: bool)
    requires forall k :: k in required <==> exists j :: 0 <= j < |s.required| && s.required[j].kind == k
    ensures ok <==>
      && (forall o :: o in s.optional ==> ValidSelection(o.kind, o.providerID) && ValidFallback(o.kind, o.fallback))
      && KeysDistinct(s.optional, (o: OptionalCapability) => o.kind)
      && (forall r, o :: r in s.required && o in s.optional ==> r.kind != o.kind)
  {
    var selected := required;
    for i := 0 to |s.optional|
      invariant forall j :: 0 <= j < i ==> ValidSelection(s.optional[j].kind, s.optional[j].providerID) && ValidFallback(s.optional[j].kind, s.optional[j].fallback)
      invariant KeysDistinct(s.optional[..i], (o: OptionalCapability) => o.kind)
      invariant forall j :: 0 <= j < i ==> s.optional[j].kind !in required
      invariant forall k :: k in selected <==> k in required || exists j :: 0 <= j < i && s.optional[j].kind == k
    {
      var o := s.optional[i];
      assert o in s.optional;
      if !ValidSelection(o.kind, o.providerID) || o.kind in selected || !ValidFallback(o.kind, o.fallback) {
        return false;
      }
      selected := selected + {o.kind};
    }
    assert s.optional[..|s.optional|] == s.optional;
    forall r, o | r in s.required && o in s.optional ensures r.kind != o.kind {
      assert r.kind in required;
    }
    ok := true;
  }

  method ValidateCapabilities(capabilities: seq<CapabilityKind>) returns (ok: bool)
    ensures ok <==> (forall c :: c in capabilities ==> !c.OtherKind?) && Distinct(capabilities)
  {
    var seen: set<CapabilityKind> := {};
    for i := 0 to |capabilities|
      invariant forall j :: 0 <= j < i ==> !capabilities[j].OtherKind?
      invariant Distinct(capabilities[..i])
      invariant forall k :: k in seen <==> exists j :: 0 <= j < i && capabilities[j] == k
    {
      assert capabilities[i] in capabilities;
      if capabilities[i].OtherKind? || capabilities[i] in seen {
        return false;
      }
      seen := seen + {capabilities[i]};
    }
    assert capabilities[..|capabilities|] == capabilities;
    ok := true;
  }

  /** What the provider loop knows after the first i snapshots. */
  ghost predicate Indexed(ps: seq<ProviderSnapshot>, i: nat, byID: map<string, ProviderSnapshot>)
    requires i <= |ps|
  {
    && (forall j :: 0 <= j < i ==> ValidProvider(ps[j]) && ps[j].providerID in byID)
    && KeysDistinct(ps[..i], (p: ProviderSnapshot) => p.providerID)
    && forall id :: Lookup(ps[..i], id) == if id in byID then Some(byID[id]) else None
  }

  /** A lookup that finds something finds it among the snapshots. */
  lemma {:induction false} LookupIn(ps: seq<ProviderSnapshot>, id: string)
    ensures Lookup(ps, id).Some? ==> exists j :: 0 <= j < |ps| && ps[j].providerID == id
  {
    if ps != [] {
      LookupIn(ps[..|ps| - 1], id);
    }
  }

  lemma IndexedStep(ps: seq<ProviderSnapshot>, i: nat, byID: map<string, ProviderSnapshot>)
    requires i < |ps| && Indexed(ps, i, byID) && ValidProvider(ps[i]) && ps[i].providerID !in byID
    ensures Indexed(ps, i + 1, byID[ps[i].providerID := ps[i]])
  {
    assert ps[..i + 1][..i] == ps[..i];
  }

  /** A repeated provider id makes the list invalid. */
  lemma IndexedTwice(ps: seq<ProviderSnapshot>, i: nat, byID: map<string, ProviderSnapshot>)
    requires i < |ps| && Indexed(ps, i, byID) && ps[i].providerID in byID
    ensures !ValidProviders(ps)
  {
    LookupIn(ps[..i], ps[i].providerID);
    var j :| 0 <= j < i && ps[..i][j].providerID == ps[i].providerID;
    assert ps[j].providerID == ps[i].providerID;
  }

  method ValidateProvider(p: ProviderSnapshot) returns (ok: bool)
    ensures ok <==> ValidProvider(p)
  {
    if p.providerID == "" || p.instanceID == "" || p.protocolVersion == "" || p.implementationVersion == "" ||
       p.leaseExpiresAt == UNSET || |p.capabilities| == 0 {
      return false;
    }
    ok := ValidateCapabilities(p.capabilities);
  }

  method ValidateProviders(ps: seq<ProviderSnapshot>) returns (r: Option<map<string, ProviderSnapshot>>)
    ensures r.Some? <==> ValidProviders(ps)
    ensures r.Some? ==> forall id :: Lookup(ps, id) == if id in r.value then Some(r.value[id]) else None
  {
    var byID: map<string, ProviderSnapshot> := map[];
    for i := 0 to |ps|
      invariant Indexed(ps, i, byID)
    {
      var ok := ValidateProvider(ps[i]);
      if !ok {
        assert ps[i] in ps;
        return None;
      }
      if ps[i].providerID in byID {
        IndexedTwice(ps, i, byID);
        return None;
      }
      IndexedStep(ps, i, byID);
      byID := byID[ps[i].providerID := ps[i]];
    }
    assert ps[..|ps|] == ps;
    r := Some(byID);
  }

  method ValidatePolicyKinds(kinds: seq<CapabilityKind>, allowed: CapabilityKind -> bool) returns (ok: bool)
    ensures ok <==> ValidKinds(kinds, allowed)
  {
    var seen: set<CapabilityKind> := {};
    for i := 0 to |kinds|
      invariant forall j :: 0 <= j < i ==> !kinds[j].OtherKind? && allowed(kinds[j])
      invariant KeysDistinct(kinds[..i], (k: CapabilityKind) => k)
      invariant forall k :: k in seen <==> exists j :: 0 <= j < i && kinds[j] == k
    {
      assert kinds[i] in kinds;
      if kinds[i].OtherKind? || !allowed(kinds[i]) || kinds[i] in seen {
        return false;
      }
      seen := seen + {kinds[i]};
    }
    assert kinds[..|kinds|] == kinds;
    ok := true;
  }

  // ---------------------------------------------------------------------------
  // Sorting and evaluating.

  /** Insert an issue before the first one that must follow it. */
  function Inserted(issues: seq<Issue>, x: Issue): (r: seq<Issue>)
    ensures multiset(r) == multiset(issues) + multiset{x}
  {
    if issues == [] then [x]
    else if Less(x, Last(issues)) then
      assert issues == issues[..|issues| - 1] + [Last(issues)];
      Inserted(issues[..|issues| - 1], x) + [Last(issues)]
    else issues + [x]
  }

  lemma {:induction false} InsertedOrdered(issues: seq<Issue>, x: Issue)
    requires Ordered(issues)
    ensures Ordered(Inserted(issues, x))
  {
    if issues != [] && Less(x, Last(issues)) {
      var init := issues[..|issues| - 1];
      InsertedOrdered(init, x);
      forall y | y in Inserted(init, x) ensures !Less(Last(issues), y) {
        assert y in multiset(Inserted(init, x));
        assert y == x || y in init;
      }
    }
  }

  /** One sort that meets the sort's contract. */
  method SortIssues(issues: seq<Issue>) returns (sorted: seq<Issue>)
    ensures Ordered(sorted) && Permuted(sorted, issues)
  {
    sorted := [];
    for i := 0 to |issues|
      invariant Ordered(sorted) && multiset(sorted) == multiset(issues[..i])
    {
      InsertedOrdered(sorted, issues[i]);
      assert issues[..i + 1] == issues[..i] + [issues[i]];
      sorted := Inserted(sorted, issues[i]);
    }
    assert issues[..|issues|] == issues;
  }

  /** Evaluate the selections one after the other. */
  method CollectIssues(sels: seq<Selection>, ps: seq<ProviderSnapshot>, byID: map<string, ProviderSnapshot>, policy: BiometricPolicy, now: Time)
    returns (issues: seq<Issue>, requiredBlocked: bool)
    requires forall id :: Lookup(ps, id) == if id in byID then Some(byID[id]) else None
    ensures issues == Collected(sels, ps, policy, now)
    ensures requiredBlocked <==> exists sel :: sel in sels && sel.required && Failing(sel, ps, policy, now)
    ensures issues != [] <==> exists sel :: sel in sels && Failing(sel, ps, policy, now)
  {
    issues, requiredBlocked := [], false;
    for i := 0 to |sels|
      invariant issues == Collected(sels[..i], ps, policy, now)
      invariant requiredBlocked <==> exists j :: 0 <= j < i && sels[j].required && Failing(sels[j], ps, policy, now)
      invariant issues != [] <==> exists j :: 0 <= j < i && Failing(sels[j], ps, policy, now)
    {
      var sel := sels[i];
      var code := Code(sel, if sel.providerID in byID then Some(byID[sel.providerID]) else None, policy, now);
      assert sels[..i + 1][..i] == sels[..i];
      if code.Some? {
        issues := issues + [Issue(sel.kind, sel.providerID, code.value, sel.fallback)];
        requiredBlocked := requiredBlocked || sel.required;
      }
    }
    assert sels[..|sels|] == sels;
  }

  method EvaluateAt(s: Scenario, ps: seq<ProviderSnapshot>, policy: BiometricPolicy, now: Time) returns (r: Result<Activation>)
    ensures Outcome(s, ps, policy, now, r)
  {
    var scenarioOk := ValidateScenario(s);
    if !scenarioOk {
      return Err(InvalidInput);
    }
    var byID := ValidateProviders(ps);
    if byID.None? {
      return Err(InvalidInput);
    }
    var authorizedOk := ValidatePolicyKinds(policy.authorized, IsBiometric);
    if !authorizedOk {
      return Err(InvalidInput);
    }
    var enrolledOk := ValidatePolicyKinds(policy.enrolled, RequiresEnrollment);
    if !enrolledOk {
      return Err(InvalidInput);
    }
    var issues, requiredBlocked := CollectIssues(Selections(s), ps, byID.value, policy, now);
    var sorted := SortIssues(issues);
    assert |sorted| == |multiset(sorted)| == |multiset(issues)| == |issues|;
    r := Ok(Activation(if requiredBlocked then Blocked else if |issues| > 0 then Degraded else Ready, sorted));
  }
}
