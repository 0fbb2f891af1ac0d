/** What readiness promises: the order of the inputs does not matter, and time alone
    never makes a scenario more ready. */
module ReadinessLaws {
  import opened Prelude
  import opened Capability
  import opened Permutations
  import opened Readiness

  // ---------------------------------------------------------------------------
  // Membership.

  lemma SelectionMembers(s: Scenario, sel: Selection)
    ensures sel in Selections(s) <==>
      || (sel.required && sel.fallback == NoFallback && Requirement(sel.kind, sel.providerID) in s.required)
      || (!sel.required && OptionalCapability(sel.kind, sel.providerID, sel.fallback) in s.optional)
  {
    var sels := Selections(s);
    if sel in sels {
      var i :| 0 <= i < |sels| && sels[i] == sel;
      if i < |s.required| {
        assert s.required[i] in s.required;
      } else {
        assert s.optional[i - |s.required|] in s.optional;
      }
    }
    if sel.required && sel.fallback == NoFallback && Requirement(sel.kind, sel.providerID) in s.required {
      var i :| 0 <= i < |s.required| && s.required[i] == Requirement(sel.kind, sel.providerID);
      assert sels[i] == sel;
    }
    if !sel.required && OptionalCapability(sel.kind, sel.providerID, sel.fallback) in s.optional {
      var i :| 0 <= i < |s.optional| && s.optional[i] == OptionalCapability(sel.kind, sel.providerID, sel.fallback);
      assert sels[|s.required| + i] == sel;
    }
  }

  lemma SelectionKindsDistinct(s: Scenario)
    requires ValidScenario(s)
    ensures KeysDistinct(Selections(s), (sel: Selection) => sel.kind)
  {
    var sels := Selections(s);
    forall i, j | 0 <= i < j < |sels| ensures sels[i].kind != sels[j].kind {
      if i < |s.required| {
        assert s.required[i] in s.required;
      }
      if j >= |s.required| {
        assert s.optional[j - |s.required|] in s.optional;
      }
    }
  }

  /** Looking up a provider finds its one snapshot, wherever it stands. */
  lemma {:induction false} LookupMembers(ps: seq<ProviderSnapshot>, id: string)
    requires KeysDistinct(ps, (p: ProviderSnapshot) => p.providerID)
    ensures forall p :: Lookup(ps, id) == Some(p) <==> p in ps && p.providerID == id
  {
    if ps != [] {
      var init := ps[..|ps| - 1];
      LookupMembers(init, id);
      assert ps == init + [Last(ps)];
    }
  }

  lemma {:induction false} CollectedMembers(sels: seq<Selection>, ps: seq<ProviderSnapshot>, policy: BiometricPolicy, now: Time, x: Issue)
    ensures x in Collected(sels, ps, policy, now) <==> exists sel :: sel in sels && IssueFor(sel, ps, policy, now) == Some(x)
  {
    if sels != [] {
      var init := sels[..|sels| - 1];
      CollectedMembers(init, ps, policy, now, x);
      assert sels == init + [Last(sels)];
    }
  }

  lemma {:induction false} CollectedDistinct(sels: seq<Selection>, ps: seq<ProviderSnapshot>, policy: BiometricPolicy, now: Time)
    requires KeysDistinct(sels, (sel: Selection) => sel.kind)
    ensures KeysDistinct(Collected(sels, ps, policy, now), (x: Issue) => x.capability)
  {
    if sels != [] {
      var init := sels[..|sels| - 1];
      CollectedDistinct(init, ps, policy, now);
      var before := Collected(init, ps, policy, now);
      forall i | 0 <= i < |before| ensures before[i].capability != Last(sels).kind {
        CollectedMembers(init, ps, policy, now, before[i]);
        var sel :| sel in init && IssueFor(sel, ps, policy, now) == Some(before[i]);
        var k :| 0 <= k < |init| && init[k] == sel;
        assert sels[k].kind != sels[|sels| - 1].kind;
      }
    }
  }

  // ---------------------------------------------------------------------------
  // Reordering.

  /** The same scenario, providers and policy with their lists reordered. */
  ghost predicate Reordered(s: Scenario, t: Scenario, ps: seq<ProviderSnapshot>, qs: seq<ProviderSnapshot>, policy: BiometricPolicy, other: BiometricPolicy) {
    && s.id == t.id && Permuted(s.required, t.required) && Permuted(s.optional, t.optional) && Permuted(ps, qs)
    && policy.enabled == other.enabled && Permuted(policy.authorized, other.authorized) && Permuted(policy.enrolled, other.enrolled)
  }

  lemma PermutedLength<T(!new)>(a: seq<T>, b: seq<T>)
    requires Permuted(a, b)
    ensures |a| == |b|
  {
    assert |multiset(a)| == |a| && |multiset(b)| == |b|;
  }

  lemma ReorderedScenarioValid(s: Scenario, t: Scenario)
    requires s.id == t.id && Permuted(s.required, t.required) && Permuted(s.optional, t.optional) && ValidScenario(s)
    ensures ValidScenario(t)
  {
    PermutedLength(s.required, t.required);
    PermutedLength(s.optional, t.optional);
    forall r | r in t.required ensures r in s.required {
      SameMembers(s.required, t.required, r);
    }
    forall o | o in t.optional ensures o in s.optional {
      SameMembers(s.optional, t.optional, o);
    }
    PermutedKeysDistinct(s.required, t.required, (r: Requirement) => r.kind);
    PermutedKeysDistinct(s.optional, t.optional, (o: OptionalCapability) => o.kind);
  }

  lemma {:induction false} ReorderedProvidersValid(ps: seq<ProviderSnapshot>, qs: seq<ProviderSnapshot>)
    requires Permuted(ps, qs) && ValidProviders(ps)
    ensures ValidProviders(qs) && forall id :: Lookup(qs, id) == Lookup(ps, id)
  {
    PermutedKeysDistinct(ps, qs, (p: ProviderSnapshot) => p.providerID);
    forall p | p in qs ensures p in ps {
      SameMembers(ps, qs, p);
    }
    forall id ensures Lookup(qs, id) == Lookup(ps, id) {
      LookupMembers(ps, id);
      LookupMembers(qs, id);
      forall p ensures p in ps <==> p in qs {
        SameMembers(ps, qs, p);
      }
      assert Lookup(ps, id).Some? ==> Lookup(qs, id) == Some(Lookup(ps, id).value);
      assert Lookup(qs, id).Some? ==> Lookup(ps, id) == Some(Lookup(qs, id).value);
    }
  }

  lemma ReorderedKindsValid(a: seq<CapabilityKind>, b: seq<CapabilityKind>, allowed: CapabilityKind -> bool)
    requires Permuted(a, b) && ValidKinds(a, allowed)
    ensures ValidKinds(b, allowed)
  {
    PermutedKeysDistinct(a, b, (k: CapabilityKind) => k);
    forall k | k in b ensures k in a {
      SameMembers(a, b, k);
    }
  }

  lemma ReorderedValid(s: Scenario, t: Scenario, ps: seq<ProviderSnapshot>, qs: seq<ProviderSnapshot>, policy: BiometricPolicy, other: BiometricPolicy)
    requires Reordered(s, t, ps, qs, policy, other) && ValidInputs(s, ps, policy)
    ensures ValidInputs(t, qs, other)
  {
    ReorderedScenarioValid(s, t);
    ReorderedProvidersValid(ps, qs);
    ReorderedKindsValid(policy.authorized, other.authorized, IsBiometric);
    ReorderedKindsValid(policy.enrolled, other.enrolled, RequiresEnrollment);
  }

  lemma ReorderedIssue(s: Scenario, t: Scenario, ps: seq<ProviderSnapshot>, qs: seq<ProviderSnapshot>, policy: BiometricPolicy, other: BiometricPolicy, now: Time, sel: Selection)
    requires Reordered(s, t, ps, qs, policy, other) && ValidInputs(s, ps, policy)
    ensures sel in Selections(s) <==> sel in Selections(t)
    ensures IssueFor(sel, ps, policy, now) == IssueFor(sel, qs, other, now)
  {
    SelectionMembers(s, sel);
    SelectionMembers(t, sel);
    SameMembers(s.required, t.required, Requirement(sel.kind, sel.providerID));
    SameMembers(s.optional, t.optional, OptionalCapability(sel.kind, sel.providerID, sel.fallback));
    ReorderedProvidersValid(ps, qs);
    SameMembers(policy.authorized, other.authorized, sel.kind);
    SameMembers(policy.enrolled, other.enrolled, sel.kind);
  }

  /** A sorted outcome is strictly ordered, because no kind is selected twice. */
  lemma OutcomeStrict(s: Scenario, ps: seq<ProviderSnapshot>, policy: BiometricPolicy, now: Time, a: Activation)
    requires ValidInputs(s, ps, policy) && Outcome(s, ps, policy, now, Ok(a))
    ensures StrictlyOrdered(a.issues, (x: Issue) => Rank(x.capability))
    ensures forall x :: x in a.issues <==> exists sel :: sel in Selections(s) && IssueFor(sel, ps, policy, now) == Some(x)
  {
    var all := Collected(Selections(s), ps, policy, now);
    SelectionKindsDistinct(s);
    CollectedDistinct(Selections(s), ps, policy, now);
    PermutedKeysDistinct(all, a.issues, (x: Issue) => x.capability);
    forall x ensures x in a.issues <==> exists sel :: sel in Selections(s) && IssueFor(sel, ps, policy, now) == Some(x) {
      SameMembers(a.issues, all, x);
      CollectedMembers(Selections(s), ps, policy, now, x);
    }
    forall i, j | 0 <= i < j < |a.issues| ensures Rank(a.issues[i].capability) < Rank(a.issues[j].capability) {
      KnownKind(s, ps, policy, now, a.issues[i]);
      KnownKind(s, ps, policy, now, a.issues[j]);
      assert !Less(a.issues[j], a.issues[i]);
      RankInjective(a.issues[i].capability, a.issues[j].capability);
    }
  }

  lemma KnownKind(s: Scenario, ps: seq<ProviderSnapshot>, policy: BiometricPolicy, now: Time, x: Issue)
    requires ValidScenario(s) && exists sel :: sel in Selections(s) && IssueFor(sel, ps, policy, now) == Some(x)
    ensures !x.capability.OtherKind?
  {
    var sel :| sel in Selections(s) && IssueFor(sel, ps, policy, now) == Some(x);
    SelectionMembers(s, sel);
  }

  lemma RankInjective(k: CapabilityKind, l: CapabilityKind)
    requires !k.OtherKind? && !l.OtherKind?
    ensures Rank(k) == Rank(l) ==> k == l
  {
  }

  /** Every reordering of the required, optional and provider lists, and of the policy
      lists, gives the same result, valid or not, however the sort treats ties. */
  lemma OrderDoesNotMatter(s: Scenario, t: Scenario, ps: seq<ProviderSnapshot>, qs: seq<ProviderSnapshot>, policy: BiometricPolicy, other: BiometricPolicy, now: Time, r: Result<Activation>, q: Result<Activation>)
    requires Reordered(s, t, ps, qs, policy, other)
    requires Outcome(s, ps, policy, now, r) && Outcome(t, qs, other, now, q)
    ensures r == q
  {
    if ValidInputs(t, qs, other) {
      ReorderedValid(t, s, qs, ps, other, policy);
    }
    if ValidInputs(s, ps, policy) {
      ReorderedValid(s, t, ps, qs, policy, other);
      OutcomeStrict(s, ps, policy, now, r.value);
      OutcomeStrict(t, qs, other, now, q.value);
      ReorderedStatus(s, t, ps, qs, policy, other, now);
      forall x ensures x in r.value.issues <==> x in q.value.issues {
        SameIssues(s, t, ps, qs, policy, other, now, x);
      }
      OrderedUnique(r.value.issues, q.value.issues, (x: Issue) => Rank(x.capability));
    }
  }

  lemma SameIssues(s: Scenario, t: Scenario, ps: seq<ProviderSnapshot>, qs: seq<ProviderSnapshot>, policy: BiometricPolicy, other: BiometricPolicy, now: Time, x: Issue)
    requires Reordered(s, t, ps, qs, policy, other) && ValidInputs(s, ps, policy)
    ensures (exists sel :: sel in Selections(s) && IssueFor(sel, ps, policy, now) == Some(x)) <==>
            (exists sel :: sel in Selections(t) && IssueFor(sel, qs, other, now) == Some(x))
  {
    forall sel ensures (sel in Selections(s) <==> sel in Selections(t)) && IssueFor(sel, ps, policy, now) == IssueFor(sel, qs, other, now) {
      ReorderedIssue(s, t, ps, qs, policy, other, now, sel);
    }
  }

  lemma ReorderedStatus(s: Scenario, t: Scenario, ps: seq<ProviderSnapshot>, qs: seq<ProviderSnapshot>, policy: BiometricPolicy, other: BiometricPolicy, now: Time)
    requires Reordered(s, t, ps, qs, policy, other) && ValidInputs(s, ps, policy)
    ensures StatusAt(s, ps, policy, now) == StatusAt(t, qs, other, now)
  {
    forall sel ensures (sel in Selections(s) <==> sel in Selections(t)) && Failing(sel, ps, policy, now) == Failing(sel, qs, other, now) {
      ReorderedIssue(s, t, ps, qs, policy, other, now, sel);
    }
  }

  // ---------------------------------------------------------------------------
  // Time.

  /** A capability that fails keeps failing; one that starts to fail does so because
      its provider's lease ran out. */
  lemma FailingPersists(sel: Selection, ps: seq<ProviderSnapshot>, policy: BiometricPolicy, now: Time, later: Time)
    requires now <= later
    ensures Failing(sel, ps, policy, now) ==> Failing(sel, ps, policy, later)
    ensures !Failing(sel, ps, policy, now) && Failing(sel, ps, policy, later) ==> IssueFor(sel, ps, policy, later).value.code == DeadlineExceeded
  {
  }

  function Severity(s: Status): nat {
    match s
    case Ready => 0
    case Degraded => 1
    case Blocked => 2
  }

  predicate SameSelection(x: Issue, y: Issue) { x.capability == y.capability && x.providerID == y.providerID && x.fallback == y.fallback }

  predicate Reported(x: Issue, issues: seq<Issue>) { exists y :: y in issues && SameSelection(x, y) }

  /** With everything else fixed, later evaluations report at least the same
      capabilities, and never a better status; what is newly reported has expired. */
  lemma TimeNeverHelps(s: Scenario, ps: seq<ProviderSnapshot>, policy: BiometricPolicy, now: Time, later: Time, a: Activation, b: Activation)
    requires now <= later && ValidInputs(s, ps, policy)
    requires Outcome(s, ps, policy, now, Ok(a)) && Outcome(s, ps, policy, later, Ok(b))
    ensures forall x :: x in a.issues ==> Reported(x, b.issues)
    ensures forall y :: y in b.issues ==> Reported(y, a.issues) || y.code == DeadlineExceeded
    ensures Severity(a.status) <= Severity(b.status)
  {
    OutcomeStrict(s, ps, policy, now, a);
    OutcomeStrict(s, ps, policy, later, b);
    forall sel ensures Failing(sel, ps, policy, now) ==> Failing(sel, ps, policy, later) {
      FailingPersists(sel, ps, policy, now, later);
    }
    forall x | x in a.issues ensures Reported(x, b.issues) {
      var sel :| sel in Selections(s) && IssueFor(sel, ps, policy, now) == Some(x);
      assert Failing(sel, ps, policy, now);
      assert IssueFor(sel, ps, policy, later).value in b.issues && SameSelection(x, IssueFor(sel, ps, policy, later).value);
    }
    forall y | y in b.issues ensures Reported(y, a.issues) || y.code == DeadlineExceeded {
      var sel :| sel in Selections(s) && IssueFor(sel, ps, policy, later) == Some(y);
      FailingPersists(sel, ps, policy, now, later);
      if Failing(sel, ps, policy, now) {
        assert IssueFor(sel, ps, policy, now).value in a.issues && SameSelection(y, IssueFor(sel, ps, policy, now).value);
      }
    }
  }

  // ---------------------------------------------------------------------------
  // What it means.

  const BIOMETRIC := {FaceDetection, FaceIdentification, FaceLiveness, SpeakerIdentification, SpeakerVerification}
  const ENROLLED := {FaceIdentification, SpeakerIdentification, SpeakerVerification}

  /** The provider has a snapshot, which declares the capability. */
  ghost predicate Known(sel: Selection, ps: seq<ProviderSnapshot>) { exists p :: p in ps && p.providerID == sel.providerID }

  ghost predicate Declared(sel: Selection, ps: seq<ProviderSnapshot>) {
    exists p :: p in ps && p.providerID == sel.providerID && sel.kind in p.capabilities
  }

  /** And which is healthy. */
  ghost predicate Well(sel: Selection, ps: seq<ProviderSnapshot>) {
    exists p :: p in ps && p.providerID == sel.providerID && sel.kind in p.capabilities && p.health.Healthy?
  }

  /** And whose lease has not expired. */
  ghost predicate Leased(sel: Selection, ps: seq<ProviderSnapshot>, now: Time) {
    exists p :: p in ps && p.providerID == sel.providerID && sel.kind in p.capabilities && p.health.Healthy? && now < p.leaseExpiresAt
  }

  /** The policy lets the capability be used: any that is not biometric, and a biometric
      one if biometrics are on, it is authorized and, where it needs that, enrolled. */
  predicate Permitted(k: CapabilityKind, policy: BiometricPolicy) {
    k in BIOMETRIC ==> policy.enabled && k in policy.authorized && (k in ENROLLED ==> k in policy.enrolled)
  }

  ghost predicate Available(sel: Selection, ps: seq<ProviderSnapshot>, policy: BiometricPolicy, now: Time) {
    Leased(sel, ps, now) && Permitted(sel.kind, policy)
  }

  lemma {:induction false} LookupDecides(sel: Selection, ps: seq<ProviderSnapshot>, now: Time)
    requires ValidProviders(ps)
    ensures var p := Lookup(ps, sel.providerID);
      && (Known(sel, ps) <==> p.Some?)
      && (Declared(sel, ps) <==> p.Some? && sel.kind in p.value.capabilities)
      && (Well(sel, ps) <==> p.Some? && sel.kind in p.value.capabilities && p.value.health.Healthy?)
      && (Leased(sel, ps, now) <==> p.Some? && sel.kind in p.value.capabilities && p.value.health.Healthy? && now < p.value.leaseExpiresAt)
  {
    LookupMembers(ps, sel.providerID);
    var found := Lookup(ps, sel.providerID);
    forall p | p in ps && p.providerID == sel.providerID ensures found == Some(p) {
    }
    if found.Some? {
      assert found == Some(found.value);
      assert found.value in ps && found.value.providerID == sel.providerID;
    }
  }

  /** A selection fails exactly when it is not available, and its code is that of the first
      condition it does not meet: known provider, declared capability, health, lease,
      biometrics on, authorized, enrolled. */
  lemma FailsWithFirstReason(sel: Selection, ps: seq<ProviderSnapshot>, policy: BiometricPolicy, now: Time)
    requires ValidProviders(ps)
    ensures Failing(sel, ps, policy, now) <==> !Available(sel, ps, policy, now)
    ensures Failing(sel, ps, policy, now) ==>
      var x := IssueFor(sel, ps, policy, now).value;
      && x.capability == sel.kind && x.providerID == sel.providerID && x.fallback == sel.fallback
      && (x.code == Unavailable <==> !Known(sel, ps) || (Declared(sel, ps) && !Well(sel, ps)))
      && (x.code == CapabilityMissing <==> Known(sel, ps) && !Declared(sel, ps))
      && (x.code == DeadlineExceeded <==> Well(sel, ps) && !Leased(sel, ps, now))
      && (x.code == PermissionDenied <==> Leased(sel, ps, now) && policy.enabled && sel.kind !in policy.authorized)
      && (x.code == PolicyBlocked <==> Leased(sel, ps, now) && (!policy.enabled || sel.kind in policy.authorized))
  {
    LookupDecides(sel, ps, now);
  }

  /** READY means that every selection is available; BLOCKED, that some required one is
      not; DEGRADED, that only optional ones are not. The issues name exactly the
      selections that are not available, in order of their names. */
  lemma StatusMeans(s: Scenario, ps: seq<ProviderSnapshot>, policy: BiometricPolicy, now: Time, a: Activation)
    requires ValidInputs(s, ps, policy) && Outcome(s, ps, policy, now, Ok(a))
    ensures a.status.Ready? <==> forall sel :: sel in Selections(s) ==> Available(sel, ps, policy, now)
    ensures a.status.Blocked? <==> exists sel :: sel in Selections(s) && sel.required && !Available(sel, ps, policy, now)
    ensures forall sel :: sel in Selections(s) ==>
      (!Available(sel, ps, policy, now) <==> exists x :: x in a.issues && IssueFor(sel, ps, policy, now) == Some(x))
    ensures StrictlyOrdered(a.issues, (x: Issue) => Rank(x.capability))
  {
    forall sel ensures Failing(sel, ps, policy, now) <==> !Available(sel, ps, policy, now) {
      FailsWithFirstReason(sel, ps, policy, now);
    }
    OutcomeStrict(s, ps, policy, now, a);
    forall sel | sel in Selections(s)
      ensures !Available(sel, ps, policy, now) <==> exists x :: x in a.issues && IssueFor(sel, ps, policy, now) == Some(x)
    {
      if Failing(sel, ps, policy, now) {
        var x := IssueFor(sel, ps, policy, now).value;
        assert IssueFor(sel, ps, policy, now) == Some(x);
        assert x in a.issues;
      }
    }
  }
}
