/** What a worker with a child is shown as: running, starting or degraded, by the leases
    in view and by what was seen of it before. */
module SupervisorHealth {
  import opened Prelude
  import opened Capability
  import opened Supervisors
  import opened SupervisorRuns
  import opened SupervisorSafety
  import Privacy

  // ---------------------------------------------------------------------------
  // Leases in view.

  predicate InView(leases: seq<ProviderSnapshot>, providerID: string) {
    exists j :: 0 <= j < |leases| && leases[j].providerID == providerID
  }

  /** Lease j is the provider's first in view. */
  predicate FirstIs(leases: seq<ProviderSnapshot>, providerID: string, j: int) {
    0 <= j < |leases| && leases[j].providerID == providerID && forall k :: 0 <= k < j ==> leases[k].providerID != providerID
  }

  /** That lease is healthy and unexpired. */
  ghost predicate LooksHealthy(leases: seq<ProviderSnapshot>, providerID: string, now: Time) {
    exists j :: FirstIs(leases, providerID, j) && leases[j].health.Healthy? && now < leases[j].leaseExpiresAt
  }

  lemma {:induction false} FirstLeaseFound(leases: seq<ProviderSnapshot>, providerID: string)
    ensures FirstLease(leases, providerID).None? <==> !InView(leases, providerID)
    ensures FirstLease(leases, providerID).Some? ==> exists j :: FirstIs(leases, providerID, j) && leases[j] == FirstLease(leases, providerID).value
  {
    if leases != [] && leases[0].providerID != providerID {
      var rest := leases[1..];
      FirstLeaseFound(rest, providerID);
      if FirstLease(rest, providerID).Some? {
        var j :| FirstIs(rest, providerID, j) && rest[j] == FirstLease(rest, providerID).value;
        assert FirstIs(leases, providerID, j + 1) && leases[j + 1] == rest[j];
      }
      if InView(leases, providerID) {
        var j :| 0 <= j < |leases| && leases[j].providerID == providerID;
        assert rest[j - 1].providerID == providerID;
      }
    } else if leases != [] {
      assert FirstIs(leases, providerID, 0);
    }
  }

  lemma {:induction false} LooksHealthyIff(leases: seq<ProviderSnapshot>, providerID: string, now: Time)
    ensures LooksHealthy(leases, providerID, now) <==>
      var l := FirstLease(leases, providerID);
      l.Some? && l.value.health.Healthy? && now < l.value.leaseExpiresAt
  {
    FirstLeaseFound(leases, providerID);
    if LooksHealthy(leases, providerID, now) {
      var j :| FirstIs(leases, providerID, j) && leases[j].health.Healthy? && now < leases[j].leaseExpiresAt;
      var k :| FirstIs(leases, providerID, k) && leases[k] == FirstLease(leases, providerID).value;
      assert j == k;
    }
  }

  // ---------------------------------------------------------------------------
  // One reconcile.

  /** What is shown for a child, given whether it was known before. */
  ghost predicate ShownFor(c: Control, leases: seq<ProviderSnapshot>, known: bool, now: Time) {
    && (c.runtime.state.Running? <==> LooksHealthy(leases, c.runtime.providerID, now))
    && (c.runtime.state.Starting? <==> !InView(leases, c.runtime.providerID) && !known)
    && (!c.runtime.state.Running? && !c.runtime.state.Starting? ==> c.runtime.state.Degraded? && c.runtime.reason.DeviceUnavailable?)
  }

  lemma RefreshShows(s: Supervision, i: nat, w: World)
    requires i < |s.controls| && PublishedOk(s) && StampSet(w.stamp)
    ensures var t := Refresh(s, i, w);
      && ShownFor(t.controls[i], s.leases, s.controls[i].everHealthy, w.now)
      && t.controls[i].everHealthy == (s.controls[i].everHealthy || InView(s.leases, s.controls[i].runtime.providerID))
  {
    var id := s.controls[i].runtime.providerID;
    FirstLeaseFound(s.leases, id);
    LooksHealthyIff(s.leases, id, w.now);
    var c := s.controls[i].(everHealthy := true);
    SetMoves(s, i, c);
    ShowPublishes(s, i, Degraded, DeviceUnavailable, w.stamp);
    ShowPublishes(s, i, Starting, NoReason, w.stamp);
    ShowPublishes(Set(s, i, c), i, Running, NoReason, w.stamp);
    ShowPublishes(Set(s, i, c), i, Degraded, DeviceUnavailable, w.stamp);
  }

  lemma LaunchShows(s: Supervision, i: nat, w: World)
    requires i < |s.controls| && PublishedOk(s) && StampSet(w.stamp)
    ensures var t := Launch(s, i, w);
      if w.launch.Some? then
        && ShownFor(t.controls[i], s.leases, s.controls[i].everHealthy, w.now)
        && t.controls[i].everHealthy == (s.controls[i].everHealthy || InView(s.leases, s.controls[i].runtime.providerID))
      else t.controls[i].everHealthy == s.controls[i].everHealthy
  {
    ShowPublishes(s, i, Starting, NoReason, w.stamp);
    var starting := Show(s, i, Starting, NoReason, w.stamp);
    if w.launch.Some? {
      var c := starting.controls[i].(process := w.launch);
      SetMoves(starting, i, c);
      RefreshShows(Set(starting, i, c), i, w);
    } else {
      var c := starting.controls[i].(failed := true);
      SetMoves(starting, i, c);
      ShowPublishes(Set(starting, i, c), i, Degraded, DependencyUnavailable, w.stamp);
    }
  }

  /** An enabled reconcile shows its child by the leases in view, and knows it from then
      on if it saw one; without a child left it learns nothing. */
  lemma OnShows(s: Supervision, i: nat, w: World)
    requires i < |s.controls| && PublishedOk(s) && StampSet(w.stamp) && Settled(s.controls[i])
    ensures var t := Reconcile(s, i, true, w);
      if ProcessAfter(s.controls[i], true, w).Some? then
        && ShownFor(t.controls[i], s.leases, s.controls[i].everHealthy, w.now)
        && t.controls[i].everHealthy == (s.controls[i].everHealthy || InView(s.leases, s.controls[i].runtime.providerID))
      else t.controls[i].everHealthy == s.controls[i].everHealthy
  {
    var t := Reaped(s, i, true, w);
    if s.controls[i].process.Some? && w.exited {
      ReapMoves(s, i, true, w.stamp);
    } else if s.controls[i].process.Some? {
      RefreshShows(s, i, w);
    } else if !s.controls[i].failed {
      LaunchShows(s, i, w);
    }
  }

  // ---------------------------------------------------------------------------
  // Whole runs.

  datatype Visit = Visit(worker: nat, enabled: bool, w: World)

  /** The reconcile a step makes, if it makes one. */
  function VisitOf(specs: seq<Spec>, s: System, step: Step): Option<Visit> {
    match step
    case ReconcileNext(w) =>
      if s.phase.Reconciling? && s.phase.next < |specs|
      then Some(Visit(s.phase.next, PermissionEnabled(s.phase.grants, specs[s.phase.next].permission), w)) else None
    case TakeCommand(w) =>
      if s.queue != [] && WorkerOf(specs, s.queue[0].permission) < |specs|
      then Some(Visit(WorkerOf(specs, s.queue[0].permission), s.queue[0].enabled, w)) else None
    case _ => None
  }

  /** The step leaves the worker a child and has a lease of its provider in view. */
  ghost predicate Sights(specs: seq<Spec>, s: System, step: Step, i: nat) {
    && i < |specs| && i < |s.sup.controls| && VisitOf(specs, s, step).Some?
    && var v := VisitOf(specs, s, step).value;
    v.worker == i && v.enabled && ProcessAfter(s.sup.controls[i], true, v.w).Some? && InView(s.sup.leases, specs[i].providerID)
  }

  /** The step stops the worker's running child, or shuts the worker down. */
  ghost predicate Stops(specs: seq<Spec>, s: System, step: Step, i: nat) {
    && i < |s.sup.controls|
    && (|| (step.CloseNext? && s.phase.Closing? && s.phase.next == i)
        || (VisitOf(specs, s, step).Some? && var v := VisitOf(specs, s, step).value;
            v.worker == i && !v.enabled && s.sup.controls[i].process.Some? && !v.w.exited))
  }

  /** Some step before n sighted the worker, and none since stopped it. */
  ghost predicate SeenSinceStop(specs: seq<Spec>, steps: seq<Step>, states: seq<System>, i: nat, n: nat)
    requires n <= |steps| <= |states|
  {
    exists k :: 0 <= k < n && Sights(specs, states[k], steps[k], i) && forall j :: k < j < n ==> !Stops(specs, states[j], steps[j], i)
  }

  /** Each worker is shown under its own provider's name. */
  ghost predicate Named(specs: seq<Spec>, s: System) {
    |s.sup.controls| == |specs| && forall i :: 0 <= i < |specs| ==> s.sup.controls[i].runtime.providerID == specs[i].providerID
  }

  lemma VisitMoves(specs: seq<Spec>, s: System, step: Step)
    requires Inv(specs, s) && Enabled(specs, s, step) && VisitOf(specs, s, step).Some?
    ensures var v, t := VisitOf(specs, s, step).value, Next(specs, s, step);
      && v.worker < |specs| && t.sup == Reconcile(s.sup, v.worker, v.enabled, v.w) && Moved(s.sup, t.sup, v.worker)
      && StampSet(v.w.stamp) && Settled(s.sup.controls[v.worker]) && PublishedOk(s.sup)
  {
    var v := VisitOf(specs, s, step).value;
    assert WorkerOk(s, v.worker);
    ReconcileMoves(s.sup, v.worker, v.enabled, v.w);
  }

  lemma OtherMoves(specs: seq<Spec>, s: System, step: Step)
    requires Inv(specs, s) && Enabled(specs, s, step) && VisitOf(specs, s, step).None?
    ensures var t := Next(specs, s, step);
      if step.CloseNext? then
        && Moved(s.sup, t.sup, s.phase.next) && !t.sup.controls[s.phase.next].everHealthy
      else t.sup.controls == s.sup.controls
  {
    if step.CloseNext? {
      ShutDownMoves(s.sup, s.phase.next, step.stamp);
      ShutDownForgets(s.sup, s.phase.next, step.stamp);
    }
  }

  lemma ShutDownForgets(s: Supervision, i: nat, stamp: nat -> Time)
    requires i < |s.controls|
    ensures !ShutDown(s, i, stamp).controls[i].everHealthy
  {
  }

  lemma NamedStep(specs: seq<Spec>, s: System, step: Step)
    requires Inv(specs, s) && Enabled(specs, s, step) && Named(specs, s)
    ensures Named(specs, Next(specs, s, step))
  {
    if VisitOf(specs, s, step).Some? {
      VisitMoves(specs, s, step);
    } else {
      OtherMoves(specs, s, step);
    }
  }

  /** How a step changes what is known of a worker. */
  lemma KnownStep(specs: seq<Spec>, s: System, step: Step, i: nat)
    requires Inv(specs, s) && Enabled(specs, s, step) && Named(specs, s) && i < |specs|
    ensures |Next(specs, s, step).sup.controls| == |specs|
    ensures Next(specs, s, step).sup.controls[i].everHealthy <==>
      Sights(specs, s, step, i) || (s.sup.controls[i].everHealthy && !Stops(specs, s, step, i))
  {
    if VisitOf(specs, s, step).Some? {
      var v := VisitOf(specs, s, step).value;
      VisitMoves(specs, s, step);
      if v.worker == i {
        if v.enabled {
          OnShows(s.sup, i, v.w);
        } else {
          OffForgetsHealthIff(s.sup, i, v.w);
        }
      }
    } else {
      OtherMoves(specs, s, step);
    }
  }

  lemma {:induction false} AlwaysNamed(specs: seq<Spec>, persisted: seq<Privacy.Grant>, now: Time, steps: seq<Step>, states: seq<System>, n: nat)
    requires now != UNSET && Run(specs, persisted, now, steps, states) && n < |states|
    ensures Named(specs, states[n])
  {
    if n > 0 {
      AlwaysNamed(specs, persisted, now, steps, states, n - 1);
      Always(specs, persisted, now, steps, states, n - 1);
      NamedStep(specs, states[n - 1], steps[n - 1]);
    }
  }

  lemma SeenMore(specs: seq<Spec>, steps: seq<Step>, states: seq<System>, i: nat, n: nat)
    requires 0 < n <= |steps| <= |states|
    ensures SeenSinceStop(specs, steps, states, i, n) <==>
      Sights(specs, states[n - 1], steps[n - 1], i) || (SeenSinceStop(specs, steps, states, i, n - 1) && !Stops(specs, states[n - 1], steps[n - 1], i))
  {
    if SeenSinceStop(specs, steps, states, i, n) {
      var k :| 0 <= k < n && Sights(specs, states[k], steps[k], i) && forall j :: k < j < n ==> !Stops(specs, states[j], steps[j], i);
      if k < n - 1 {
        assert !Stops(specs, states[n - 1], steps[n - 1], i);
      }
    }
  }

  /** Over every run, a worker is known to the supervisor exactly when a lease of its
      provider was in view at some reconcile that left it a child, and the worker was
      not stopped since. A crash does not count as a stop. */
  lemma {:induction false} KnownIffSeen(specs: seq<Spec>, persisted: seq<Privacy.Grant>, now: Time, steps: seq<Step>, states: seq<System>, i: nat, n: nat)
    requires now != UNSET && Run(specs, persisted, now, steps, states) && n <= |steps| && i < |specs|
    ensures |states[n].sup.controls| == |specs|
    ensures states[n].sup.controls[i].everHealthy <==> SeenSinceStop(specs, steps, states, i, n)
  {
    if n > 0 {
      KnownIffSeen(specs, persisted, now, steps, states, i, n - 1);
      Always(specs, persisted, now, steps, states, n - 1);
      AlwaysNamed(specs, persisted, now, steps, states, n - 1);
      assert Enabled(specs, states[n - 1], steps[n - 1]) && states[n] == Next(specs, states[n - 1], steps[n - 1]);
      KnownStep(specs, states[n - 1], steps[n - 1], i);
      SeenMore(specs, steps, states, i, n);
    }
  }

  /** Over every run, a reconcile that leaves a worker a child shows it as running exactly
      when the first lease of its provider in view is healthy and unexpired at that
      moment, as starting exactly when no lease of its provider is in view and none was
      seen since the worker was last stopped, and as degraded for an unavailable device
      otherwise. */
  lemma {:induction false} ChildShownByLeases(specs: seq<Spec>, persisted: seq<Privacy.Grant>, now: Time, steps: seq<Step>, states: seq<System>, n: nat)
    requires now != UNSET && Run(specs, persisted, now, steps, states) && n < |steps| && VisitOf(specs, states[n], steps[n]).Some?
    requires var v := VisitOf(specs, states[n], steps[n]).value;
      v.enabled && v.worker < |states[n + 1].sup.controls| && states[n + 1].sup.controls[v.worker].process.Some?
    ensures var v := VisitOf(specs, states[n], steps[n]).value;
      var shown, leases := states[n + 1].sup.controls[v.worker].runtime, states[n].sup.leases;
      && v.worker < |specs| && shown.providerID == specs[v.worker].providerID
      && (shown.state.Running? <==> LooksHealthy(leases, specs[v.worker].providerID, v.w.now))
      && (shown.state.Starting? <==> !InView(leases, specs[v.worker].providerID) && !SeenSinceStop(specs, steps, states, v.worker, n))
      && (!shown.state.Running? && !shown.state.Starting? ==> shown.state.Degraded? && shown.reason.DeviceUnavailable?)
  {
    var v := VisitOf(specs, states[n], steps[n]).value;
    Always(specs, persisted, now, steps, states, n);
    AlwaysNamed(specs, persisted, now, steps, states, n);
    AlwaysNamed(specs, persisted, now, steps, states, n + 1);
    assert Enabled(specs, states[n], steps[n]) && states[n + 1] == Next(specs, states[n], steps[n]);
    VisitMoves(specs, states[n], steps[n]);
    ReconcileMoves(states[n].sup, v.worker, true, v.w);
    OnShows(states[n].sup, v.worker, v.w);
    KnownIffSeen(specs, persisted, now, steps, states, v.worker, n);
  }
}
