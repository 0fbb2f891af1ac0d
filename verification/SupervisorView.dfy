/** What the supervisor has in view and what it announces: the leases a worker is judged
    by, the reason a worker has failed, and the steps a stop is shown in. */
module SupervisorView {
  import opened Prelude
  import opened Capability
  import opened Supervisors
  import opened SupervisorRuns
  import opened SupervisorSafety
  import opened SupervisorHealth
  import Privacy

  // ---------------------------------------------------------------------------
  // Grants and workers.

  /** The first grant for a permission decides it; without one it is off. */
  lemma {:induction false} FirstGrantDecides(grants: seq<Privacy.Grant>, p: Privacy.Permission)
    ensures PermissionEnabled(grants, p) <==>
      exists j :: 0 <= j < |grants| && grants[j].permission == p && grants[j].enabled && forall k :: 0 <= k < j ==> grants[k].permission != p
  {
    if grants != [] && grants[0].permission != p {
      var rest := grants[1..];
      FirstGrantDecides(rest, p);
      if PermissionEnabled(rest, p) {
        var j :| 0 <= j < |rest| && rest[j].permission == p && rest[j].enabled && forall k :: 0 <= k < j ==> rest[k].permission != p;
        assert grants[j + 1] == rest[j] && forall k :: 0 < k < j + 1 ==> grants[k] == rest[k - 1];
      }
      if j :| 0 <= j < |grants| && grants[j].permission == p && grants[j].enabled && forall k :: 0 <= k < j ==> grants[k].permission != p {
        assert rest[j - 1] == grants[j] && forall k :: 0 <= k < j - 1 ==> rest[k] == grants[k + 1];
      }
    }
  }

  // ---------------------------------------------------------------------------
  // The lease view.

  /** Taking one provider out of the view leaves the first lease of every other. */
  lemma {:induction false} WithoutForgets(leases: seq<ProviderSnapshot>, id: string, p: string)
    ensures FirstLease(Without(leases, id), p) == if p == id then None else FirstLease(leases, p)
  {
    if leases != [] {
      var init := leases[..|leases| - 1];
      WithoutForgets(init, id, p);
      FirstOfLonger(init, Last(leases), p);
      assert init + [Last(leases)] == leases;
      if Last(leases).providerID != id {
        FirstOfLonger(Without(init, id), Last(leases), p);
      }
    }
  }

  lemma {:induction false} FirstOfLonger(leases: seq<ProviderSnapshot>, l: ProviderSnapshot, p: string)
    ensures FirstLease(leases + [l], p) ==
      if FirstLease(leases, p).Some? then FirstLease(leases, p) else if l.providerID == p then Some(l) else None
  {
    if leases != [] {
      assert (leases + [l])[1..] == leases[1..] + [l];
      FirstOfLonger(leases[1..], l, p);
    }
  }

  /** The reconcile ends the worker's child: it found it dead, or stopped it. */
  predicate EndsChild(c: Control, enabled: bool, exited: bool) { c.process.Some? && (exited || !enabled) }

  lemma ShowKeepsView(s: Supervision, i: nat, state: State, reason: Reason, stamp: nat -> Time)
    requires i < |s.controls|
    ensures var t := Show(s, i, state, reason, stamp);
      t.leases == s.leases && t.controls[i].runtime.providerID == s.controls[i].runtime.providerID
  {
  }

  lemma RefreshKeepsView(s: Supervision, i: nat, w: World)
    requires i < |s.controls|
    ensures Refresh(s, i, w).leases == s.leases
  {
  }

  /** A reconcile that ends the worker's child takes its provider out of the view, and any
      other leaves the view alone. */
  lemma ReconcileView(s: Supervision, i: nat, enabled: bool, w: World)
    requires i < |s.controls|
    ensures Reconcile(s, i, enabled, w).leases ==
      if EndsChild(s.controls[i], enabled, w.exited) then Without(s.leases, s.controls[i].runtime.providerID) else s.leases
  {
    var t := Reaped(s, i, enabled, w);
    if enabled && t.controls[i].process.Some? {
      RefreshKeepsView(t, i, w);
    }
  }

  /** The leases a step puts in view. */
  function Viewed(step: Step): Option<seq<ProviderSnapshot>> {
    match step case Begin(l) => Some(l) case TakeLeases(l) => Some(l) case _ => None
  }

  /** The step ends a child of the provider, or shuts one of its workers down. */
  ghost predicate Drops(specs: seq<Spec>, s: System, step: Step, p: string) {
    || (step.CloseNext? && s.phase.Closing? && s.phase.next < |specs| && specs[s.phase.next].providerID == p)
    || (VisitOf(specs, s, step).Some? && var v := VisitOf(specs, s, step).value;
        v.worker < |specs| && v.worker < |s.sup.controls| && specs[v.worker].providerID == p && EndsChild(s.sup.controls[v.worker], v.enabled, v.w.exited))
  }

  lemma {:induction false} ViewStep(specs: seq<Spec>, s: System, step: Step, p: string)
    requires Inv(specs, s) && Enabled(specs, s, step) && Named(specs, s)
    ensures FirstLease(Next(specs, s, step).sup.leases, p) ==
      if Viewed(step).Some? then FirstLease(Viewed(step).value, p)
      else if Drops(specs, s, step, p) then None
      else FirstLease(s.sup.leases, p)
  {
    if VisitOf(specs, s, step).Some? {
      var v := VisitOf(specs, s, step).value;
      VisitMoves(specs, s, step);
      ReconcileView(s.sup, v.worker, v.enabled, v.w);
      WithoutForgets(s.sup.leases, specs[v.worker].providerID, p);
    } else if step.CloseNext? {
      WithoutForgets(s.sup.leases, specs[s.phase.next].providerID, p);
    }
  }

  /** Step k is the last before n that put leases in view, and none since dropped the
      provider. */
  ghost predicate StillViewed(specs: seq<Spec>, steps: seq<Step>, states: seq<System>, k: int, n: nat, p: string)
    requires n <= |steps| <= |states|
  {
    0 <= k < n && Viewed(steps[k]).Some? && forall j :: k < j < n ==> Viewed(steps[j]).None? && !Drops(specs, states[j], steps[j], p)
  }

  /** Over every run, the lease a worker is judged by is the first of its provider among
      the leases that were last put in view, unless the provider was dropped since: a
      child of it ended, or a worker of it was shut down. Then, and before the first view,
      there is none. */
  lemma {:induction false} JudgedByLastView(specs: seq<Spec>, persisted: seq<Privacy.Grant>, now: Time, steps: seq<Step>, states: seq<System>, n: nat, p: string)
    requires now != UNSET && Run(specs, persisted, now, steps, states) && n <= |steps|
    ensures forall k :: StillViewed(specs, steps, states, k, n, p) ==> FirstLease(states[n].sup.leases, p) == FirstLease(Viewed(steps[k]).value, p)
    ensures (forall k :: !StillViewed(specs, steps, states, k, n, p)) ==> FirstLease(states[n].sup.leases, p).None?
  {
    if n > 0 {
      JudgedByLastView(specs, persisted, now, steps, states, n - 1, p);
      Always(specs, persisted, now, steps, states, n - 1);
      AlwaysNamed(specs, persisted, now, steps, states, n - 1);
      assert Enabled(specs, states[n - 1], steps[n - 1]) && states[n] == Next(specs, states[n - 1], steps[n - 1]);
      ViewStep(specs, states[n - 1], steps[n - 1], p);
      forall k | StillViewed(specs, steps, states, k, n, p)
        ensures FirstLease(states[n].sup.leases, p) == FirstLease(Viewed(steps[k]).value, p)
      {
        if k < n - 1 {
          assert StillViewed(specs, steps, states, k, n - 1, p) && Viewed(steps[n - 1]).None?;
        }
      }
      if forall k :: !StillViewed(specs, steps, states, k, n, p) {
        NoneStillViewed(specs, steps, states, n - 1, n, p);
      }
    }
  }

  lemma {:induction false} NoneStillViewed(specs: seq<Spec>, steps: seq<Step>, states: seq<System>, m: nat, n: nat, p: string)
    requires n == m + 1 <= |steps| <= |states| && forall k :: !StillViewed(specs, steps, states, k, n, p)
    ensures Viewed(steps[m]).None?
    ensures Drops(specs, states[m], steps[m], p) || forall k :: !StillViewed(specs, steps, states, k, m, p)
  {
    assert !StillViewed(specs, steps, states, m, n, p);
    forall k | StillViewed(specs, steps, states, k, m, p) ensures Drops(specs, states[m], steps[m], p) {
      assert !StillViewed(specs, steps, states, k, n, p);
    }
  }

  // ---------------------------------------------------------------------------
  // Failures and announcements.

  /** The state a snapshot shows for worker i. */
  predicate Shows(p: Snapshot, i: nat, state: State, reason: Reason) {
    i < |p.providers| && p.providers[i].state == state && p.providers[i].reason == reason
  }

  /** Exactly when a reconcile leaves a worker failed, and what it says of it: a child that
      was found dead is an internal error, a launch that gave none a missing dependency,
      and a worker that had failed already is left as it is. */
  lemma FailedBecause(s: Supervision, i: nat, enabled: bool, w: World)
    requires i < |s.controls| && PublishedOk(s) && StampSet(w.stamp) && Settled(s.controls[i])
    ensures var c, t := s.controls[i], Reconcile(s, i, enabled, w);
      && (t.controls[i].failed <==> enabled && (if c.process.Some? then w.exited else c.failed || w.launch.None?))
      && (enabled && c.process.Some? && w.exited ==> t.controls[i].runtime.reason.InternalError?)
      && (enabled && c.process.None? && !c.failed && w.launch.None? ==> t.controls[i].runtime.reason.DependencyUnavailable?)
      && (enabled && c.failed ==> t == s)
  {
    var c := s.controls[i];
    ReconcileMoves(s, i, enabled, w);
    if enabled && c.process.Some? && w.exited {
      ReapMoves(s, i, true, w.stamp);
      ReapSays(s, i, w.stamp);
    } else if Attempts(c, enabled) {
      LaunchAnnounced(s, i, w);
    }
  }

  lemma ReapSays(s: Supervision, i: nat, stamp: nat -> Time)
    requires i < |s.controls|
    ensures Reap(s, i, true, stamp).controls[i].runtime.reason.InternalError?
  {
  }

  /** A launch is announced before it is made, and a failed one right after. */
  lemma LaunchAnnounced(s: Supervision, i: nat, w: World)
    requires i < |s.controls| && PublishedOk(s) && StampSet(w.stamp) && Settled(s.controls[i]) && Attempts(s.controls[i], true)
    ensures var t, n := Launch(s, i, w), |s.published|;
      && |t.published| > n && Shows(t.published[n], i, Starting, NoReason)
      && (w.launch.None? ==>
            |t.published| == n + 2 && Shows(t.published[n + 1], i, Degraded, DependencyUnavailable)
            && t.controls[i].runtime.reason.DependencyUnavailable?)
  {
    ShowPublishes(s, i, Starting, NoReason, w.stamp);
    var starting := Show(s, i, Starting, NoReason, w.stamp);
    if w.launch.None? {
      var c := starting.controls[i].(failed := true);
      SetMoves(starting, i, c);
      ShowPublishes(Set(starting, i, c), i, Degraded, DependencyUnavailable, w.stamp);
    } else {
      var c := starting.controls[i].(process := w.launch);
      SetMoves(starting, i, c);
      RefreshMoves(Set(starting, i, c), i, w);
    }
  }

  /** Turning a worker off while its child runs is shown in exactly two steps: stopping,
      then disabled. */
  lemma StopAnnounced(s: Supervision, i: nat, w: World)
    requires i < |s.controls| && PublishedOk(s) && StampSet(w.stamp) && Settled(s.controls[i]) && s.controls[i].process.Some? && !w.exited
    ensures var t, n := Reconcile(s, i, false, w), |s.published|;
      && |t.published| == n + 2 && t.published[..n] == s.published
      && Shows(t.published[n], i, Stopping, ShuttingDown) && Shows(t.published[n + 1], i, Disabled, DisabledByUser)
  {
    var cleared := Set(s, i, s.controls[i].(failed := false));
    SetMoves(s, i, s.controls[i].(failed := false));
    ShowPublishes(cleared, i, Stopping, ShuttingDown, w.stamp);
    var stopped := Forget(Show(cleared, i, Stopping, ShuttingDown, w.stamp), i);
    var c := stopped.controls[i].(process := None, everHealthy := false);
    SetMoves(stopped, i, c);
    ShowPublishes(Set(stopped, i, c), i, Disabled, DisabledByUser, w.stamp);
  }

  /** Likewise when the supervisor shuts down. */
  lemma ShutDownAnnounced(s: Supervision, i: nat, stamp: nat -> Time)
    requires i < |s.controls| && PublishedOk(s) && StampSet(stamp) && Settled(s.controls[i]) && s.controls[i].process.Some?
    ensures var t, n := ShutDown(s, i, stamp), |s.published|;
      && |t.published| == n + 2 && t.published[..n] == s.published
      && Shows(t.published[n], i, Stopping, ShuttingDown) && Shows(t.published[n + 1], i, Disabled, DisabledByUser)
  {
    ShowPublishes(s, i, Stopping, ShuttingDown, stamp);
    var stopped := Forget(Show(s, i, Stopping, ShuttingDown, stamp), i);
    var c := stopped.controls[i].(process := None, failed := false, everHealthy := false);
    SetMoves(stopped, i, c);
    ShowPublishes(Set(stopped, i, c), i, Disabled, DisabledByUser, stamp);
  }

  /** A reconcile that neither launches nor ends a child publishes exactly when it changes
      what its worker shows, and then once: the periodic rounds of a quiet supervisor are
      silent. */
  lemma QuietUnlessChanged(s: Supervision, i: nat, enabled: bool, w: World)
    requires i < |s.controls| && PublishedOk(s) && StampSet(w.stamp) && Settled(s.controls[i])
    requires !Attempts(s.controls[i], enabled) && !EndsChild(s.controls[i], enabled, w.exited)
    ensures var t, shown := Reconcile(s, i, enabled, w), s.controls[i].runtime;
      if t.controls[i].runtime.state == shown.state && t.controls[i].runtime.reason == shown.reason
      then t.published == s.published && t.controls[i].runtime == shown
      else |t.published| == |s.published| + 1 && Last(t.published) == Snapshot(t.revision, Runtimes(t.controls))
  {
    ReconcileMoves(s, i, enabled, w);
    if enabled && s.controls[i].process.Some? {
      RefreshQuiet(s, i, w);
    }
  }

  lemma RefreshQuiet(s: Supervision, i: nat, w: World)
    requires i < |s.controls| && PublishedOk(s)
    ensures var t, shown := Refresh(s, i, w), s.controls[i].runtime;
      if t.controls[i].runtime.state == shown.state && t.controls[i].runtime.reason == shown.reason
      then t.published == s.published && t.controls[i].runtime == shown
      else |t.published| == |s.published| + 1 && Last(t.published) == Snapshot(t.revision, Runtimes(t.controls))
  {
  }
}
