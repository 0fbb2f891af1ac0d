/** Process ownership over whole runs of the supervisor. */
module SupervisorSafety {
  import opened Prelude
  import opened Capability
  import opened Supervisors
  import opened SupervisorRuns
  import Privacy

  // ---------------------------------------------------------------------------
  // Launch attempts.

  /** The worker's last act is a launch attempt. */
  predicate Spent(acts: seq<Act>, i: nat) {
    acts != [] && (if Last(acts).worker == i then Last(acts).Attempt? else Spent(acts[..|acts| - 1], i))
  }

  predicate IsAttempt(a: Act, i: nat) { a.Attempt? && a.worker == i }

  /** Some reconcile with the permission off lies strictly between two acts. */
  predicate OffBetween(acts: seq<Act>, i: nat, a: int, b: int) {
    exists c :: a < c < b && 0 <= c < |acts| && acts[c] == TurnedOff(i)
  }

  ghost predicate Separated(acts: seq<Act>) {
    forall i: nat, a, b :: 0 <= a < b < |acts| && IsAttempt(acts[a], i) && IsAttempt(acts[b], i) ==> OffBetween(acts, i, a, b)
  }

  lemma {:induction false} UnspentWasTurnedOff(acts: seq<Act>, i: nat, a: nat)
    requires !Spent(acts, i) && a < |acts| && IsAttempt(acts[a], i)
    ensures OffBetween(acts, i, a, |acts|)
  {
    var init := acts[..|acts| - 1];
    if Last(acts).worker == i {
      assert acts[|acts| - 1] == TurnedOff(i);
    } else {
      assert acts[a] == init[a];
      UnspentWasTurnedOff(init, i, a);
      var c :| a < c < |init| && init[c] == TurnedOff(i);
      assert acts[c] == TurnedOff(i);
    }
  }

  lemma {:induction false} ActAppended(acts: seq<Act>, act: Act)
    requires Separated(acts) && (act.Attempt? ==> !Spent(acts, act.worker))
    ensures Separated(acts + [act])
  {
    var longer := acts + [act];
    forall i: nat, a, b | 0 <= a < b < |longer| && IsAttempt(longer[a], i) && IsAttempt(longer[b], i) ensures OffBetween(longer, i, a, b) {
      if b == |acts| {
        UnspentWasTurnedOff(acts, i, a);
        var c :| a < c < |acts| && acts[c] == TurnedOff(i);
        assert longer[c] == TurnedOff(i);
      } else {
        assert OffBetween(acts, i, a, b);
        var c :| a < c < b && acts[c] == TurnedOff(i);
        assert longer[c] == TurnedOff(i);
      }
    }
  }

  lemma {:induction false} SpentAppended(acts: seq<Act>, act: Act, i: nat)
    ensures Spent(acts + [act], i) == if act.worker == i then act.Attempt? else Spent(acts, i)
  {
    assert (acts + [act])[..|acts|] == acts;
  }

  // ---------------------------------------------------------------------------
  // The invariant.

  /** The worker's view of its child and the world's agree. */
  ghost predicate WorkerOk(s: System, i: nat)
    requires i < |s.sup.controls|
  {
    var c := s.sup.controls[i];
    && Settled(c)
    && (c.process.Some? ==> c.process.value in s.owner && s.owner[c.process.value] == i)
    && (Spent(s.acts, i) ==> c.process.Some? || c.failed || s.phase.Closing? || s.phase.Returned?)
  }

  /** No worker that the phase says is stopped has a child. */
  ghost predicate PhaseOk(s: System) {
    match s.phase
    case Closing(n) => forall i :: 0 <= i < n && i < |s.sup.controls| ==> s.sup.controls[i].process.None?
    case Listening => true
    case Reconciling(_, _) => true
    case Reading(first) => first ==> forall i :: 0 <= i < |s.sup.controls| ==> s.sup.controls[i].process.None?
    case _ => forall i :: 0 <= i < |s.sup.controls| ==> s.sup.controls[i].process.None?
  }

  /** A live child is held by the worker that launched it. */
  ghost predicate Held(s: System, c: Child) {
    c in s.live ==> c in s.owner && s.owner[c] < |s.sup.controls| && s.sup.controls[s.owner[c]].process == Some(c)
  }

  /** While the supervisor reconciles, the workers done so far match the grants read. */
  predicate Matches(c: Control, enabled: bool) {
    if enabled then c.process.Some? || c.failed else c.process.None? && !c.failed
  }

  ghost predicate Agrees(specs: seq<Spec>, s: System)
    requires |specs| == |s.sup.controls|
  {
    s.phase.Reconciling? ==> forall i :: 0 <= i < s.phase.next && i < |specs| ==>
      Matches(s.sup.controls[i], PermissionEnabled(s.phase.grants, specs[i].permission))
  }

  ghost predicate Inv(specs: seq<Spec>, s: System) {
    && |s.sup.controls| == |specs|
    && PublishedOk(s.sup) && Separated(s.acts) && PhaseOk(s) && Agrees(specs, s)
    && (forall i :: 0 <= i < |specs| ==> WorkerOk(s, i))
    && (forall c :: Held(s, c))
  }

  lemma InitialInv(specs: seq<Spec>, persisted: seq<Privacy.Grant>, now: Time)
    requires now != UNSET
    ensures Inv(specs, Initial(specs, persisted, now))
  {
  }

  lemma AttemptKeeps(specs: seq<Spec>, s: System, i: nat, w: World)
    requires Inv(specs, s) && i < |specs| && Honest(s, i, w) && !s.phase.Closing? && !s.phase.Returned?
    requires Attempts(s.sup.controls[i], true)
    ensures var t := Reconciled(s, i, true, w);
      && Separated(t.acts) && (forall j :: 0 <= j < |specs| ==> j < |t.sup.controls| && WorkerOk(t, j)) && (forall c :: Held(t, c))
  {
    var t := Reconciled(s, i, true, w);
    assert WorkerOk(s, i);
    ReconcileMoves(s.sup, i, true, w);
    ActAppended(s.acts, Attempt(i, w.launch));
    forall j | 0 <= j < |specs| ensures WorkerOk(t, j) {
      assert WorkerOk(s, j);
      SpentAppended(s.acts, Attempt(i, w.launch), j);
    }
    forall c ensures Held(t, c) {
      assert Held(s, c);
    }
  }

  lemma OffKeeps(specs: seq<Spec>, s: System, i: nat, w: World)
    requires Inv(specs, s) && i < |specs| && Honest(s, i, w)
    ensures var t := Reconciled(s, i, false, w);
      && Separated(t.acts) && (forall j :: 0 <= j < |specs| ==> j < |t.sup.controls| && WorkerOk(t, j)) && (forall c :: Held(t, c))
  {
    var t := Reconciled(s, i, false, w);
    assert WorkerOk(s, i);
    ReconcileMoves(s.sup, i, false, w);
    ActAppended(s.acts, TurnedOff(i));
    forall j | 0 <= j < |specs| ensures WorkerOk(t, j) {
      assert WorkerOk(s, j);
      SpentAppended(s.acts, TurnedOff(i), j);
    }
    forall c ensures Held(t, c) {
      assert Held(s, c);
    }
  }

  lemma StayKeeps(specs: seq<Spec>, s: System, i: nat, w: World)
    requires Inv(specs, s) && i < |specs| && Honest(s, i, w) && !Attempts(s.sup.controls[i], true)
    ensures var t := Reconciled(s, i, true, w);
      && Separated(t.acts) && (forall j :: 0 <= j < |specs| ==> j < |t.sup.controls| && WorkerOk(t, j)) && (forall c :: Held(t, c))
  {
    var t := Reconciled(s, i, true, w);
    assert WorkerOk(s, i);
    ReconcileMoves(s.sup, i, true, w);
    forall j | 0 <= j < |specs| ensures WorkerOk(t, j) {
      assert WorkerOk(s, j);
    }
    forall c ensures Held(t, c) {
      assert Held(s, c);
    }
  }

  lemma ReconciledKeeps(specs: seq<Spec>, s: System, i: nat, enabled: bool, w: World)
    requires Inv(specs, s) && i < |specs| && Honest(s, i, w) && !s.phase.Closing? && !s.phase.Returned?
    ensures var t := Reconciled(s, i, enabled, w);
      && |t.sup.controls| == |specs| && PublishedOk(t.sup) && t.phase == s.phase
      && Separated(t.acts) && (forall j :: 0 <= j < |specs| ==> WorkerOk(t, j)) && (forall c :: Held(t, c))
      && (forall j :: 0 <= j < |specs| && j != i ==> t.sup.controls[j] == s.sup.controls[j])
      && Matches(t.sup.controls[i], enabled)
  {
    assert WorkerOk(s, i);
    ReconcileMoves(s.sup, i, enabled, w);
    if !enabled {
      OffKeeps(specs, s, i, w);
    } else if Attempts(s.sup.controls[i], true) {
      AttemptKeeps(specs, s, i, w);
    } else {
      StayKeeps(specs, s, i, w);
    }
  }

  lemma ClosedKeeps(specs: seq<Spec>, s: System, stamp: nat -> Time)
    requires Inv(specs, s) && Enabled(specs, s, CloseNext(stamp))
    ensures Inv(specs, Next(specs, s, CloseNext(stamp)))
  {
    var i := s.phase.next;
    var t := Next(specs, s, CloseNext(stamp));
    ShutDownMoves(s.sup, i, stamp);
    forall j | 0 <= j < |specs| ensures WorkerOk(t, j) {
      assert WorkerOk(s, j);
    }
    forall c ensures Held(t, c) {
      assert Held(s, c);
    }
  }

  /** Steps that leave the controllers alone. */
  lemma QuietKeeps(specs: seq<Spec>, s: System, t: System)
    requires Inv(specs, s) && t.sup == s.sup.(leases := t.sup.leases) && t.live <= s.live && t.owner == s.owner && t.acts == s.acts
    requires t.phase == s.phase || t.phase.Listening? || t.phase == Reading(false) || t.phase == Closing(0) ||
      (t.phase.Reconciling? && t.phase.next == 0) || (t.phase == Reading(true) && s.phase.NotRun?) ||
      (t.phase.Returned? && (s.phase == Reading(true) || (s.phase.Closing? && s.phase.next >= |specs|)))
    requires (s.phase.Closing? || s.phase.Returned?) ==> (t.phase.Closing? || t.phase.Returned?)
    ensures Inv(specs, t)
  {
    forall j | 0 <= j < |specs| ensures WorkerOk(t, j) {
      assert WorkerOk(s, j);
    }
    forall c ensures Held(t, c) {
      assert Held(s, c);
    }
  }

  lemma StepKeeps(specs: seq<Spec>, s: System, step: Step)
    requires Inv(specs, s) && Enabled(specs, s, step)
    ensures Inv(specs, Next(specs, s, step))
  {
    var t := Next(specs, s, step);
    match step {
      case ReconcileNext(w) =>
        var Reconciling(i, grants) := s.phase;
        ReconciledKeeps(specs, s, i, PermissionEnabled(grants, specs[i].permission), w);
        PhaseMoved(specs, Reconciled(s, i, PermissionEnabled(grants, specs[i].permission), w), t);
      case TakeCommand(w) =>
        var command := s.queue[0];
        var i := WorkerOf(specs, command.permission);
        if i < |specs| {
          ReconciledKeeps(specs, s, i, command.enabled, w);
          PhaseMoved(specs, Reconciled(s, i, command.enabled, w), t);
        } else {
          QuietKeeps(specs, s, t);
        }
      case CloseNext(stamp) => ClosedKeeps(specs, s, stamp);
      case _ => QuietKeeps(specs, s, t);
    }
  }

  /** The bookkeeping after a reconcile does not matter to the workers. */
  lemma PhaseMoved(specs: seq<Spec>, s: System, t: System)
    requires |s.sup.controls| == |specs| && !s.phase.Closing? && !s.phase.Returned?
    requires forall j :: 0 <= j < |specs| ==> WorkerOk(s, j)
    requires forall c :: Held(s, c)
    requires t.sup == s.sup && t.live == s.live && t.owner == s.owner && t.acts == s.acts
    ensures forall j :: 0 <= j < |specs| ==> WorkerOk(t, j)
    ensures forall c :: Held(t, c)
  {
    forall j | 0 <= j < |specs| ensures WorkerOk(t, j) {
      assert WorkerOk(s, j);
    }
    forall c ensures Held(t, c) {
      assert Held(s, c);
    }
  }

  lemma {:induction false} Always(specs: seq<Spec>, persisted: seq<Privacy.Grant>, now: Time, steps: seq<Step>, states: seq<System>, n: nat)
    requires now != UNSET && Run(specs, persisted, now, steps, states) && n < |states|
    ensures Inv(specs, states[n])
  {
    if n == 0 {
      InitialInv(specs, persisted, now);
    } else {
      Always(specs, persisted, now, steps, states, n - 1);
      StepKeeps(specs, states[n - 1], steps[n - 1]);
    }
  }

  // ---------------------------------------------------------------------------
  // The theorems.

  /** Any two launch attempts of one worker are separated by a reconcile with its
      permission off: a crashed or unlaunchable worker is never retried on its own. */
  lemma LaunchesAreSeparated(specs: seq<Spec>, persisted: seq<Privacy.Grant>, now: Time, steps: seq<Step>, states: seq<System>, i: nat, a: nat, b: nat)
    requires now != UNSET && Run(specs, persisted, now, steps, states)
    requires a < b < |Last(states).acts| && IsAttempt(Last(states).acts[a], i) && IsAttempt(Last(states).acts[b], i)
    ensures OffBetween(Last(states).acts, i, a, b)
  {
    Always(specs, persisted, now, steps, states, |steps|);
  }

  /** At most one child per worker is live, and every live child is the one its
      worker holds. */
  lemma OneLiveChildPerWorker(specs: seq<Spec>, persisted: seq<Privacy.Grant>, now: Time, steps: seq<Step>, states: seq<System>, c: Child, d: Child)
    requires now != UNSET && Run(specs, persisted, now, steps, states)
    requires c in Last(states).live && d in Last(states).live
    ensures c in Last(states).owner && d in Last(states).owner
    ensures Last(states).owner[c] == Last(states).owner[d] ==> c == d
  {
    Always(specs, persisted, now, steps, states, |steps|);
    assert Held(Last(states), c) && Held(Last(states), d);
  }

  /** No child is live when the supervisor has returned, on the failed first read
      as on every other path. */
  lemma NoneLiveAtReturn(specs: seq<Spec>, persisted: seq<Privacy.Grant>, now: Time, steps: seq<Step>, states: seq<System>)
    requires now != UNSET && Run(specs, persisted, now, steps, states) && Last(states).phase.Returned?
    ensures Last(states).live == {}
  {
    Always(specs, persisted, now, steps, states, |steps|);
    assert forall c :: Held(Last(states), c) ==> c !in Last(states).live;
  }

  /** Every snapshot ever published has only combinations of state and reason that
      the desktop boundary accepts, with a set time, and consecutive revisions. */
  lemma PublishedSnapshotsAreValid(specs: seq<Spec>, persisted: seq<Privacy.Grant>, now: Time, steps: seq<Step>, states: seq<System>, k: nat)
    requires now != UNSET && Run(specs, persisted, now, steps, states) && k < |Last(states).sup.published|
    ensures ValidSnapshot(Last(states).sup.published[k]) && Last(states).sup.published[k].revision == k + 2
  {
    Always(specs, persisted, now, steps, states, |steps|);
  }

  /** Right after every worker was reconciled, each matches the grants that were
      read: no child for a permission that is off, and for one that is on either a
      child or a recorded failure. What it shows says which. */
  lemma ReconcileAllMatchesGrants(specs: seq<Spec>, persisted: seq<Privacy.Grant>, now: Time, steps: seq<Step>, states: seq<System>, i: nat)
    requires now != UNSET && Run(specs, persisted, now, steps, states) && i < |specs|
    requires Last(states).phase.Reconciling? && Last(states).phase.next >= |specs|
    ensures |Last(states).sup.controls| == |specs|
    ensures var c := Last(states).sup.controls[i];
      Settled(c) && Matches(c, PermissionEnabled(Last(states).phase.grants, specs[i].permission))
  {
    Always(specs, persisted, now, steps, states, |steps|);
    assert WorkerOk(Last(states), i);
  }

  /** A queued command, in contrast, is followed as queued, whatever has been persisted
      since. So right after it was taken, its worker matches the persisted grants
      exactly when the command still says what is persisted. */
  lemma {:induction false} TakenCommandMatchesIff(specs: seq<Spec>, persisted: seq<Privacy.Grant>, now: Time, steps: seq<Step>, states: seq<System>)
    requires now != UNSET && Run(specs, persisted, now, steps, states) && steps != [] && Last(steps).TakeCommand?
    requires states[|steps| - 1].queue != [] && WorkerOf(specs, states[|steps| - 1].queue[0].permission) < |specs|
    ensures var command := states[|steps| - 1].queue[0];
      var i := WorkerOf(specs, command.permission);
      var granted := PermissionEnabled(Last(states).persisted, command.permission);
      && i < |Last(states).sup.controls|
      && Matches(Last(states).sup.controls[i], command.enabled)
      && (Matches(Last(states).sup.controls[i], granted) <==> command.enabled == granted)
  {
    var s := states[|steps| - 1];
    Always(specs, persisted, now, steps, states, |steps| - 1);
    var i := WorkerOf(specs, s.queue[0].permission);
    assert Enabled(specs, s, Last(steps)) && Last(states) == Next(specs, s, Last(steps));
    ReconciledKeeps(specs, s, i, s.queue[0].enabled, Last(steps).w);
    MatchesOneWay(Last(states).sup.controls[i]);
  }

  lemma MatchesOneWay(c: Control)
    ensures Matches(c, true) <==> !Matches(c, false)
  {
  }

  // ---------------------------------------------------------------------------
  // Restarting a worker.

  /** Switching a worker off and on again starts it afresh, shown as starting until
      its first lease, exactly when it was not known healthy before or its child was
      still running at the switch. A worker that crashed while healthy is shown as
      degraded instead, because only stopping a child forgets its health. */
  lemma RestartShowsStartingIff(s: Supervision, i: nat, off: World, on: World)
    requires i < |s.controls| && PublishedOk(s) && Settled(s.controls[i]) && StampSet(off.stamp) && StampSet(on.stamp)
    requires on.launch.Some? && FirstLease(Reconcile(s, i, false, off).leases, s.controls[i].runtime.providerID).None?
    ensures var t := Reconcile(Reconcile(s, i, false, off), i, true, on);
      && t.controls[i].process == on.launch
      && (t.controls[i].runtime.state.Starting? <==>
            !s.controls[i].everHealthy || (s.controls[i].process.Some? && !off.exited))
      && (!t.controls[i].runtime.state.Starting? ==> t.controls[i].runtime.state.Degraded? && t.controls[i].runtime.reason.DeviceUnavailable?)
  {
    var stopped := Reconcile(s, i, false, off);
    ReconcileMoves(s, i, false, off);
    OffForgetsHealthIff(s, i, off);
    LaunchShowsHealth(stopped, i, on);
  }

  lemma OffForgetsHealthIff(s: Supervision, i: nat, w: World)
    requires i < |s.controls| && PublishedOk(s) && StampSet(w.stamp) && Settled(s.controls[i])
    ensures Reconcile(s, i, false, w).controls[i].everHealthy <==> s.controls[i].everHealthy && (s.controls[i].process.None? || w.exited)
  {
  }

  lemma LaunchShowsHealth(s: Supervision, i: nat, w: World)
    requires i < |s.controls| && PublishedOk(s) && StampSet(w.stamp)
    requires s.controls[i].process.None? && !s.controls[i].failed
    requires w.launch.Some? && FirstLease(s.leases, s.controls[i].runtime.providerID).None?
    ensures var t := Reconcile(s, i, true, w);
      && t.controls[i].process == w.launch
      && (t.controls[i].runtime.state.Starting? <==> !s.controls[i].everHealthy)
      && (s.controls[i].everHealthy ==> t.controls[i].runtime.state.Degraded? && t.controls[i].runtime.reason.DeviceUnavailable?)
  {
    ShowPublishes(s, i, Starting, NoReason, w.stamp);
    var starting := Show(s, i, Starting, NoReason, w.stamp);
    var c := starting.controls[i].(process := w.launch);
    SetMoves(starting, i, c);
    ShowPublishes(Set(starting, i, c), i, Degraded, DeviceUnavailable, w.stamp);
    ShowPublishes(Set(starting, i, c), i, Starting, NoReason, w.stamp);
  }
}
