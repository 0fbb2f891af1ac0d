/** Concrete runs of the supervisor. */
module SupervisorExamples {
  import opened Prelude
  import opened Capability
  import opened Supervisors
  import opened SupervisorRuns
  import opened SupervisorSafety
  import P = Privacy

  const WORKERS := [Spec("camera", P.CameraCapture), Spec("microphone", P.MicrophoneCapture)]

  /** The grants with only the camera switched on or off. */
  function Camera(on: bool): seq<P.Grant> { [P.Grant(P.CameraCapture, on, if on then 1 else UNSET)] }

  /** The world during a reconcile. */
  function Sees(exited: bool, launch: Option<Child>): World { World(exited, launch, 5, (n: nat) => 5) }

  ghost predicate Leads(grants: seq<P.Grant>, steps: seq<Step>, states: seq<System>, s: System) {
    Run(WORKERS, grants, 1, steps, states) && Last(states) == s && Inv(WORKERS, s)
  }

  lemma Then(grants: seq<P.Grant>, steps: seq<Step>, states: seq<System>, s: System, step: Step)
    returns (more: seq<Step>, after: seq<System>, t: System)
    requires Leads(grants, steps, states, s) && Enabled(WORKERS, s, step)
    ensures Leads(grants, more, after, t) && t == Next(WORKERS, s, step)
    ensures after == states + [t] && more == steps + [step]
  {
    t := Next(WORKERS, s, step);
    more, after := steps + [step], states + [t];
    forall i | 0 <= i < |more| ensures Enabled(WORKERS, after[i], more[i]) && after[i + 1] == Next(WORKERS, after[i], more[i]) {
      if i < |steps| {
        assert more[i] == steps[i] && Enabled(WORKERS, states[i], steps[i]);
      }
    }
    Always(WORKERS, grants, 1, more, after, |more|);
  }

  // ---------------------------------------------------------------------------
  // One reconcile at a time.

  /** The camera's worker, and the microphone's without a child. */
  ghost predicate Shows(s: System, process: Option<Child>, failed: bool, everHealthy: bool, live: set<Child>, used: set<Child>) {
    && |s.sup.controls| == 2
    && s.sup.controls[0].process == process && s.sup.controls[0].failed == failed && s.sup.controls[0].everHealthy == everHealthy
    && s.sup.controls[0].runtime.providerID == "camera" && s.sup.controls[1].runtime.providerID == "microphone"
    && s.sup.controls[1].process.None? && !s.sup.controls[1].failed
    && s.live == live && s.owner.Keys == used
  }

  /** Nothing queued, and the camera persisted as said. */
  ghost predicate Settings(s: System, on: bool) { s.queue == [] && s.unsent == [] && s.persisted == Camera(on) }

  lemma StampOk(exited: bool, launch: Option<Child>)
    ensures StampSet(Sees(exited, launch).stamp)
  {
  }

  /** Switching a worker off that has no child only forgets a failure. */
  lemma OffWithoutChild(s: Supervision, i: nat, w: World)
    requires i < |s.controls| && s.controls[i].process.None?
    ensures var t := Reconcile(s, i, false, w);
      t.controls[i].everHealthy == s.controls[i].everHealthy && t.leases == s.leases
  {
  }

  /** Launching with no lease in view. */
  lemma LaunchWithoutLease(s: Supervision, i: nat, w: World)
    requires i < |s.controls| && s.controls[i].process.None? && !s.controls[i].failed && w.launch.Some?
    requires FirstLease(s.leases, s.controls[i].runtime.providerID).None?
    ensures var t := Reconcile(s, i, true, w);
      t.controls[i].everHealthy == s.controls[i].everHealthy && t.leases == s.leases && !t.controls[i].failed
  {
  }

  /** Looking at a healthy lease. */
  lemma HealthyLease(s: Supervision, i: nat, w: World)
    requires i < |s.controls| && s.controls[i].process.Some? && !w.exited
    requires FirstLease(s.leases, s.controls[i].runtime.providerID).Some?
    ensures var t := Reconcile(s, i, true, w);
      t.controls[i].everHealthy && t.leases == s.leases && t.controls[i].failed == s.controls[i].failed
  {
  }

  /** Finding the child gone. */
  lemma FindsExit(s: Supervision, i: nat, w: World)
    requires i < |s.controls| && s.controls[i].process.Some? && w.exited
    ensures var t := Reconcile(s, i, true, w);
      && t.controls[i].everHealthy == s.controls[i].everHealthy && t.controls[i].failed && t.controls[i].process.None?
      && t.leases == Without(s.leases, s.controls[i].runtime.providerID)
  {
  }

  /** Before anything happened, the permission off. */
  lemma Fresh() returns (steps: seq<Step>, states: seq<System>, s: System)
    ensures Leads(Camera(false), steps, states, s) && Shows(s, None, false, false, {}, {}) && s.phase.NotRun? && Settings(s, false)
  {
    s := Initial(WORKERS, Camera(false), 1);
    steps, states := [], [s];
    InitialInv(WORKERS, Camera(false), 1);
  }

  /** A round that leaves the microphone off: what it does is up to the camera. */
  lemma Round(steps: seq<Step>, states: seq<System>, s: System, on: bool, w: World, process: Option<Child>, failed: bool, everHealthy: bool, live: set<Child>, used: set<Child>)
    returns (more: seq<Step>, after: seq<System>, t: System)
    requires Leads(Camera(false), steps, states, s) && s.phase.Reading? && Settings(s, on)
    requires Shows(s, process, failed, everHealthy, live, used) && StampSet(w.stamp) && w.launch.None?
    requires process.Some? ==> (w.exited <==> process.value !in live)
    requires on ==> process.Some?
    ensures Leads(Camera(false), more, after, t) && t.phase.Listening? && Settings(t, on)
    ensures t.sup.leases == Reconcile(s.sup, 0, on, w).leases && t.sup.controls[0] == Reconcile(s.sup, 0, on, w).controls[0]
    ensures |t.sup.controls| == 2 && t.sup.controls[1].process.None? && !t.sup.controls[1].failed && t.sup.controls[1].runtime.providerID == "microphone"
    ensures t.owner == s.owner && t.live == if on || process.None? then s.live else s.live - {process.value}
  {
    assert WorkerOk(s, 0) && WorkerOk(s, 1);
    more, after, t := Then(Camera(false), steps, states, s, Read(true));
    assert PermissionEnabled(Camera(on), P.CameraCapture) == on && !PermissionEnabled(Camera(on), P.MicrophoneCapture);
    ReconcileMoves(s.sup, 0, on, w);
    more, after, t := Then(Camera(false), more, after, t, ReconcileNext(w));
    StampOk(false, None);
    assert WorkerOk(t, 1);
    ReconcileMoves(t.sup, 1, false, Sees(false, None));
    OffWithoutChild(t.sup, 1, Sees(false, None));
    more, after, t := Then(Camera(false), more, after, t, ReconcileNext(Sees(false, None)));
    more, after, t := Then(Camera(false), more, after, t, Finish);
  }

  function Switched(on: bool): P.Command { P.ChangePermission(P.CameraCapture, on) }

  /** Persisting a setting of the camera and queueing its command. */
  lemma Queue(steps: seq<Step>, states: seq<System>, s: System, was: bool, on: bool) returns (more: seq<Step>, after: seq<System>, t: System)
    requires Leads(Camera(false), steps, states, s) && s.phase.Listening? && Settings(s, was)
    ensures Leads(Camera(false), more, after, t) && t == s.(persisted := Camera(on), queue := [Switched(on)])
  {
    more, after, t := Then(Camera(false), steps, states, s, Persist(Camera(on), Switched(on)));
    more, after, t := Then(Camera(false), more, after, t, Enqueue(0));
    assert RemoveAt([Switched(on)], 0) == [];
  }

  lemma CameraWorker(on: bool)
    ensures WorkerOf(WORKERS, Switched(on).permission) == 0
  {
  }

  /** Taking it. */
  lemma Take(steps: seq<Step>, states: seq<System>, s: System, on: bool, w: World) returns (more: seq<Step>, after: seq<System>, t: System)
    requires Leads(Camera(false), steps, states, s) && s.phase.Listening? && s.queue == [Switched(on)] && |s.sup.controls| == 2 && Honest(s, 0, w)
    ensures Leads(Camera(false), more, after, t) && t == Reconciled(s, 0, on, w).(queue := [])
    ensures more == steps + [TakeCommand(w)] && after == states + [t]
  {
    CameraWorker(on);
    more, after, t := Then(Camera(false), steps, states, s, TakeCommand(w));
  }

  /** The supervisor runs, with everything off. */
  lemma Started() returns (steps: seq<Step>, states: seq<System>, s: System)
    ensures Leads(Camera(false), steps, states, s) && Shows(s, None, false, false, {}, {}) && s.phase.Listening? && Settings(s, false) && s.sup.leases == []
  {
    steps, states, s := Fresh();
    steps, states, s := Then(Camera(false), steps, states, s, Begin([]));
    StampOk(false, None);
    assert WorkerOk(s, 0);
    ReconcileMoves(s.sup, 0, false, Sees(false, None));
    OffWithoutChild(s.sup, 0, Sees(false, None));
    steps, states, s := Round(steps, states, s, false, Sees(false, None), None, false, false, {}, {});
  }

  // ---------------------------------------------------------------------------
  // A command overtaken by a later setting.

  /** "Workers match the persisted grants" fails: the camera is switched on and queued,
      switched off again before that command is taken, and the child is then launched
      although the persisted permission is off. */
  lemma LaunchedThoughPersistedOff() returns (steps: seq<Step>, states: seq<System>)
    ensures Run(WORKERS, Camera(false), 1, steps, states) && steps != [] && Last(steps).TakeCommand?
    ensures states[|steps| - 1].queue == [Switched(true)] && |Last(states).sup.controls| == 2
    ensures !PermissionEnabled(Last(states).persisted, P.CameraCapture) && Last(states).sup.controls[0].process == Some(7) && 7 in Last(states).live
    ensures !Matches(Last(states).sup.controls[0], PermissionEnabled(Last(states).persisted, P.CameraCapture))
  {
    var s;
    steps, states, s := Started();
    steps, states, s := Queue(steps, states, s, false, true);
    steps, states, s := Then(Camera(false), steps, states, s, Persist(Camera(false), Switched(false)));
    var w := Sees(false, Some(7));
    StampOk(false, Some(7));
    assert WorkerOk(s, 0);
    ReconcileMoves(s.sup, 0, true, w);
    ghost var before := states;
    steps, states, s := Take(steps, states, s, true, w);
  }

  // ---------------------------------------------------------------------------
  // A crash, then off and on.

  const CAMERA_LEASE := ProviderSnapshot("camera", "camera-1", "v1", "1", [PersonPresence], Healthy, 100)

  /** A child is launched. */
  lemma Launched() returns (steps: seq<Step>, states: seq<System>, s: System)
    ensures Leads(Camera(false), steps, states, s) && Shows(s, Some(7), false, false, {7}, {7}) && s.phase.Listening? && Settings(s, true)
  {
    steps, states, s := Started();
    steps, states, s := Queue(steps, states, s, false, true);
    var w := Sees(false, Some(7));
    StampOk(false, Some(7));
    assert WorkerOk(s, 0);
    ReconcileMoves(s.sup, 0, true, w);
    LaunchWithoutLease(s.sup, 0, w);
    steps, states, s := Take(steps, states, s, true, w);
  }

  /** It registers and is seen to be healthy. */
  lemma SeenHealthy() returns (steps: seq<Step>, states: seq<System>, s: System)
    ensures Leads(Camera(false), steps, states, s) && Shows(s, Some(7), false, true, {7}, {7}) && s.phase.Listening? && Settings(s, true)
    ensures s.sup.leases == [CAMERA_LEASE]
  {
    steps, states, s := Launched();
    steps, states, s := Then(Camera(false), steps, states, s, TakeLeases([CAMERA_LEASE]));
    var w := Sees(false, None);
    StampOk(false, None);
    assert WorkerOk(s, 0);
    ReconcileMoves(s.sup, 0, true, w);
    HealthyLease(s.sup, 0, w);
    steps, states, s := Round(steps, states, s, true, w, Some(7), false, false, {7}, {7});
  }

  /** It exits by itself, and that is noticed. */
  lemma Crashed() returns (steps: seq<Step>, states: seq<System>, s: System)
    ensures Leads(Camera(false), steps, states, s) && Shows(s, None, true, true, {}, {7}) && s.phase.Listening? && Settings(s, true)
    ensures s.sup.leases == []
  {
    steps, states, s := SeenHealthy();
    steps, states, s := Then(Camera(false), steps, states, s, Exit(7));
    steps, states, s := Then(Camera(false), steps, states, s, TakeWake);
    var w := Sees(true, None);
    StampOk(true, None);
    assert WorkerOk(s, 0);
    ReconcileMoves(s.sup, 0, true, w);
    FindsExit(s.sup, 0, w);
    assert Without([CAMERA_LEASE], "camera") == [];
    steps, states, s := Round(steps, states, s, true, w, Some(7), false, true, {}, {7});
  }

  /** The user switches it off. */
  lemma SwitchedOff() returns (steps: seq<Step>, states: seq<System>, s: System)
    ensures Leads(Camera(false), steps, states, s) && Shows(s, None, false, true, {}, {7}) && s.phase.Listening? && Settings(s, false)
    ensures s.sup.leases == []
  {
    steps, states, s := Crashed();
    steps, states, s := Queue(steps, states, s, true, false);
    var w := Sees(false, None);
    StampOk(false, None);
    assert WorkerOk(s, 0);
    ReconcileMoves(s.sup, 0, false, w);
    OffWithoutChild(s.sup, 0, w);
    steps, states, s := Take(steps, states, s, false, w);
  }

  /** "A worker just switched on is shown as starting" fails: after a healthy child
      crashed, off and on show the new child as degraded before it ever had a lease. */
  lemma RestartShownDegraded() returns (steps: seq<Step>, states: seq<System>)
    ensures Run(WORKERS, Camera(false), 1, steps, states) && |Last(states).sup.controls| == 2
    ensures Last(states).sup.controls[0].process == Some(8) && Last(states).sup.leases == []
    ensures Last(states).sup.controls[0].runtime.state.Degraded?
  {
    var s;
    steps, states, s := SwitchedOff();
    steps, states, s := Queue(steps, states, s, false, true);
    var w := Sees(false, Some(8));
    StampOk(false, Some(8));
    assert WorkerOk(s, 0);
    ReconcileMoves(s.sup, 0, true, w);
    LaunchWithoutLease(s.sup, 0, w);
    LaunchShowsHealth(s.sup, 0, w);
    steps, states, s := Take(steps, states, s, true, w);
  }
}
