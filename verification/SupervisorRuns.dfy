/** Whole runs of the supervisor: its loop, child processes that exit when they like,
    permission changes that are persisted first and queued later, and the shutdown. */
module SupervisorRuns {
  import opened Prelude
  import opened Capability
  import opened Supervisors
  import Privacy

  /** The launch history: each attempt, and each reconcile with the permission off. */
  datatype Act = Attempt(worker: nat, child: Option<Child>) | TurnedOff(worker: nat)

  datatype Phase =
    | NotRun
    | Reading(first: bool)
    | Reconciling(next: nat, grants: seq<Privacy.Grant>)
    | Listening
    | Closing(next: nat)
    | Returned

  /** live holds the children that have not exited, owner who launched each child. */
  datatype System = System(
    sup: Supervision,
    live: set<Child>,
    owner: map<Child, nat>,
    acts: seq<Act>,
    phase: Phase,
    persisted: seq<Privacy.Grant>,
    unsent: seq<Privacy.Command>,
    queue: seq<Privacy.Command>)

  datatype Step =
    | Begin(leases: seq<ProviderSnapshot>)
    | Read(ok: bool)
    | ReconcileNext(w: World)
    | Finish
    | TakeCommand(w: World)
    | TakeLeases(leases: seq<ProviderSnapshot>)
    | TakeWake
    | TakeStop
    | CloseNext(stamp: nat -> Time)
    | Return
    | Exit(child: Child)
    | Persist(grants: seq<Privacy.Grant>, command: Privacy.Command)
    | Enqueue(index: nat)
    | GiveUp(index: nat)

  const QUEUE_LIMIT := 16

  function Initial(specs: seq<Spec>, persisted: seq<Privacy.Grant>, now: Time): System {
    var controls := seq(|specs|, i requires 0 <= i < |specs| =>
      Control(None, false, false, Runtime(specs[i].providerID, Disabled, DisabledByUser, now)));
    System(Supervision(controls, [], 1, []), {}, map[], [], NotRun, persisted, [], [])
  }

  /** The world a reconcile of worker i sees agrees with what is live, launches
      new children only and has a clock that is set. */
  ghost predicate Honest(s: System, i: nat, w: World)
    requires i < |s.sup.controls|
  {
    var p := s.sup.controls[i].process;
    && (p.Some? ==> (w.exited <==> p.value !in s.live))
    && (w.launch.Some? ==> w.launch.value !in s.owner)
    && forall n {:trigger w.stamp(n)} :: w.stamp(n) != UNSET
  }

  function Reconciled(s: System, i: nat, enabled: bool, w: World): System
    requires i < |s.sup.controls|
  {
    var c := s.sup.controls[i];
    var t := s.(sup := Reconcile(s.sup, i, enabled, w));
    if Attempts(c, enabled) then
      var tried := t.(acts := s.acts + [Attempt(i, w.launch)]);
      if w.launch.Some? then tried.(live := s.live + {w.launch.value}, owner := s.owner[w.launch.value := i]) else tried
    else if enabled then t
    else t.(acts := s.acts + [TurnedOff(i)], live := if c.process.Some? then s.live - {c.process.value} else s.live)
  }

  function Closed(s: System, i: nat, stamp: nat -> Time): System
    requires i < |s.sup.controls|
  {
    var p := s.sup.controls[i].process;
    s.(sup := ShutDown(s.sup, i, stamp), live := if p.Some? then s.live - {p.value} else s.live)
  }

  function RemoveAt<T>(s: seq<T>, i: nat): seq<T>
    requires i < |s|
  {
    s[..i] + s[i + 1..]
  }

  ghost predicate Enabled(specs: seq<Spec>, s: System, step: Step) {
    && |s.sup.controls| == |specs|
    && match step
       case Begin(_) => s.phase.NotRun?
       case Read(_) => s.phase.Reading?
       case ReconcileNext(w) => s.phase.Reconciling? && s.phase.next < |specs| && Honest(s, s.phase.next, w)
       case Finish => s.phase.Reconciling? && s.phase.next >= |specs|
       case TakeCommand(w) =>
         && s.phase.Listening? && s.queue != []
         && (var i := WorkerOf(specs, s.queue[0].permission); i < |specs| ==> Honest(s, i, w))
       case TakeLeases(_) => s.phase.Listening?
       case TakeWake => s.phase.Listening?
       case TakeStop => s.phase.Listening?
       case CloseNext(stamp) => s.phase.Closing? && s.phase.next < |specs| && forall n {:trigger stamp(n)} :: stamp(n) != UNSET
       case Return => s.phase.Closing? && s.phase.next >= |specs|
       case Exit(_) => true
       case Persist(grants, command) => PermissionEnabled(grants, command.permission) == command.enabled
       case Enqueue(i) => i < |s.unsent| && |s.queue| < QUEUE_LIMIT
       case GiveUp(i) => i < |s.unsent|
  }

  ghost function Next(specs: seq<Spec>, s: System, step: Step): System
    requires Enabled(specs, s, step)
  {
    match step
    case Begin(leases) => s.(phase := Reading(true), sup := s.sup.(leases := leases))
    case Read(ok) => s.(phase := if ok then Reconciling(0, s.persisted) else if s.phase.first then Returned else Closing(0))
    case ReconcileNext(w) =>
      var Reconciling(i, grants) := s.phase;
      Reconciled(s, i, PermissionEnabled(grants, specs[i].permission), w).(phase := Reconciling(i + 1, grants))
    case Finish => s.(phase := Listening)
    case TakeCommand(w) =>
      var command := s.queue[0];
      var i := WorkerOf(specs, command.permission);
      (if i < |specs| then Reconciled(s, i, command.enabled, w) else s).(queue := s.queue[1..])
    case TakeLeases(leases) => s.(phase := Reading(false), sup := s.sup.(leases := leases))
    case TakeWake => s.(phase := Reading(false))
    case TakeStop => s.(phase := Closing(0))
    case CloseNext(stamp) => Closed(s, s.phase.next, stamp).(phase := Closing(s.phase.next + 1))
    case Return => s.(phase := Returned)
    case Exit(child) => s.(live := s.live - {child})
    case Persist(grants, command) => s.(persisted := grants, unsent := s.unsent + [command])
    case Enqueue(i) => s.(queue := s.queue + [s.unsent[i]], unsent := RemoveAt(s.unsent, i))
    case GiveUp(i) => s.(unsent := RemoveAt(s.unsent, i))
  }

  ghost predicate Run(specs: seq<Spec>, persisted: seq<Privacy.Grant>, now: Time, steps: seq<Step>, states: seq<System>) {
    && |states| == |steps| + 1 && states[0] == Initial(specs, persisted, now)
    && forall i {:trigger steps[i]} :: 0 <= i < |steps| ==> Enabled(specs, states[i], steps[i]) && states[i + 1] == Next(specs, states[i], steps[i])
  }

  // ---------------------------------------------------------------------------
  // What is published.

  predicate ValidSnapshot(s: Snapshot) { forall i :: 0 <= i < |s.providers| ==> ValidRuntime(s.providers[i]) }

  /** Every snapshot so far was valid, with consecutive revisions, and the last one says
      what the workers show now. */
  ghost predicate PublishedOk(s: Supervision) {
    && s.revision == |s.published| + 1
    && (s.published != [] ==> Last(s.published) == Snapshot(s.revision, Runtimes(s.controls)))
    && (forall i :: 0 <= i < |s.controls| ==> ValidRuntime(s.controls[i].runtime))
    && forall k {:trigger s.published[k]} :: 0 <= k < |s.published| ==> s.published[k].revision == k + 2 && ValidSnapshot(s.published[k])
  }

  ghost predicate StampSet(stamp: nat -> Time) { forall n {:trigger stamp(n)} :: stamp(n) != UNSET }

  lemma ShowPublishes(s: Supervision, i: nat, state: State, reason: Reason, stamp: nat -> Time)
    requires i < |s.controls| && PublishedOk(s) && StampSet(stamp) && ValidStateReason(state, reason)
    ensures PublishedOk(Show(s, i, state, reason, stamp)) && s.published <= Show(s, i, state, reason, stamp).published
    ensures Show(s, i, state, reason, stamp).leases == s.leases
    ensures var r := Show(s, i, state, reason, stamp).controls[i].runtime;
      && r.state == state && r.reason == reason && r.providerID == s.controls[i].runtime.providerID
      && (Show(s, i, state, reason, stamp) != s ==> r.updatedAt == stamp(s.revision + 1))
    ensures forall j :: 0 <= j < |s.controls| ==>
      Show(s, i, state, reason, stamp).controls[j] == s.controls[j].(runtime := Show(s, i, state, reason, stamp).controls[j].runtime)
    ensures forall j :: 0 <= j < |s.controls| && j != i ==> Show(s, i, state, reason, stamp).controls[j] == s.controls[j]
  {
  }

  // ---------------------------------------------------------------------------
  // What one reconcile does to its controller.

  /** Between steps, what a worker shows says exactly what it is. */
  predicate Settled(c: Control) {
    match c.process
    case Some(_) => !c.failed && (c.runtime.state.Starting? || c.runtime.state.Running? || (c.runtime.state.Degraded? && c.runtime.reason.DeviceUnavailable?))
    case None =>
      if c.failed then c.runtime.state.Degraded? && (c.runtime.reason.InternalError? || c.runtime.reason.DependencyUnavailable?)
      else c.runtime.state.Disabled?
  }

  /** The process a reconcile leaves behind. */
  function ProcessAfter(c: Control, enabled: bool, w: World): Option<Child> {
    if !enabled then None
    else if c.process.Some? then (if w.exited then None else c.process)
    else if c.failed then None
    else w.launch
  }

  /** t is s with worker i changed as a step should, and nothing of the others. */
  ghost predicate Moved(s: Supervision, t: Supervision, i: nat)
    requires i < |s.controls|
  {
    && |t.controls| == |s.controls| && PublishedOk(t) && s.published <= t.published
    && (forall j :: 0 <= j < |s.controls| && j != i ==> t.controls[j] == s.controls[j])
    && t.controls[i].runtime.providerID == s.controls[i].runtime.providerID
  }

  lemma SetMoves(s: Supervision, i: nat, c: Control)
    requires i < |s.controls| && PublishedOk(s) && c.runtime == s.controls[i].runtime
    ensures Moved(s, Set(s, i, c), i) && Set(s, i, c).controls[i] == c
  {
  }

  lemma RefreshMoves(s: Supervision, i: nat, w: World)
    requires i < |s.controls| && PublishedOk(s) && StampSet(w.stamp) && s.controls[i].process.Some? && !s.controls[i].failed
    ensures var t := Refresh(s, i, w);
      Moved(s, t, i) && Settled(t.controls[i]) && t.controls[i].process == s.controls[i].process
  {
    var c := s.controls[i].(everHealthy := true);
    SetMoves(s, i, c);
    ShowPublishes(s, i, Degraded, DeviceUnavailable, w.stamp);
    ShowPublishes(s, i, Starting, NoReason, w.stamp);
    ShowPublishes(Set(s, i, c), i, Running, NoReason, w.stamp);
    ShowPublishes(Set(s, i, c), i, Degraded, DeviceUnavailable, w.stamp);
  }

  lemma ReapMoves(s: Supervision, i: nat, enabled: bool, stamp: nat -> Time)
    requires i < |s.controls| && PublishedOk(s) && StampSet(stamp) && !s.controls[i].failed
    ensures var t := Reap(s, i, enabled, stamp);
      Moved(s, t, i) && t.controls[i].process.None? && t.controls[i].failed == enabled && (enabled ==> Settled(t.controls[i]))
  {
    var c := s.controls[i].(process := None);
    SetMoves(s, i, c);
    var gone := Forget(Set(s, i, c), i);
    SetMoves(gone, i, c.(failed := true));
    ShowPublishes(Set(gone, i, c.(failed := true)), i, Degraded, InternalError, stamp);
  }

  lemma TurnOffMoves(s: Supervision, i: nat, stamp: nat -> Time)
    requires i < |s.controls| && PublishedOk(s) && StampSet(stamp)
    ensures var t := TurnOff(s, i, stamp);
      Moved(s, t, i) && t.controls[i].process.None? && !t.controls[i].failed && t.controls[i].runtime.state.Disabled?
  {
    var cleared := Set(s, i, s.controls[i].(failed := false));
    SetMoves(s, i, s.controls[i].(failed := false));
    ShowPublishes(cleared, i, Disabled, DisabledByUser, stamp);
    ShowPublishes(cleared, i, Stopping, ShuttingDown, stamp);
    var stopped := Forget(Show(cleared, i, Stopping, ShuttingDown, stamp), i);
    var c := stopped.controls[i].(process := None, everHealthy := false);
    SetMoves(stopped, i, c);
    ShowPublishes(Set(stopped, i, c), i, Disabled, DisabledByUser, stamp);
  }

  lemma LaunchMoves(s: Supervision, i: nat, w: World)
    requires i < |s.controls| && PublishedOk(s) && StampSet(w.stamp) && s.controls[i].process.None? && !s.controls[i].failed
    ensures var t := Launch(s, i, w);
      Moved(s, t, i) && Settled(t.controls[i]) && t.controls[i].process == w.launch
  {
    ShowPublishes(s, i, Starting, NoReason, w.stamp);
    var starting := Show(s, i, Starting, NoReason, w.stamp);
    if w.launch.None? {
      var c := starting.controls[i].(failed := true);
      SetMoves(starting, i, c);
      ShowPublishes(Set(starting, i, c), i, Degraded, DependencyUnavailable, w.stamp);
    } else {
      var c := starting.controls[i].(process := w.launch);
      SetMoves(starting, i, c);
      RefreshMoves(Set(starting, i, c), i, w);
    }
  }

  lemma ReconcileMoves(s: Supervision, i: nat, enabled: bool, w: World)
    requires i < |s.controls| && PublishedOk(s) && StampSet(w.stamp) && Settled(s.controls[i])
    ensures var t := Reconcile(s, i, enabled, w);
      && Moved(s, t, i) && Settled(t.controls[i])
      && t.controls[i].process == ProcessAfter(s.controls[i], enabled, w)
      && (!enabled ==> !t.controls[i].failed)
      && (enabled ==> t.controls[i].process.Some? || t.controls[i].failed)
  {
    var t := Reaped(s, i, enabled, w);
    if s.controls[i].process.Some? && w.exited {
      ReapMoves(s, i, enabled, w.stamp);
    }
    if !enabled {
      TurnOffMoves(t, i, w.stamp);
    } else if t.controls[i].process.Some? {
      RefreshMoves(t, i, w);
    } else if !t.controls[i].failed {
      LaunchMoves(t, i, w);
    }
  }

  lemma ShutDownMoves(s: Supervision, i: nat, stamp: nat -> Time)
    requires i < |s.controls| && PublishedOk(s) && StampSet(stamp)
    ensures var t := ShutDown(s, i, stamp);
      Moved(s, t, i) && Settled(t.controls[i]) && t.controls[i].process.None? && !t.controls[i].failed
  {
    ShowPublishes(s, i, Stopping, ShuttingDown, stamp);
    var stopping := if s.controls[i].process.Some? then Show(s, i, Stopping, ShuttingDown, stamp) else s;
    var stopped := Forget(stopping, i);
    var c := stopped.controls[i].(process := None, failed := false, everHealthy := false);
    SetMoves(stopped, i, c);
    ShowPublishes(Set(stopped, i, c), i, Disabled, DisabledByUser, stamp);
  }
}
