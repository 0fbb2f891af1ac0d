/** The local worker supervisor: one controller per worker process, the lease view
    it judges health by, and the revisioned runtime snapshots it publishes. */
module Supervisors {
  import opened Prelude
  import opened Capability
  import Privacy

  datatype State = Disabled | Starting | Running | Degraded | Stopping

  datatype Reason =
    | NoReason | DisabledByUser | PermissionDenied | DeviceUnavailable | DependencyUnavailable
    | ModelUnavailable | InternalError | ShuttingDown

  datatype Runtime = Runtime(providerID: string, state: State, reason: Reason, updatedAt: Time)
  datatype Snapshot = Snapshot(revision: nat, providers: seq<Runtime>)

  /** The combinations the desktop boundary can put on the wire. */
  predicate ValidStateReason(state: State, reason: Reason) {
    match state
    case Disabled => reason.DisabledByUser?
    case Starting => reason.NoReason?
    case Running => reason.NoReason?
    case Degraded =>
      reason.PermissionDenied? || reason.DeviceUnavailable? || reason.DependencyUnavailable? || reason.ModelUnavailable? || reason.InternalError?
    case Stopping => reason.ShuttingDown?
  }

  predicate ValidRuntime(r: Runtime) { ValidStateReason(r.state, r.reason) && r.updatedAt != UNSET }

  datatype Spec = Spec(providerID: string, permission: Privacy.Permission)

  // ---------------------------------------------------------------------------
  // The model.

  /** A child process is a number that is never used twice. */
  type Child = nat

  datatype Control = Control(process: Option<Child>, failed: bool, everHealthy: bool, runtime: Runtime)

  /** published holds every snapshot notified so far. */
  datatype Supervision = Supervision(
    controls: seq<Control>, leases: seq<ProviderSnapshot>, revision: nat, published: seq<Snapshot>)

  function Runtimes(controls: seq<Control>): seq<Runtime> {
    seq(|controls|, i requires 0 <= i < |controls| => controls[i].runtime)
  }

  /** What the world answers during one reconcile: whether the child has exited, what
      a launch gives, the time of the health check, and the time of each revision. */
  datatype World = World(exited: bool, launch: Option<Child>, now: Time, stamp: nat -> Time)

  /** Change a worker's runtime and publish, unless nothing would change. */
  function Show(s: Supervision, i: nat, state: State, reason: Reason, stamp: nat -> Time): (t: Supervision)
    requires i < |s.controls|
    ensures |t.controls| == |s.controls|
  {
    var shown := s.controls[i].runtime;
    if shown.state == state && shown.reason == reason then s
    else
      var controls := s.controls[i := s.controls[i].(runtime := Runtime(shown.providerID, state, reason, stamp(s.revision + 1)))];
      s.(controls := controls, revision := s.revision + 1,
         published := s.published + [Snapshot(s.revision + 1, Runtimes(controls))])
  }

  function Set(s: Supervision, i: nat, c: Control): (t: Supervision)
    requires i < |s.controls|
    ensures |t.controls| == |s.controls|
  {
    s.(controls := s.controls[i := c])
  }

  /** The lease view without one provider. */
  function Without(leases: seq<ProviderSnapshot>, providerID: string): seq<ProviderSnapshot> {
    if leases == [] then []
    else
      var rest := Without(leases[..|leases| - 1], providerID);
      if Last(leases).providerID == providerID then rest else rest + [Last(leases)]
  }

  function Forget(s: Supervision, i: nat): (t: Supervision)
    requires i < |s.controls|
    ensures |t.controls| == |s.controls|
  {
    s.(leases := Without(s.leases, s.controls[i].runtime.providerID))
  }

  /** The first lease of a provider. */
  function FirstLease(leases: seq<ProviderSnapshot>, providerID: string): Option<ProviderSnapshot> {
    if leases == [] then None
    else if leases[0].providerID == providerID then Some(leases[0])
    else FirstLease(leases[1..], providerID)
  }

  function Refresh(s: Supervision, i: nat, w: World): (t: Supervision)
    requires i < |s.controls|
    ensures |t.controls| == |s.controls|
  {
    match FirstLease(s.leases, s.controls[i].runtime.providerID)
    case Some(l) =>
      var known := Set(s, i, s.controls[i].(everHealthy := true));
      if l.health.Healthy? && w.now < l.leaseExpiresAt then Show(known, i, Running, NoReason, w.stamp)
      else Show(known, i, Degraded, DeviceUnavailable, w.stamp)
    case None =>
      if s.controls[i].everHealthy then Show(s, i, Degraded, DeviceUnavailable, w.stamp)
      else Show(s, i, Starting, NoReason, w.stamp)
  }

  /** A child was found to have exited by itself. */
  function Reap(s: Supervision, i: nat, enabled: bool, stamp: nat -> Time): (t: Supervision)
    requires i < |s.controls|
    ensures |t.controls| == |s.controls|
  {
    var gone := Forget(Set(s, i, s.controls[i].(process := None)), i);
    if enabled then Show(Set(gone, i, gone.controls[i].(failed := true)), i, Degraded, InternalError, stamp) else gone
  }

  /** Stop the child, if there is one, and wait for it. */
  function TurnOff(s: Supervision, i: nat, stamp: nat -> Time): (t: Supervision)
    requires i < |s.controls|
    ensures |t.controls| == |s.controls|
  {
    var cleared := Set(s, i, s.controls[i].(failed := false));
    if s.controls[i].process.None? then Show(cleared, i, Disabled, DisabledByUser, stamp)
    else
      var stopped := Forget(Show(cleared, i, Stopping, ShuttingDown, stamp), i);
      Show(Set(stopped, i, stopped.controls[i].(process := None, everHealthy := false)), i, Disabled, DisabledByUser, stamp)
  }

  function Launch(s: Supervision, i: nat, w: World): (t: Supervision)
    requires i < |s.controls|
    ensures |t.controls| == |s.controls|
  {
    var starting := Show(s, i, Starting, NoReason, w.stamp);
    if w.launch.None? then
      Show(Set(starting, i, starting.controls[i].(failed := true)), i, Degraded, DependencyUnavailable, w.stamp)
    else
      Refresh(Set(starting, i, starting.controls[i].(process := w.launch)), i, w)
  }

  function Reaped(s: Supervision, i: nat, enabled: bool, w: World): (t: Supervision)
    requires i < |s.controls|
    ensures |t.controls| == |s.controls|
  {
    if s.controls[i].process.Some? && w.exited then Reap(s, i, enabled, w.stamp) else s
  }

  function Reconcile(s: Supervision, i: nat, enabled: bool, w: World): (t: Supervision)
    requires i < |s.controls|
    ensures |t.controls| == |s.controls|
  {
    var t := Reaped(s, i, enabled, w);
    if !enabled then TurnOff(t, i, w.stamp)
    else if t.controls[i].process.Some? then Refresh(t, i, w)
    else if t.controls[i].failed then t
    else Launch(t, i, w)
  }

  /** Whether a reconcile tries to launch a child. */
  predicate Attempts(c: Control, enabled: bool) { enabled && c.process.None? && !c.failed }

  /** One controller's share of the shutdown. */
  function ShutDown(s: Supervision, i: nat, stamp: nat -> Time): (t: Supervision)
    requires i < |s.controls|
    ensures |t.controls| == |s.controls|
  {
    var stopping := if s.controls[i].process.Some? then Show(s, i, Stopping, ShuttingDown, stamp) else s;
    var stopped := Forget(stopping, i);
    Show(Set(stopped, i, stopped.controls[i].(process := None, failed := false, everHealthy := false)), i, Disabled, DisabledByUser, stamp)
  }

  function PermissionEnabled(grants: seq<Privacy.Grant>, p: Privacy.Permission): bool {
    if grants == [] then false
    else if grants[0].permission == p then grants[0].enabled
    else PermissionEnabled(grants[1..], p)
  }

  /** The worker a permission belongs to, or the number of workers. */
  function WorkerOf(specs: seq<Spec>, p: Privacy.Permission): (i: nat)
    ensures i <= |specs| && (i < |specs| ==> specs[i].permission == p)
    ensures forall j :: 0 <= j < i ==> specs[j].permission != p
  {
    if specs == [] || specs[0].permission == p then 0 else 1 + WorkerOf(specs[1..], p)
  }

  /** A round of reconciles: the models it passes through, worker by worker. */
  ghost predicate Round(models: seq<Supervision>, specs: seq<Spec>, grants: seq<Privacy.Grant>, worlds: seq<World>) {
    && 1 <= |models| <= |specs| + 1 && |specs| <= |worlds|
    && forall i {:trigger worlds[i]} :: 0 <= i < |models| - 1 ==>
         && i < |models[i].controls|
         && models[i + 1] == Reconcile(models[i], i, PermissionEnabled(grants, specs[i].permission), worlds[i])
  }

  lemma {:induction false} RoundGrows(models: seq<Supervision>, next: Supervision, specs: seq<Spec>, grants: seq<Privacy.Grant>, worlds: seq<World>)
    requires Round(models, specs, grants, worlds) && |models| <= |specs|
    requires var k := |models| - 1;
      k < |models[k].controls| && next == Reconcile(models[k], k, PermissionEnabled(grants, specs[k].permission), worlds[k])
    ensures Round(models + [next], specs, grants, worlds)
  {
    var longer := models + [next];
    forall i | 0 <= i < |longer| - 1
      ensures i < |longer[i].controls| && longer[i + 1] == Reconcile(longer[i], i, PermissionEnabled(grants, specs[i].permission), worlds[i])
    {
      assert longer[i] == models[i];
    }
  }

  /** A shutdown, likewise. */
  ghost predicate Closing(models: seq<Supervision>, stamp: nat -> Time) {
    && |models| >= 1
    && forall i {:trigger models[i]} :: 0 <= i < |models| - 1 ==> i < |models[i].controls| && models[i + 1] == ShutDown(models[i], i, stamp)
  }

  lemma ClosingGrows(models: seq<Supervision>, next: Supervision, stamp: nat -> Time)
    requires Closing(models, stamp)
    requires var k := |models| - 1; k < |models[k].controls| && next == ShutDown(models[k], k, stamp)
    ensures Closing(models + [next], stamp)
  {
    var longer := models + [next];
    forall i | 0 <= i < |longer| - 1 ensures i < |longer[i].controls| && longer[i + 1] == ShutDown(longer[i], i, stamp) {
      assert longer[i] == models[i];
    }
  }

  // ---------------------------------------------------------------------------
  // The objects.

  class Controller {
    const spec: Spec
    var process: Option<Child>
    var failed: bool
    var everHealthy: bool
    var runtime: Runtime

    constructor (spec: Spec, now: Time)
      ensures this.spec == spec && Value() == Control(None, false, false, Runtime(spec.providerID, Disabled, DisabledByUser, now))
    {
      this.spec := spec;
      process, failed, everHealthy := None, false, false;
      runtime := Runtime(spec.providerID, Disabled, DisabledByUser, now);
    }

    function Value(): Control
      reads this
    {
      Control(process, failed, everHealthy, runtime)
    }
  }

  class Supervisor {
    const controllers: seq<Controller>
    var leaseState: array<ProviderSnapshot>
    var leaseCount: nat
    var revision: nat
    ghost var published: seq<Snapshot>

    ghost predicate Valid()
      reads this, controllers
    {
      && leaseCount <= leaseState.Length
      && (forall i, j :: 0 <= i < j < |controllers| ==> controllers[i] != controllers[j])
      && forall i :: 0 <= i < |controllers| ==> controllers[i].runtime.providerID == controllers[i].spec.providerID
    }

    ghost function Controls(): seq<Control>
      reads controllers
    {
      seq(|controllers|, i requires 0 <= i < |controllers| reads controllers => controllers[i].Value())
    }

    ghost function Model(): Supervision
      requires Valid()
      reads this, controllers, leaseState
    {
      Supervision(Controls(), leaseState[..leaseCount], revision, published)
    }

    constructor (controllers: seq<Controller>)
      requires forall i, j :: 0 <= i < j < |controllers| ==> controllers[i] != controllers[j]
      requires forall i :: 0 <= i < |controllers| ==> controllers[i].runtime.providerID == controllers[i].spec.providerID
      ensures Valid() && this.controllers == controllers && fresh(leaseState)
      ensures Model() == Supervision(Controls(), [], 1, [])
    {
      this.controllers := controllers;
      leaseState := new ProviderSnapshot[0];
      leaseCount, revision, published := 0, 1, [];
    }

    method SnapshotLocked() returns (s: Snapshot)
      requires Valid()
      ensures s == Snapshot(revision, Runtimes(Controls()))
    {
      var providers: seq<Runtime> := [];
      for i := 0 to |controllers|
        invariant |providers| == i && forall j :: 0 <= j < i ==> providers[j] == controllers[j].runtime
      {
        providers := providers + [controllers[i].runtime];
      }
      assert providers == Runtimes(Controls());
      s := Snapshot(revision, providers);
    }

    /** Only controller i moved since the controls were before. */
    lemma ControlsUpdated(before: seq<Control>, i: nat)
      requires i < |controllers| == |before|
      requires forall j :: 0 <= j < |before| && j != i ==> controllers[j].Value() == before[j]
      ensures Controls() == before[i := controllers[i].Value()]
    {
    }

    method SetRuntimeLocked(i: nat, state: State, reason: Reason, stamp: nat -> Time)
      requires Valid() && i < |controllers|
      modifies this`revision, this`published, controllers[i]
      ensures Valid() && Model() == Show(old(Model()), i, state, reason, stamp)
    {
      var item := controllers[i];
      if item.runtime.state == state && item.runtime.reason == reason {
        return;
      }
      item.runtime := Runtime(item.runtime.providerID, state, reason, stamp(revision + 1));
      ControlsUpdated(old(Controls()), i);
      NotifyLocked();
    }

    /** Count the revision up and send the new snapshot to every subscriber. */
    method NotifyLocked()
      requires Valid()
      modifies this`revision, this`published
      ensures revision == old(revision) + 1 && published == old(published) + [Snapshot(revision, Runtimes(Controls()))]
    {
      revision := revision + 1;
      var snapshot := SnapshotLocked();
      published := published + [snapshot];
    }

    /** Filter the lease view in place. */
    method RemoveLeaseStateLocked(providerID: string)
      requires Valid()
      modifies leaseState, this`leaseCount
      ensures Valid() && Model() == old(Model()).(leases := Without(old(Model()).leases, providerID))
    {
      ghost var was := leaseState[..leaseCount];
      var kept, count := 0, leaseCount;
      for i := 0 to count
        invariant leaseCount == count && kept <= i && leaseState[..kept] == Without(was[..i], providerID)
        invariant leaseState[i..count] == was[i..]
      {
        var snapshot := leaseState[i];
        assert was[..i + 1][..i] == was[..i] && snapshot == was[i];
        if snapshot.providerID != providerID {
          leaseState[kept] := snapshot;
          kept := kept + 1;
        }
      }
      assert was[..count] == was;
      leaseCount := kept;
    }

    method RefreshLeaseStateLocked(i: nat, w: World)
      requires Valid() && i < |controllers|
      modifies this`revision, this`published, controllers[i]
      ensures Valid() && Model() == Refresh(old(Model()), i, w)
    {
      var item := controllers[i];
      for j := 0 to leaseCount
        invariant FirstLease(leaseState[..leaseCount], item.spec.providerID) == FirstLease(leaseState[j..leaseCount], item.spec.providerID)
        invariant Valid() && Model() == old(Model())
      {
        var snapshot := leaseState[j];
        assert leaseState[j..leaseCount][1..] == leaseState[j + 1..leaseCount];
        if snapshot.providerID == item.spec.providerID {
          item.everHealthy := true;
          ControlsUpdated(old(Controls()), i);
          if snapshot.health.Healthy? && w.now < snapshot.leaseExpiresAt {
            SetRuntimeLocked(i, Running, NoReason, w.stamp);
          } else {
            SetRuntimeLocked(i, Degraded, DeviceUnavailable, w.stamp);
          }
          return;
        }
      }
      if item.everHealthy {
        SetRuntimeLocked(i, Degraded, DeviceUnavailable, w.stamp);
      } else {
        SetRuntimeLocked(i, Starting, NoReason, w.stamp);
      }
    }

    /** A child that exited by itself gives up its leases; while enabled, it failed. */
    method ReapChild(i: nat, enabled: bool, stamp: nat -> Time)
      requires Valid() && i < |controllers|
      modifies this, leaseState, controllers[i]
      ensures Valid() && leaseState == old(leaseState) && Model() == Reap(old(Model()), i, enabled, stamp)
    {
      var item := controllers[i];
      item.process := None;
      ControlsUpdated(old(Controls()), i);
      RemoveLeaseStateLocked(item.spec.providerID);
      if enabled {
        ghost var before := Controls();
        item.failed := true;
        ControlsUpdated(before, i);
        SetRuntimeLocked(i, Degraded, InternalError, stamp);
      }
    }

    method StopChild(i: nat, stamp: nat -> Time)
      requires Valid() && i < |controllers|
      modifies this, leaseState, controllers[i]
      ensures Valid() && leaseState == old(leaseState) && Model() == TurnOff(old(Model()), i, stamp)
    {
      var item := controllers[i];
      item.failed := false;
      ControlsUpdated(old(Controls()), i);
      if item.process.None? {
        SetRuntimeLocked(i, Disabled, DisabledByUser, stamp);
        return;
      }
      SetRuntimeLocked(i, Stopping, ShuttingDown, stamp);
      RemoveLeaseStateLocked(item.spec.providerID);
      ghost var before := Controls();
      item.process := None;
      item.everHealthy := false;
      ControlsUpdated(before, i);
      SetRuntimeLocked(i, Disabled, DisabledByUser, stamp);
    }

    method LaunchChild(i: nat, w: World)
      requires Valid() && i < |controllers|
      modifies this`revision, this`published, controllers[i]
      ensures Valid() && Model() == Launch(old(Model()), i, w)
    {
      var item := controllers[i];
      SetRuntimeLocked(i, Starting, NoReason, w.stamp);
      ghost var before := Controls();
      if w.launch.None? {
        item.failed := true;
        ControlsUpdated(before, i);
        SetRuntimeLocked(i, Degraded, DependencyUnavailable, w.stamp);
        return;
      }
      item.process := w.launch;
      ControlsUpdated(before, i);
      RefreshLeaseStateLocked(i, w);
    }

    method ReconcileOne(i: nat, enabled: bool, w: World)
      requires Valid() && i < |controllers|
      modifies this, leaseState, controllers[i]
      ensures Valid() && leaseState == old(leaseState) && Model() == Reconcile(old(Model()), i, enabled, w)
    {
      if controllers[i].process.Some? && w.exited {
        ReapChild(i, enabled, w.stamp);
      }
      if !enabled {
        StopChild(i, w.stamp);
      } else if controllers[i].process.Some? {
        RefreshLeaseStateLocked(i, w);
      } else if !controllers[i].failed {
        LaunchChild(i, w);
      }
    }

    method LookUpPermission(grants: seq<Privacy.Grant>, p: Privacy.Permission) returns (enabled: bool)
      ensures enabled == PermissionEnabled(grants, p)
    {
      for i := 0 to |grants|
        invariant PermissionEnabled(grants, p) == PermissionEnabled(grants[i..], p)
      {
        if grants[i].permission == p {
          return grants[i].enabled;
        }
      }
      enabled := false;
    }

    /** Reconcile every worker with the persisted grants, in order. */
    method ReconcileAll(grants: seq<Privacy.Grant>, worlds: seq<World>) returns (ghost models: seq<Supervision>)
      requires Valid() && |worlds| == |controllers|
      modifies this, leaseState, controllers
      ensures Valid() && leaseState == old(leaseState)
      ensures Round(models, Specs(), grants, worlds) && |models| == |controllers| + 1
      ensures models[0] == old(Model()) && models[|controllers|] == Model()
    {
      models := [Model()];
      for i := 0 to |controllers|
        invariant Valid() && leaseState == old(leaseState)
        invariant Round(models, Specs(), grants, worlds) && |models| == i + 1
        invariant models[0] == old(Model()) && models[i] == Model()
      {
        var enabled := LookUpPermission(grants, controllers[i].spec.permission);
        ReconcileOne(i, enabled, worlds[i]);
        RoundGrows(models, Model(), Specs(), grants, worlds);
        models := models + [Model()];
      }
    }

    ghost function Specs(): seq<Spec> { seq(|controllers|, i requires 0 <= i < |controllers| => controllers[i].spec) }

    /** Reconcile the worker that a queued command is about, with the value the
        command carries. */
    method ReconcilePermission(command: Privacy.Command, w: World)
      requires Valid()
      modifies this, leaseState, controllers
      ensures Valid() && leaseState == old(leaseState)
      ensures var i := WorkerOf(Specs(), command.permission);
        Model() == if i < |controllers| then Reconcile(old(Model()), i, command.enabled, w) else old(Model())
    {
      for i := 0 to |controllers|
        invariant Valid() && leaseState == old(leaseState) && Model() == old(Model())
        invariant WorkerOf(Specs(), command.permission) == i + WorkerOf(Specs()[i..], command.permission)
      {
        assert Specs()[i..][1..] == Specs()[i + 1..];
        if controllers[i].spec.permission == command.permission {
          ReconcileOne(i, command.enabled, w);
          return;
        }
      }
    }

    method ShutDownOne(i: nat, stamp: nat -> Time)
      requires Valid() && i < |controllers|
      modifies this, leaseState, controllers[i]
      ensures Valid() && leaseState == old(leaseState) && Model() == ShutDown(old(Model()), i, stamp)
    {
      var item := controllers[i];
      if item.process.Some? {
        SetRuntimeLocked(i, Stopping, ShuttingDown, stamp);
      }
      RemoveLeaseStateLocked(item.spec.providerID);
      ghost var before := Controls();
      item.process := None;
      item.failed := false;
      item.everHealthy := false;
      ControlsUpdated(before, i);
      SetRuntimeLocked(i, Disabled, DisabledByUser, stamp);
    }

    method StopAll(stamp: nat -> Time) returns (ghost models: seq<Supervision>)
      requires Valid()
      modifies this, leaseState, controllers
      ensures Valid() && leaseState == old(leaseState)
      ensures Closing(models, stamp) && |models| == |controllers| + 1
      ensures models[0] == old(Model()) && models[|controllers|] == Model()
    {
      models := [Model()];
      for i := 0 to |controllers|
        invariant Valid() && leaseState == old(leaseState)
        invariant Closing(models, stamp) && |models| == i + 1
        invariant models[0] == old(Model()) && models[i] == Model()
      {
        ShutDownOne(i, stamp);
        ClosingGrows(models, Model(), stamp);
        models := models + [Model()];
      }
    }
  }
}
