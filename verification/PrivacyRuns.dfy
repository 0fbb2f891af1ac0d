/** Any number of privacy services over one repository, with failures at every stage
    of a save. */
module PrivacyRuns {
  import opened Prelude
  import opened Privacy

  datatype Step =
    | Open(context: Option<Fault>, load: Option<Fault>)
    | Change(service: nat, command: Command, now: Time, context: Option<Fault>, disk: Disk)

  /** The file, every service's memory, and every content the file ever had. */
  datatype Store = Store(cell: Snapshot, services: seq<Snapshot>, history: seq<Snapshot>)

  ghost predicate Ready(s: Store) { forall i :: 0 <= i < |s.services| ==> IsCanonical(s.services[i]) }

  ghost predicate Enabled(s: Store, step: Step) { step.Change? ==> step.service < |s.services| }

  ghost function Next(s: Store, step: Step): Store
    requires Ready(s) && Enabled(s, step)
  {
    match step
    case Open(context, load) =>
      if context.None? && load.None? && Acceptable(s.cell) then s.(services := s.services + [Canonical(s.cell)]) else s
    case Change(i, command, now, context, disk) =>
      var result := ChangeResult(s.services[i], s.cell, command, now, context, disk);
      var cell := ChangedCell(s.services[i], s.cell, command, now, context, disk);
      Store(
        cell,
        if result.Ok? then s.services[i := result.value] else s.services,
        if cell != s.cell then s.history + [cell] else s.history)
  }

  /** The store after each prefix of the steps. */
  ghost predicate Run(first: Snapshot, steps: seq<Step>, stores: seq<Store>) {
    && |stores| == |steps| + 1 && stores[0] == Store(first, [], [first])
    && forall i {:trigger steps[i]} :: 0 <= i < |steps| ==>
         Ready(stores[i]) && Enabled(stores[i], steps[i]) && stores[i + 1] == Next(stores[i], steps[i])
  }

  ghost predicate Dated(s: Snapshot) {
    forall i :: 0 <= i < |s.grants| ==> s.grants[i].enabled ==> s.grants[i].updatedAt != UNSET
  }

  /** Nobody is ahead of the file, and whoever is level with it agrees with it. */
  ghost predicate InStep(s: Store, memory: Snapshot) {
    && IsCanonical(memory) && Dated(memory)
    && memory.revision <= s.cell.revision
    && (memory.revision == s.cell.revision ==> memory == Canonical(s.cell))
  }

  ghost predicate Inv(s: Store) {
    && (forall i :: 0 <= i < |s.services| ==> InStep(s, s.services[i]))
    && s.history != [] && Last(s.history) == s.cell
    && (Acceptable(s.history[0]) || |s.history| > 1 ==> Acceptable(s.cell))
    && forall i {:trigger s.history[i]} :: 0 <= i < |s.history| ==> s.history[i].revision == s.history[0].revision + i
  }

  lemma WithGrantCanonical(memory: Snapshot, command: Command, now: Time)
    requires IsCanonical(memory) && !command.permission.Unknown?
    ensures IsCanonical(WithGrant(memory, command, now)) && Canonical(WithGrant(memory, command, now)) == WithGrant(memory, command, now)
  {
    CanonicalFixed(WithGrant(memory, command, now));
  }

  /** A canonical, dated snapshot after the first revision can be opened again. */
  lemma CanonicalAcceptable(s: Snapshot)
    requires IsCanonical(s) && Dated(s) && s.revision > 0
    ensures Acceptable(s)
  {
    OrderDistinct();
    forall i | 0 <= i < |s.grants| ensures !s.grants[i].permission.Unknown? {
      assert s.grants[i].permission == ORDER[i] && ORDER[i] in ORDER;
    }
  }

  lemma WithGrantDated(memory: Snapshot, command: Command, now: Time)
    requires IsCanonical(memory) && Dated(memory) && !command.permission.Unknown? && now != UNSET
    ensures Dated(WithGrant(memory, command, now))
  {
  }

  /** A change of the file moves it one revision on; its writer was level with it. */
  lemma ChangeAdvances(memory: Snapshot, cell: Snapshot, command: Command, now: Time, context: Option<Fault>, disk: Disk)
    requires IsCanonical(memory) && Dated(memory) && ChangedCell(memory, cell, command, now, context, disk) != cell
    ensures var next := ChangedCell(memory, cell, command, now, context, disk);
      && next.revision == cell.revision + 1 && memory.revision == cell.revision
      && IsCanonical(next) && Canonical(next) == next && Acceptable(next)
      && !command.permission.Unknown? && next == WithGrant(memory, command, now)
  {
    var next := WithGrant(memory, command, now);
    WithGrantCanonical(memory, command, now);
    WithGrantDated(memory, command, now);
    CanonicalAcceptable(next);
  }

  /** What a successful change leaves in memory: either nothing moved, or the memory
      and the file are the same new snapshot. */
  lemma ChangeSucceeds(memory: Snapshot, cell: Snapshot, command: Command, now: Time, context: Option<Fault>, disk: Disk)
    requires IsCanonical(memory) && Dated(memory) && ChangeResult(memory, cell, command, now, context, disk).Ok?
    ensures var next := ChangeResult(memory, cell, command, now, context, disk).value;
      && IsCanonical(next) && Dated(next)
      && (if next.revision == memory.revision then next == memory && ChangedCell(memory, cell, command, now, context, disk) == cell
          else ChangedCell(memory, cell, command, now, context, disk) == next && next.revision == cell.revision + 1)
  {
  }

  lemma StepKeeps(s: Store, step: Step)
    requires Inv(s) && Ready(s) && Enabled(s, step)
    ensures Inv(Next(s, step)) && Ready(Next(s, step))
  {
    var t := Next(s, step);
    match step {
      case Open(_, _) =>
      case Change(k, command, now, context, disk) =>
        if t.cell != s.cell {
          ChangeAdvances(s.services[k], s.cell, command, now, context, disk);
        }
        if ChangeResult(s.services[k], s.cell, command, now, context, disk).Ok? {
          ChangeSucceeds(s.services[k], s.cell, command, now, context, disk);
        }
        forall i | 0 <= i < |t.services| ensures InStep(t, t.services[i]) {
          assert InStep(s, s.services[i]);
        }
    }
  }

  lemma {:induction false} Always(first: Snapshot, steps: seq<Step>, stores: seq<Store>, n: nat)
    requires Run(first, steps, stores) && n < |stores|
    ensures Inv(stores[n]) && Ready(stores[n])
  {
    if n > 0 {
      Always(first, steps, stores, n - 1);
      StepKeeps(stores[n - 1], steps[n - 1]);
    }
  }

  /** The file's contents over a whole run carry consecutive revisions, which never
      wrap, and the file never falls back. */
  lemma RevisionsAdvanceByOne(first: Snapshot, steps: seq<Step>, stores: seq<Store>)
    requires Run(first, steps, stores)
    ensures var s := Last(stores);
      && s.history != [] && Last(s.history) == s.cell
      && s.cell.revision == first.revision + |s.history| - 1
      && forall i {:trigger s.history[i]} :: 0 <= i < |s.history| ==> s.history[i].revision == first.revision + i
  {
    Always(first, steps, stores, |steps|);
    HistoryStart(first, steps, stores, |steps|);
  }

  lemma {:induction false} HistoryStart(first: Snapshot, steps: seq<Step>, stores: seq<Store>, n: nat)
    requires Run(first, steps, stores) && n < |stores|
    ensures stores[n].history != [] && stores[n].history[0] == first
  {
    if n > 0 {
      HistoryStart(first, steps, stores, n - 1);
      assert stores[n] == Next(stores[n - 1], steps[n - 1]);
    }
  }

  /** Every service always holds the canonical eight grants, never ahead of the file,
      and equal to it when level with it. */
  lemma ServicesNeverAhead(first: Snapshot, steps: seq<Step>, stores: seq<Store>, i: nat)
    requires Run(first, steps, stores) && i < |Last(stores).services|
    ensures InStep(Last(stores), Last(stores).services[i])
  {
    Always(first, steps, stores, |steps|);
  }

  /** Whatever a service wrote, a service opened later restores exactly; and a file
      the service could once open it can always open. */
  lemma ReopenRestoresLastWrite(first: Snapshot, steps: seq<Step>, stores: seq<Store>)
    requires Run(first, steps, stores) && (Acceptable(first) || |Last(stores).history| > 1)
    ensures Ready(Last(stores))
    ensures var s := Last(stores);
      Next(s, Open(None, None)) == s.(services := s.services + [Canonical(s.cell)])
    ensures var s := Last(stores);
      forall i :: 0 <= i < |s.services| && s.services[i].revision == s.cell.revision ==> s.services[i] == Canonical(s.cell)
  {
    Always(first, steps, stores, |steps|);
    HistoryStart(first, steps, stores, |steps|);
    forall i | 0 <= i < |Last(stores).services| ensures InStep(Last(stores), Last(stores).services[i]) {
    }
  }

  lemma PositionUnique(p: Permission, i: nat)
    requires i < |ORDER| && !p.Unknown?
    ensures ORDER[i] == p <==> i == Position(p)
  {
    OrderDistinct();
  }

  lemma WithGrantAt(memory: Snapshot, command: Command, now: Time, i: nat)
    requires IsCanonical(memory) && !command.permission.Unknown? && i < |ORDER|
    ensures |WithGrant(memory, command, now).grants| == |ORDER| == |memory.grants|
    ensures WithGrant(memory, command, now).grants[i] ==
      if i == Position(command.permission) then Grant(command.permission, command.enabled, now) else memory.grants[i]
  {
  }

  /** A successful change sets the one permission it names and no other. */
  lemma ChangeSetsExactlyOne(memory: Snapshot, cell: Snapshot, command: Command, now: Time, context: Option<Fault>, disk: Disk, i: nat)
    requires IsCanonical(memory) && i < |ORDER|
    requires ChangeResult(memory, cell, command, now, context, disk).Ok?
    ensures var next := ChangeResult(memory, cell, command, now, context, disk).value;
      && |next.grants| == |ORDER| && |memory.grants| == |ORDER|
      && (if ORDER[i] == command.permission then next.grants[i].enabled == command.enabled else next.grants[i] == memory.grants[i])
      && (ORDER[i] == command.permission && next != memory ==>
            next.grants[i] == Grant(command.permission, command.enabled, now) && next.revision == memory.revision + 1)
  {
    PositionUnique(command.permission, i);
    WithGrantAt(memory, command, now, i);
  }

  /** The service already holds what the command asks for. */
  predicate Holds(memory: Snapshot, command: Command) {
    exists i :: 0 <= i < |memory.grants| && memory.grants[i].permission == command.permission && memory.grants[i].enabled == command.enabled
  }

  lemma HoldsAtPosition(memory: Snapshot, command: Command)
    requires IsCanonical(memory) && !command.permission.Unknown?
    ensures Holds(memory, command) <==> memory.grants[Position(command.permission)].enabled == command.enabled
  {
    if Holds(memory, command) {
      var i :| 0 <= i < |memory.grants| && memory.grants[i].permission == command.permission && memory.grants[i].enabled == command.enabled;
      PositionUnique(command.permission, i);
    }
    PositionUnique(command.permission, Position(command.permission));
  }

  /** Exactly when a change succeeds: the call is live, the permission is known, and the
      service already holds what is asked, or is level with the file, with revisions left,
      a set clock and a disk without a failure. What is asked already is not written. */
  lemma ChangeSucceedsIff(memory: Snapshot, cell: Snapshot, command: Command, now: Time, context: Option<Fault>, disk: Disk)
    requires IsCanonical(memory)
    ensures ChangeResult(memory, cell, command, now, context, disk).Ok? <==>
      && context.None? && !command.permission.Unknown?
      && (Holds(memory, command) || (now != UNSET && memory.revision == cell.revision < MAX_REVISION && disk == Disk(None, None, None)))
    ensures Holds(memory, command) ==> ChangedCell(memory, cell, command, now, context, disk) == cell
  {
    if !command.permission.Unknown? {
      HoldsAtPosition(memory, command);
    } else if Holds(memory, command) {
      OrderDistinct();
    }
  }

  // ---------------------------------------------------------------------------
  // Trailing services.

  predicate Trails(s: Store, i: nat) { i < |s.services| && s.services[i].revision < s.cell.revision }

  lemma TrailingStep(s: Store, step: Step, i: nat)
    requires Ready(s) && Enabled(s, step) && Inv(s) && Trails(s, i)
    ensures Trails(Next(s, step), i) && Next(s, step).services[i] == s.services[i]
  {
    if step.Change? {
      assert InStep(s, s.services[step.service]);
      if Next(s, step).cell != s.cell {
        ChangeAdvances(s.services[step.service], s.cell, step.command, step.now, step.context, step.disk);
      }
    }
  }

  lemma {:induction false} TrailingForever(first: Snapshot, steps: seq<Step>, stores: seq<Store>, i: nat, m: nat, n: nat)
    requires Run(first, steps, stores) && m <= n < |stores| && Trails(stores[m], i)
    ensures Trails(stores[n], i) && stores[n].services[i] == stores[m].services[i]
  {
    if m < n {
      TrailingForever(first, steps, stores, i, m, n - 1);
      Always(first, steps, stores, n - 1);
      TrailingStep(stores[n - 1], steps[n - 1], i);
    }
  }

  /** Once a service trails the file, every later change it attempts fails, unless it
      asks for what the service already holds; and it never writes the file. */
  lemma TrailingNeverChanges(first: Snapshot, steps: seq<Step>, stores: seq<Store>, m: nat, n: nat)
    requires Run(first, steps, stores) && m <= n < |steps| && steps[n].Change? && Trails(stores[m], steps[n].service)
    ensures stores[n + 1] == stores[n]
    ensures var i := steps[n].service; IsCanonical(stores[n].services[i]) && stores[n].services[i] == stores[m].services[i]
    ensures var Change(i, command, now, context, disk) := steps[n];
      var memory := stores[m].services[i];
      var r := ChangeResult(stores[n].services[i], stores[n].cell, command, now, context, disk);
      && (r.Ok? ==> r.value == memory && memory.grants[Position(command.permission)].enabled == command.enabled)
      && (Saves(memory, command, now, context) && disk.early.None? ==> r == Err(StaleInput))
  {
    TrailingForever(first, steps, stores, steps[n].service, m, n);
    Always(first, steps, stores, n);
    assert stores[n + 1] == Next(stores[n], steps[n]);
  }

  // ---------------------------------------------------------------------------
  // A single service.

  predicate LevelOrOneBehind(s: Store) {
    |s.services| == 1 && (s.services[0].revision == s.cell.revision || s.services[0].revision + 1 == s.cell.revision)
  }

  lemma {:induction false} SingleServiceFrom(first: Snapshot, steps: seq<Step>, stores: seq<Store>, n: nat)
    requires Run(first, steps, stores) && 0 < n < |stores| && LevelOrOneBehind(stores[1])
    requires forall i :: 1 <= i < |steps| ==> steps[i].Change?
    ensures LevelOrOneBehind(stores[n])
  {
    if n > 1 {
      SingleServiceFrom(first, steps, stores, n - 1);
      Always(first, steps, stores, n - 1);
      var s, step := stores[n - 1], steps[n - 1];
      assert stores[n] == Next(s, step) && InStep(s, s.services[0]);
      if stores[n].cell != s.cell {
        ChangeAdvances(s.services[0], s.cell, step.command, step.now, step.context, step.disk);
      }
      if ChangeResult(s.services[0], s.cell, step.command, step.now, step.context, step.disk).Ok? {
        ChangeSucceeds(s.services[0], s.cell, step.command, step.now, step.context, step.disk);
      }
    }
  }

  /** One service alone is level with the file or trails it by exactly one. */
  lemma SingleServiceTrailsByAtMostOne(first: Snapshot, steps: seq<Step>, stores: seq<Store>)
    requires Run(first, steps, stores) && Acceptable(first) && steps != [] && steps[0] == Open(None, None)
    requires forall i :: 1 <= i < |steps| ==> steps[i].Change?
    ensures LevelOrOneBehind(Last(stores))
  {
    assert stores[1] == Next(stores[0], steps[0]);
    SingleServiceFrom(first, steps, stores, |steps|);
  }

  // ---------------------------------------------------------------------------
  // Falling behind.

  /** The step replaces the file: a change that reaches it from a level service, with
      revisions left and no failure before the rename. */
  ghost predicate Writes(s: Store, step: Step)
    requires Ready(s) && Enabled(s, step)
  {
    && step.Change? && Saves(s.services[step.service], step.command, step.now, step.context)
    && s.services[step.service].revision == s.cell.revision && s.cell.revision != MAX_REVISION
    && step.disk.early.None? && step.disk.late.None?
  }

  /** Any level service falls behind in exactly two ways: another service's write lands,
      or its own does and the directory sync then fails. */
  lemma FallsBehindIff(s: Store, step: Step, i: nat)
    requires Ready(s) && Enabled(s, step) && i < |s.services| && s.services[i].revision == s.cell.revision
    ensures Trails(Next(s, step), i) <==> Writes(s, step) && (step.service != i || step.disk.sync.Some?)
  {
  }

  /** A change that reports failure is on disk all the same exactly when its write landed
      and the directory sync then failed. */
  lemma FailedChangeOnDiskIff(s: Store, step: Step)
    requires Ready(s) && Enabled(s, step) && step.Change?
    ensures var r := ChangeResult(s.services[step.service], s.cell, step.command, step.now, step.context, step.disk);
      r.Err? && Next(s, step).cell != s.cell <==> Writes(s, step) && step.disk.sync.Some?
  {
  }

  /** "A change that failed is not on disk" fails: the first change of a service over a
      missing file is renamed into place, the sync fails, the caller is told so, and the
      service trails the file from then on. */
  lemma OnDiskThoughFailed() returns (steps: seq<Step>, stores: seq<Store>)
    ensures Run(NEVER_CONFIGURED, steps, stores) && |steps| == 2 && steps[1].Change? && Trails(Last(stores), 0)
    ensures Ready(stores[1]) && |stores[1].services| == 1
    ensures var Change(_, command, now, context, disk) := steps[1];
      ChangeResult(stores[1].services[0], stores[1].cell, command, now, context, disk) == Err(Unavailable)
    ensures Last(stores).cell.revision == 1 && Last(stores).services[0].revision == 0
  {
    var opening, change := Open(None, None), Change(0, ChangePermission(CameraCapture, true), 5, None, Disk(None, None, Some(Unavailable)));
    var first := Store(NEVER_CONFIGURED, [], [NEVER_CONFIGURED]);
    var restored := Next(first, opening);
    var memory := restored.services[0];
    assert IsCanonical(memory) && memory.grants[0] == GrantFor([], CameraCapture);
    var changed := Next(restored, change);
    steps, stores := [opening, change], [first, restored, changed];
    FallsBehindIff(restored, change, 0);
  }
}
