/** Privacy permissions: the canonical snapshot, the revision-checked file repository
    reduced to one cell, and the service that changes permissions through it. */
module Privacy {
  import opened Prelude

  /** The eight permissions; Unknown stands for any other text. */
  datatype Permission =
    | CameraCapture | MicrophoneCapture | FaceDetection | FaceIdentification
    | FaceLiveness | SpeakerIdentification | SpeakerVerification | SpeechTranscription
    | Unknown(name: string)

  const ORDER: seq<Permission> := [
    CameraCapture, MicrophoneCapture, FaceDetection, FaceIdentification,
    FaceLiveness, SpeakerIdentification, SpeakerVerification, SpeechTranscription]

  datatype Grant = Grant(permission: Permission, enabled: bool, updatedAt: Time)

  /** Revisions are 64-bit unsigned. */
  const MAX_REVISION: nat := 0xFFFF_FFFF_FFFF_FFFF
  type Revision = n: nat | n <= MAX_REVISION

  datatype Snapshot = Snapshot(revision: Revision, grants: seq<Grant>)

  /** What the repository reports when there is no file. */
  const NEVER_CONFIGURED := Snapshot(0, [])

  datatype Command = ChangePermission(permission: Permission, enabled: bool)

  function Incremented(r: Revision): Revision { if r == MAX_REVISION then 0 else r + 1 }

  // ---------------------------------------------------------------------------
  // Canonical snapshots.

  /** Which stored snapshots the service accepts. */
  ghost predicate Acceptable(s: Snapshot) {
    && (s.revision == 0 ==> forall i :: 0 <= i < |s.grants| ==> !s.grants[i].enabled && s.grants[i].updatedAt == UNSET)
    && Indexable(s.grants)
  }

  /** The grant stored for a permission, or its disabled default. */
  function GrantFor(grants: seq<Grant>, p: Permission): (g: Grant)
    ensures g.permission == p
    ensures g in grants || g == Grant(p, false, UNSET)
    ensures (exists i :: 0 <= i < |grants| && grants[i].permission == p) ==> g in grants
  {
    if grants == [] then Grant(p, false, UNSET)
    else if Last(grants).permission == p then Last(grants)
    else GrantFor(grants[..|grants| - 1], p)
  }

  ghost function Canonical(s: Snapshot): Snapshot {
    Snapshot(s.revision, seq(|ORDER|, i requires 0 <= i < |ORDER| => GrantFor(s.grants, ORDER[i])))
  }

  /** All eight grants, in order. */
  ghost predicate IsCanonical(s: Snapshot) {
    && |s.grants| == |ORDER|
    && forall i :: 0 <= i < |ORDER| ==> s.grants[i].permission == ORDER[i]
  }

  lemma OrderDistinct()
    ensures |ORDER| == 8
    ensures forall i, j :: 0 <= i < j < |ORDER| ==> ORDER[i] != ORDER[j]
    ensures forall p: Permission :: !p.Unknown? <==> p in ORDER
  {
  }

  /** With no permission twice, the stored grant is found wherever it stands, so the
      canonical form does not depend on the order of the stored grants. */
  lemma {:induction false} GrantForFinds(grants: seq<Grant>, k: nat)
    requires k < |grants|
    requires forall i, j :: 0 <= i < j < |grants| ==> grants[i].permission != grants[j].permission
    ensures GrantFor(grants, grants[k].permission) == grants[k]
  {
    if k < |grants| - 1 {
      GrantForFinds(grants[..|grants| - 1], k);
    }
  }

  /** Canonical snapshots are fixed points. */
  lemma CanonicalFixed(s: Snapshot)
    requires IsCanonical(s)
    ensures Canonical(s) == s
  {
    OrderDistinct();
    forall i | 0 <= i < |ORDER| ensures GrantFor(s.grants, ORDER[i]) == s.grants[i] {
      GrantForFinds(s.grants, i);
    }
    assert Canonical(s).grants == s.grants;
  }

  /** The canonical form keeps every stored grant, and adds disabled ones only. */
  lemma CanonicalLosesNothing(s: Snapshot, k: nat)
    requires Acceptable(s) && k < |s.grants|
    ensures s.grants[k] in Canonical(s).grants
    ensures forall g :: g in Canonical(s).grants && g !in s.grants ==> !g.enabled && g.updatedAt == UNSET
  {
    OrderDistinct();
    GrantForFinds(s.grants, k);
    var i := Position(s.grants[k].permission);
    assert Canonical(s).grants[i] == s.grants[k];
  }

  method ValidPermission(p: Permission) returns (valid: bool)
    ensures valid <==> !p.Unknown?
  {
    OrderDistinct();
    for i := 0 to |ORDER|
      invariant p !in ORDER[..i]
    {
      if ORDER[i] == p {
        return true;
      }
    }
    assert ORDER[..|ORDER|] == ORDER;
    valid := false;
  }

  method GrantIndex(grants: seq<Grant>, p: Permission) returns (index: int)
    ensures -1 <= index < |grants|
    ensures index >= 0 ==> grants[index].permission == p && forall i :: 0 <= i < index ==> grants[i].permission != p
    ensures index == -1 ==> forall i :: 0 <= i < |grants| ==> grants[i].permission != p
  {
    for i := 0 to |grants|
      invariant forall j :: 0 <= j < i ==> grants[j].permission != p
    {
      if grants[i].permission == p {
        return i;
      }
    }
    index := -1;
  }

  /** Revision zero must be untouched. */
  method CheckRevisionZero(s: Snapshot) returns (ok: bool)
    ensures ok <==> (s.revision == 0 ==> forall i :: 0 <= i < |s.grants| ==> !s.grants[i].enabled && s.grants[i].updatedAt == UNSET)
  {
    if s.revision == 0 {
      for i := 0 to |s.grants|
        invariant forall j :: 0 <= j < i ==> !s.grants[j].enabled && s.grants[j].updatedAt == UNSET
      {
        if s.grants[i].enabled || s.grants[i].updatedAt != UNSET {
          return false;
        }
      }
    }
    ok := true;
  }

  /** Grants the index accepts. */
  ghost predicate Indexable(grants: seq<Grant>) {
    && (forall i :: 0 <= i < |grants| ==> !grants[i].permission.Unknown?)
    && (forall i :: 0 <= i < |grants| ==> grants[i].enabled ==> grants[i].updatedAt != UNSET)
    && (forall i, j :: 0 <= i < j < |grants| ==> grants[i].permission != grants[j].permission)
  }

  /** What the index holds after the first i grants. */
  ghost predicate Indexed(grants: seq<Grant>, i: nat, index: map<Permission, Grant>)
    requires i <= |grants|
  {
    && Indexable(grants[..i])
    && (forall p :: p in index ==> exists k :: 0 <= k < i && grants[k].permission == p)
    && forall p :: GrantFor(grants[..i], p) == if p in index then index[p] else Grant(p, false, UNSET)
  }

  lemma IndexedStep(grants: seq<Grant>, i: nat, index: map<Permission, Grant>)
    requires i < |grants| && Indexed(grants, i, index)
    requires !grants[i].permission.Unknown? && grants[i].permission !in index && (grants[i].enabled ==> grants[i].updatedAt != UNSET)
    requires forall k :: 0 <= k < i ==> grants[k].permission in index
    ensures Indexed(grants, i + 1, index[grants[i].permission := grants[i]])
  {
    assert grants[..i + 1][..i] == grants[..i];
  }

  /** Index the grants by permission, refusing unknown, repeated and undated ones. */
  method IndexGrants(grants: seq<Grant>) returns (index: Option<map<Permission, Grant>>)
    ensures index.Some? <==> Indexable(grants)
    ensures index.Some? ==> forall p :: GrantFor(grants, p) == if p in index.value then index.value[p] else Grant(p, false, UNSET)
  {
    var byPermission: map<Permission, Grant> := map[];
    for i := 0 to |grants|
      invariant Indexed(grants, i, byPermission)
      invariant forall k :: 0 <= k < i ==> grants[k].permission in byPermission
    {
      var grant := grants[i];
      var valid := ValidPermission(grant.permission);
      if !valid || grant.permission in byPermission || (grant.enabled && grant.updatedAt == UNSET) {
        return None;
      }
      IndexedStep(grants, i, byPermission);
      byPermission := byPermission[grant.permission := grant];
    }
    assert grants[..|grants|] == grants;
    index := Some(byPermission);
  }

  method Canonicalize(s: Snapshot) returns (r: Option<Snapshot>)
    ensures r == if Acceptable(s) then Some(Canonical(s)) else None
    ensures r.Some? ==> IsCanonical(r.value)
  {
    var untouched := CheckRevisionZero(s);
    if !untouched {
      return None;
    }
    var index := IndexGrants(s.grants);
    if index.None? {
      return None;
    }
    var grants: seq<Grant> := [];
    for i := 0 to |ORDER|
      invariant |grants| == i && forall j :: 0 <= j < i ==> grants[j] == GrantFor(s.grants, ORDER[j])
    {
      var p := ORDER[i];
      grants := grants + [if p in index.value then index.value[p] else Grant(p, false, UNSET)];
    }
    assert grants == Canonical(s).grants;
    r := Some(Snapshot(s.revision, grants));
  }

  // ---------------------------------------------------------------------------
  // The repository: the file is one cell.

  /** Where a save fails: before the stored revision is read, after the check but
      before the rename, or after the rename, when the directory sync fails. */
  datatype Disk = Disk(early: Option<Fault>, late: Option<Fault>, sync: Option<Fault>)

  /** Whether the compare-and-swap reaches the rename. */
  predicate Replaces(cell: Snapshot, expected: Revision, next: Snapshot, disk: Disk) {
    disk.early.None? && cell.revision == expected && expected != MAX_REVISION && next.revision == expected + 1 && disk.late.None?
  }

  function SaveFault(cell: Snapshot, expected: Revision, next: Snapshot, disk: Disk): Option<Fault> {
    if disk.early.Some? then disk.early
    else if cell.revision != expected then Some(StaleInput)
    else if expected == MAX_REVISION || next.revision != expected + 1 then Some(InvalidInput)
    else if disk.late.Some? then disk.late
    else disk.sync
  }

  class Repository {
    var cell: Snapshot

    constructor (cell: Snapshot)
      ensures this.cell == cell
    {
      this.cell := cell;
    }

    method Load(failure: Option<Fault>) returns (r: Result<Snapshot>)
      ensures r == if failure.Some? then Err(failure.value) else Ok(cell)
    {
      r := if failure.Some? then Err(failure.value) else Ok(cell);
    }

    method Save(expected: Revision, next: Snapshot, disk: Disk) returns (failure: Option<Fault>)
      modifies this
      ensures failure == SaveFault(old(cell), expected, next, disk)
      ensures cell == if Replaces(old(cell), expected, next, disk) then next else old(cell)
    {
      var loaded := Load(disk.early);
      if loaded.Err? {
        return Some(loaded.fault);
      }
      if loaded.value.revision != expected {
        return Some(StaleInput);
      }
      if expected == MAX_REVISION || next.revision != expected + 1 {
        return Some(InvalidInput);
      }
      failure := Replace(next, disk);
    }

    method Replace(next: Snapshot, disk: Disk) returns (failure: Option<Fault>)
      modifies this
      ensures failure == if disk.late.Some? then disk.late else disk.sync
      ensures cell == if disk.late.None? then next else old(cell)
    {
      if disk.late.Some? {
        return disk.late;
      }
      cell := next;
      failure := disk.sync;
    }
  }

  // ---------------------------------------------------------------------------
  // The service.

  /** Where a permission stands in the order. */
  function Position(p: Permission): (i: nat)
    requires !p.Unknown?
    ensures i < |ORDER| && ORDER[i] == p
  {
    match p
    case CameraCapture => 0
    case MicrophoneCapture => 1
    case FaceDetection => 2
    case FaceIdentification => 3
    case FaceLiveness => 4
    case SpeakerIdentification => 5
    case SpeakerVerification => 6
    case SpeechTranscription => 7
  }

  /** The snapshot with one permission set. */
  function WithGrant(s: Snapshot, command: Command, now: Time): Snapshot
    requires IsCanonical(s) && !command.permission.Unknown?
  {
    var i := Position(command.permission);
    Snapshot(Incremented(s.revision), s.grants[i := Grant(command.permission, command.enabled, now)])
  }

  /** A change that reaches the repository, rather than being refused or idempotent. */
  predicate Saves(memory: Snapshot, command: Command, now: Time, context: Option<Fault>)
    requires IsCanonical(memory)
  {
    context.None? && !command.permission.Unknown? &&
    memory.grants[Position(command.permission)].enabled != command.enabled && now != UNSET
  }

  function ChangeResult(memory: Snapshot, cell: Snapshot, command: Command, now: Time, context: Option<Fault>, disk: Disk): Result<Snapshot>
    requires IsCanonical(memory)
  {
    if context.Some? then Err(context.value)
    else if command.permission.Unknown? then Err(InvalidInput)
    else if memory.grants[Position(command.permission)].enabled == command.enabled then Ok(memory)
    else if now == UNSET then Err(InvalidInput)
    else
      var next := WithGrant(memory, command, now);
      match SaveFault(cell, memory.revision, next, disk)
      case Some(f) => Err(f)
      case None => Ok(next)
  }

  function ChangedCell(memory: Snapshot, cell: Snapshot, command: Command, now: Time, context: Option<Fault>, disk: Disk): Snapshot
    requires IsCanonical(memory)
  {
    if Saves(memory, command, now, context) && Replaces(cell, memory.revision, WithGrant(memory, command, now), disk)
    then WithGrant(memory, command, now) else cell
  }

  class Service {
    const repository: Repository
    var current: Snapshot

    ghost predicate Valid()
      reads this
    {
      IsCanonical(current)
    }

    constructor (repository: Repository, snapshot: Snapshot)
      requires IsCanonical(snapshot)
      ensures Valid() && this.repository == repository && current == snapshot
    {
      this.repository, current := repository, snapshot;
    }

    /** Restore the persisted snapshot, filling in the disabled defaults. */
    static method New(repository: Repository, context: Option<Fault>, load: Option<Fault>) returns (r: Result<Service>)
      ensures r.Ok? <==> context.None? && load.None? && Acceptable(repository.cell)
      ensures r.Err? ==> r.fault == if context.Some? then context.value else if load.Some? then load.value else InvalidInput
      ensures r.Ok? ==> fresh(r.value) && r.value.Valid() && r.value.repository == repository && r.value.current == Canonical(repository.cell)
    {
      if context.Some? {
        return Err(context.value);
      }
      var loaded := repository.Load(load);
      if loaded.Err? {
        return Err(loaded.fault);
      }
      var canonical := Canonicalize(loaded.value);
      if canonical.None? {
        return Err(InvalidInput);
      }
      var service := new Service(repository, canonical.value);
      r := Ok(service);
    }

    /** Durably set one permission before making it visible. The grant lookup never
        misses. */
    method Change(command: Command, now: Time, context: Option<Fault>, disk: Disk) returns (r: Result<Snapshot>)
      requires Valid()
      modifies this`current, repository
      ensures Valid()
      ensures r == ChangeResult(old(current), old(repository.cell), command, now, context, disk)
      ensures current == if r.Ok? then r.value else old(current)
      ensures repository.cell == ChangedCell(old(current), old(repository.cell), command, now, context, disk)
    {
      OrderDistinct();
      if context.Some? {
        return Err(context.value);
      }
      var valid := ValidPermission(command.permission);
      if !valid {
        return Err(InvalidInput);
      }
      var index := GrantIndex(current.grants, command.permission);
      assert index == Position(command.permission) by {
        assert current.grants[Position(command.permission)].permission == command.permission;
      }
      if current.grants[index].enabled == command.enabled {
        return Ok(current);
      }
      if now == UNSET {
        return Err(InvalidInput);
      }
      var next := Snapshot(Incremented(current.revision), current.grants[index := Grant(command.permission, command.enabled, now)]);
      var failure := repository.Save(current.revision, next, disk);
      if failure.Some? {
        return Err(failure.value);
      }
      current := next;
      r := Ok(current);
    }
  }
}
