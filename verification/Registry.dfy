/** The capability provider registry: two maps that index the same mutable records,
    by provider and by lease. It refines one map from providers to leases. */
module Registries {
  import opened Prelude
  import opened Capability

  datatype HealthReason =
    | NoReason | Starting | DeviceUnavailable | DependencyUnavailable | InternalError | ShuttingDown | OtherReason

  /** A normalized registration: capabilities sorted and distinct. */
  datatype Declaration = Declaration(
    providerID: string,
    instanceID: string,
    protocolVersion: string,
    implementationVersion: string,
    capabilities: seq<CapabilityKind>,
    health: ProviderHealth,
    healthReason: HealthReason)

  predicate ValidHealth(h: ProviderHealth, r: HealthReason) { h.Healthy? <==> r.NoReason? }

  predicate ValidDeclaration(d: Declaration) {
    && d.providerID != "" && d.instanceID != "" && d.protocolVersion == "v1" && d.implementationVersion != ""
    && d.capabilities != [] && (forall c :: c in d.capabilities ==> !c.OtherKind?) && ValidHealth(d.health, d.healthReason)
  }

  /** The model: what the registry knows about one provider. */
  datatype Lease = Lease(declaration: Declaration, leaseID: string, health: ProviderHealth, expiresAt: Time)

  type Leases = map<string, Lease>

  datatype Reply =
    | Granted(leaseID: string, expiresAt: Time)
    | Renewed(expiresAt: Time)
    | Removed
    | NoLeaseID
    | Invalid
    | AlreadyExists
    | NotFound
    | Expired

  /** The provider that holds a lease. */
  ghost function Holder(m: Leases, leaseID: string): Option<string> {
    if exists p :: p in m && m[p].leaseID == leaseID then
      var p :| p in m && m[p].leaseID == leaseID;
      Some(p)
    else None
  }

  /** Keys name their providers and no two providers share a lease. */
  ghost predicate Wellformed(m: Leases) {
    && (forall p :: p in m ==> m[p].declaration.providerID == p && m[p].leaseID != "")
    && (forall p, q :: p in m && q in m && m[p].leaseID == m[q].leaseID ==> p == q)
  }

  /** newID is the lease id the generator offers, empty when it failed. */
  function RegisterReply(m: Leases, d: Declaration, newID: string, now: Time, duration: int): Reply {
    if !ValidDeclaration(d) then Invalid
    else if d.providerID in m && now < m[d.providerID].expiresAt then
      if m[d.providerID].declaration == d then Granted(m[d.providerID].leaseID, m[d.providerID].expiresAt) else AlreadyExists
    else if newID == "" then NoLeaseID
    else Granted(newID, now + duration)
  }

  /** A registration replaces an expired lease and leaves an active one alone. */
  function Registered(m: Leases, d: Declaration, newID: string, now: Time, duration: int): Leases {
    if !ValidDeclaration(d) || (d.providerID in m && now < m[d.providerID].expiresAt) || newID == "" then m
    else m[d.providerID := Lease(d, newID, d.health, now + duration)]
  }

  ghost function HeartbeatReply(m: Leases, leaseID: string, health: ProviderHealth, reason: HealthReason, now: Time, duration: int): Reply {
    if leaseID == "" || !ValidHealth(health, reason) then Invalid
    else
      match Holder(m, leaseID)
      case None => NotFound
      case Some(p) => if now >= m[p].expiresAt then Expired else Renewed(now + duration)
  }

  ghost function Beaten(m: Leases, leaseID: string, health: ProviderHealth, reason: HealthReason, now: Time, duration: int): Leases {
    if HeartbeatReply(m, leaseID, health, reason, now, duration).Renewed? then
      var p := Holder(m, leaseID).value;
      m[p := m[p].(health := health, expiresAt := now + duration)]
    else m
  }

  ghost function Unregistered(m: Leases, leaseID: string): Leases {
    if leaseID != "" && Holder(m, leaseID).Some? then m - {Holder(m, leaseID).value} else m
  }

  function Revoked(m: Leases, providerID: string): Leases { m - {providerID} }

  lemma HolderUnique(m: Leases, p: string)
    requires Wellformed(m) && p in m
    ensures Holder(m, m[p].leaseID) == Some(p)
  {
  }

  // ---------------------------------------------------------------------------
  // The two-map registry.

  class ProviderRecord {
    const declaration: Declaration
    const leaseID: string
    var health: ProviderHealth
    var leaseExpiresAt: Time

    constructor (declaration: Declaration, leaseID: string, leaseExpiresAt: Time)
      ensures this.declaration == declaration && this.leaseID == leaseID
      ensures health == declaration.health && this.leaseExpiresAt == leaseExpiresAt
    {
      this.declaration, this.leaseID, this.health, this.leaseExpiresAt := declaration, leaseID, declaration.health, leaseExpiresAt;
    }

    function Value(): Lease
      reads this
    {
      Lease(declaration, leaseID, health, leaseExpiresAt)
    }
  }

  /** The field-by-field comparison the registry makes, with its loop. */
  method SameDeclaration(left: Declaration, right: Declaration) returns (same: bool)
    ensures same <==> left == right
  {
    if left.providerID != right.providerID || left.instanceID != right.instanceID ||
       left.protocolVersion != right.protocolVersion || left.implementationVersion != right.implementationVersion ||
       left.health != right.health || left.healthReason != right.healthReason || |left.capabilities| != |right.capabilities| {
      return false;
    }
    for i := 0 to |left.capabilities|
      invariant left.capabilities[..i] == right.capabilities[..i]
    {
      if left.capabilities[i] != right.capabilities[i] {
        return false;
      }
    }
    assert left.capabilities == left.capabilities[..|left.capabilities|] == right.capabilities[..|right.capabilities|] == right.capabilities;
    same := true;
  }

  class Registry {
    const leaseDuration: int
    var byProvider: map<string, ProviderRecord>
    var byLease: map<string, ProviderRecord>

    /** The two maps are mutually inverse views of the same records. */
    ghost predicate Valid()
      reads this
    {
      && (forall p :: p in byProvider ==>
            && p != "" && byProvider[p].declaration.providerID == p && byProvider[p].leaseID != ""
            && byProvider[p].leaseID in byLease && byLease[byProvider[p].leaseID] == byProvider[p])
      && (forall l :: l in byLease ==>
            && byLease[l].leaseID == l
            && byLease[l].declaration.providerID in byProvider && byProvider[byLease[l].declaration.providerID] == byLease[l])
    }

    ghost function Records(): set<ProviderRecord>
      reads this
    {
      byProvider.Values
    }

    ghost function Model(): Leases
      reads this, Records()
    {
      map p | p in byProvider :: byProvider[p].Value()
    }

    constructor (leaseDuration: int)
      ensures Valid() && Model() == map[] && this.leaseDuration == leaseDuration
    {
      this.leaseDuration := leaseDuration;
      byProvider, byLease := map[], map[];
    }

    lemma ModelWellformed()
      requires Valid()
      ensures Wellformed(Model())
    {
      var m := Model();
      forall p, q | p in m && q in m && m[p].leaseID == m[q].leaseID ensures p == q {
        assert byLease[byProvider[p].leaseID] == byLease[byProvider[q].leaseID];
      }
    }

    /** Looking a lease up by id finds the one provider that holds it. */
    lemma HolderOf(leaseID: string)
      requires Valid()
      ensures Holder(Model(), leaseID) == if leaseID in byLease then Some(byLease[leaseID].declaration.providerID) else None
    {
      ModelWellformed();
      if leaseID in byLease {
        HolderUnique(Model(), byLease[leaseID].declaration.providerID);
      }
    }

    /** newID is the random lease id the generator settled on: it retries until the
        id is not in the lease map, and gives an empty one when it fails. */
    method Register(d: Declaration, newID: string, now: Time) returns (reply: Reply)
      requires Valid() && newID !in byLease
      modifies this
      ensures Valid()
      ensures reply == RegisterReply(old(Model()), d, newID, now, leaseDuration)
      ensures Model() == Registered(old(Model()), d, newID, now, leaseDuration)
    {
      if !ValidDeclaration(d) {
        return Invalid;
      }
      if d.providerID in byProvider {
        var current := byProvider[d.providerID];
        if now < current.leaseExpiresAt {
          var same := SameDeclaration(current.declaration, d);
          return if same then Granted(current.leaseID, current.leaseExpiresAt) else AlreadyExists;
        }
      }
      if newID == "" {
        return NoLeaseID;
      }
      var record := new ProviderRecord(d, newID, now + leaseDuration);
      Install(record);
      reply := Granted(record.leaseID, record.leaseExpiresAt);
    }

    /** Put a record in both maps, dropping the lease it replaces. */
    method Install(record: ProviderRecord)
      requires Valid() && record.leaseID != "" && record.leaseID !in byLease
      requires record.declaration.providerID != ""
      modifies this
      ensures Valid()
      ensures Model() == old(Model())[record.declaration.providerID := record.Value()]
    {
      if record.declaration.providerID in byProvider {
        Remove(byProvider[record.declaration.providerID]);
      }
      Add(record);
    }

    method Add(record: ProviderRecord)
      requires Valid() && record.leaseID != "" && record.leaseID !in byLease
      requires record.declaration.providerID != "" && record.declaration.providerID !in byProvider
      modifies this
      ensures Valid()
      ensures Model() == old(Model())[record.declaration.providerID := record.Value()]
    {
      byProvider := byProvider[record.declaration.providerID := record];
      byLease := byLease[record.leaseID := record];
    }

    method Heartbeat(leaseID: string, health: ProviderHealth, reason: HealthReason, now: Time) returns (reply: Reply)
      requires Valid()
      modifies Records()
      ensures Valid() && byProvider == old(byProvider) && byLease == old(byLease)
      ensures reply == HeartbeatReply(old(Model()), leaseID, health, reason, now, leaseDuration)
      ensures Model() == Beaten(old(Model()), leaseID, health, reason, now, leaseDuration)
    {
      HolderOf(leaseID);
      if leaseID == "" || !ValidHealth(health, reason) {
        return Invalid;
      }
      if leaseID !in byLease {
        return NotFound;
      }
      var record := byLease[leaseID];
      if now >= record.leaseExpiresAt {
        return Expired;
      }
      Renew(record, health, now + leaseDuration);
      reply := Renewed(record.leaseExpiresAt);
    }

    /** Mutate one record in place: seen through both maps, and through no other
        provider's entry. */
    method Renew(record: ProviderRecord, health: ProviderHealth, expiresAt: Time)
      requires Valid() && record in Records()
      modifies record
      ensures record.leaseExpiresAt == expiresAt
      ensures var p := record.declaration.providerID;
        Model() == old(Model())[p := old(record.Value()).(health := health, expiresAt := expiresAt)]
    {
      record.health := health;
      record.leaseExpiresAt := expiresAt;
      assert forall q :: q in byProvider && byProvider[q] == record ==> q == record.declaration.providerID;
    }

    method Unregister(leaseID: string) returns (reply: Reply)
      requires Valid()
      modifies this
      ensures Valid()
      ensures reply == (if leaseID == "" then Invalid else if old(Holder(Model(), leaseID)).None? then NotFound else Removed)
      ensures Model() == Unregistered(old(Model()), leaseID)
    {
      HolderOf(leaseID);
      if leaseID == "" {
        return Invalid;
      }
      if leaseID !in byLease {
        return NotFound;
      }
      Remove(byLease[leaseID]);
      reply := Removed;
    }

    /** Take a record out of both maps. */
    method Remove(record: ProviderRecord)
      requires Valid() && record in Records()
      modifies this
      ensures Valid()
      ensures Model() == old(Model()) - {record.declaration.providerID}
      ensures byProvider == old(byProvider) - {record.declaration.providerID} && byLease == old(byLease) - {record.leaseID}
    {
      byLease := byLease - {record.leaseID};
      if record.declaration.providerID in byProvider && byProvider[record.declaration.providerID] == record {
        byProvider := byProvider - {record.declaration.providerID};
      }
    }

    method RevokeProvider(providerID: string) returns (removed: bool)
      requires Valid()
      modifies this
      ensures Valid()
      ensures removed <==> providerID in old(Model())
      ensures Model() == Revoked(old(Model()), providerID)
    {
      if providerID == "" || providerID !in byProvider {
        assert Model() == Revoked(old(Model()), providerID);
        return false;
      }
      Remove(byProvider[providerID]);
      removed := true;
    }

    method LeaseSnapshot(leaseID: string) returns (lease: Option<Lease>)
      requires Valid()
      ensures lease == match Holder(Model(), leaseID) case None => None case Some(p) => Some(Model()[p])
    {
      HolderOf(leaseID);
      lease := if leaseID in byLease then Some(byLease[leaseID].Value()) else None;
    }
  }
}
