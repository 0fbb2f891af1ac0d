/** What a lease's expiry means over every history of registry calls. */
module LeaseHistory {
  import opened Prelude
  import opened Capability
  import opened Registries

  datatype Call =
    | Register(declaration: Declaration, newID: string)
    | Heartbeat(leaseID: string, health: ProviderHealth, reason: HealthReason)
    | Unregister(leaseID: string)
    | Revoke(providerID: string)

  datatype TimedCall = TimedCall(at: Time, call: Call)

  /** The lease generator's promise: a new id is not in use. It may fail, with no id. */
  ghost predicate Callable(m: Leases, c: Call) {
    c.Register? ==> Holder(m, c.newID).None?
  }

  ghost function Apply(m: Leases, c: TimedCall, duration: int): Leases {
    match c.call
    case Register(d, newID) => Registered(m, d, newID, c.at, duration)
    case Heartbeat(l, h, r) => Beaten(m, l, h, r, c.at, duration)
    case Unregister(l) => Unregistered(m, l)
    case Revoke(p) => Revoked(m, p)
  }

  /** The lease a call issued or renewed, if it did. */
  ghost function Touched(m: Leases, c: TimedCall, duration: int): Option<string> {
    match c.call
    case Register(d, newID) => if Registered(m, d, newID, c.at, duration) != m then Some(newID) else None
    case Heartbeat(l, h, r) => if HeartbeatReply(m, l, h, r, c.at, duration).Renewed? then Some(l) else None
    case _ => None
  }

  ghost function After(history: seq<TimedCall>, duration: int): Leases {
    if history == [] then map[] else Apply(After(history[..|history| - 1], duration), Last(history), duration)
  }

  /** When a lease was last issued or renewed. */
  ghost function LastTouch(history: seq<TimedCall>, duration: int, leaseID: string): Option<Time> {
    if history == [] then None
    else
      var before := history[..|history| - 1];
      if Touched(After(before, duration), Last(history), duration) == Some(leaseID) then Some(Last(history).at)
      else LastTouch(before, duration, leaseID)
  }

  ghost predicate CallableAt(history: seq<TimedCall>, duration: int, i: nat)
    requires i < |history|
  {
    Callable(After(history[..i], duration), history[i].call)
  }

  ghost predicate ValidHistory(history: seq<TimedCall>, duration: int) {
    && duration > 0
    && (forall i {:trigger CallableAt(history, duration, i)} :: 0 <= i < |history| ==> CallableAt(history, duration, i))
    && (forall i, j :: 0 <= i < j < |history| ==> history[i].at <= history[j].at)
  }

  lemma ApplyWellformed(m: Leases, c: TimedCall, duration: int)
    requires Wellformed(m) && Callable(m, c.call)
    ensures Wellformed(Apply(m, c, duration))
  {
    var n := Apply(m, c, duration);
    match c.call {
      case Register(d, newID) =>
        assert forall p :: p in m ==> m[p].leaseID != newID;
      case _ =>
    }
  }

  /** The provider's lease, if it has one, expires a duration after its last touch. */
  ghost predicate OnTime(history: seq<TimedCall>, duration: int, p: string) {
    var m := After(history, duration);
    p in m ==> LastTouch(history, duration, m[p].leaseID) == Some(m[p].expiresAt - duration)
  }

  lemma {:induction false} ValidBefore(history: seq<TimedCall>, duration: int)
    requires ValidHistory(history, duration) && history != []
    ensures ValidHistory(history[..|history| - 1], duration)
    ensures Callable(After(history[..|history| - 1], duration), Last(history).call)
  {
    var before := history[..|history| - 1];
    forall i | 0 <= i < |before| ensures CallableAt(before, duration, i) {
      assert before[..i] == history[..i] && CallableAt(history, duration, i);
    }
    assert history[..|before|] == before && CallableAt(history, duration, |before|);
  }

  lemma {:induction false} OnTimeStep(history: seq<TimedCall>, duration: int, p: string)
    requires history != []
    requires var before := history[..|history| - 1];
      && Wellformed(After(before, duration)) && Callable(After(before, duration), Last(history).call)
      && OnTime(before, duration, p)
    ensures OnTime(history, duration, p)
  {
    var m := After(history[..|history| - 1], duration);
    if p in After(history, duration) {
      TouchOne(m, Last(history), duration, p);
    }
  }

  /** A registered lease expires exactly one lease duration after it was last issued
      or renewed. So it is unexpired at t exactly when that was later than t minus
      the duration. */
  lemma {:induction false} ExpiryIsLastTouch(history: seq<TimedCall>, duration: int)
    requires ValidHistory(history, duration)
    ensures Wellformed(After(history, duration)) && forall p :: OnTime(history, duration, p)
  {
    if history != [] {
      var before := history[..|history| - 1];
      ValidBefore(history, duration);
      ExpiryIsLastTouch(before, duration);
      ApplyWellformed(After(before, duration), Last(history), duration);
      forall p ensures OnTime(history, duration, p) {
        OnTimeStep(history, duration, p);
      }
    }
  }

  /** After one call, a lease was touched by it and expires a duration later, or it
      was there before with the same expiry. */
  lemma TouchOne(m: Leases, c: TimedCall, duration: int, p: string)
    requires Wellformed(m) && Callable(m, c.call) && p in Apply(m, c, duration)
    ensures var n := Apply(m, c, duration);
      if Touched(m, c, duration) == Some(n[p].leaseID) then n[p].expiresAt == c.at + duration
      else p in m && n[p].leaseID == m[p].leaseID && n[p].expiresAt == m[p].expiresAt
  {
    match c.call {
      case Register(d, newID) => TouchRegister(m, d, newID, c.at, duration, p);
      case Heartbeat(l, h, r) => TouchHeartbeat(m, l, h, r, c.at, duration, p);
      case _ =>
    }
  }

  lemma TouchRegister(m: Leases, d: Declaration, newID: string, at: Time, duration: int, p: string)
    requires Wellformed(m) && Holder(m, newID).None? && p in Registered(m, d, newID, at, duration)
    ensures var n := Registered(m, d, newID, at, duration);
      if n != m && n[p].leaseID == newID then n[p].expiresAt == at + duration
      else p in m && n[p] == m[p]
  {
    var n := Registered(m, d, newID, at, duration);
    if n != m {
      assert p != d.providerID ==> n[p] == m[p];
    }
  }

  lemma TouchHeartbeat(m: Leases, l: string, h: ProviderHealth, r: HealthReason, at: Time, duration: int, p: string)
    requires Wellformed(m) && p in Beaten(m, l, h, r, at, duration)
    ensures var n := Beaten(m, l, h, r, at, duration);
      && p in m && n[p].leaseID == m[p].leaseID
      && (if HeartbeatReply(m, l, h, r, at, duration).Renewed? && l == n[p].leaseID then n[p].expiresAt == at + duration
          else n[p].expiresAt == m[p].expiresAt)
  {
    HolderUnique(m, p);
  }

  /** An expired lease is never extended: one more call at a later time leaves it as
      it was, removes it, or replaces it by a lease with another id. */
  lemma ExpiredNeverExtended(m: Leases, c: TimedCall, duration: int, p: string)
    requires Wellformed(m) && Callable(m, c.call) && p in m && c.at >= m[p].expiresAt
    ensures var n := Apply(m, c, duration); p in n ==> n[p] == m[p] || n[p].leaseID != m[p].leaseID
  {
    HolderUnique(m, p);
  }

  // ---------------------------------------------------------------------------
  // A lease shows the health it was last given.

  /** The health the last call that issued or renewed the lease gave it. */
  ghost function LastHealth(history: seq<TimedCall>, duration: int, leaseID: string): Option<ProviderHealth> {
    if history == [] then None
    else
      var before, c := history[..|history| - 1], Last(history);
      if Touched(After(before, duration), c, duration) == Some(leaseID) then
        match c.call case Register(d, _) => Some(d.health) case Heartbeat(_, h, _) => Some(h) case _ => None
      else LastHealth(before, duration, leaseID)
  }

  ghost predicate HealthTrue(history: seq<TimedCall>, duration: int, p: string) {
    var m := After(history, duration);
    p in m ==> LastHealth(history, duration, m[p].leaseID) == Some(m[p].health)
  }

  lemma HealthOne(m: Leases, c: TimedCall, duration: int, p: string)
    requires Wellformed(m) && Callable(m, c.call) && p in Apply(m, c, duration)
    ensures var n := Apply(m, c, duration);
      if Touched(m, c, duration) == Some(n[p].leaseID) then
        match c.call case Register(d, _) => n[p].health == d.health case Heartbeat(_, h, _) => n[p].health == h case _ => false
      else p in m && n[p].leaseID == m[p].leaseID && n[p].health == m[p].health
  {
    match c.call {
      case Register(d, newID) => TouchRegister(m, d, newID, c.at, duration, p);
      case Heartbeat(l, h, r) => HeartbeatHealth(m, l, h, r, c.at, duration, p);
      case _ =>
    }
  }

  lemma HeartbeatHealth(m: Leases, l: string, h: ProviderHealth, r: HealthReason, at: Time, duration: int, p: string)
    requires Wellformed(m) && p in Beaten(m, l, h, r, at, duration)
    ensures var n := Beaten(m, l, h, r, at, duration);
      && p in m && n[p].leaseID == m[p].leaseID
      && n[p].health == if HeartbeatReply(m, l, h, r, at, duration).Renewed? && l == n[p].leaseID then h else m[p].health
  {
    HolderUnique(m, p);
  }

  /** Over every history a registered lease shows the health that the call which last
      issued or renewed it gave. */
  lemma {:induction false} HealthIsLastTouch(history: seq<TimedCall>, duration: int)
    requires ValidHistory(history, duration)
    ensures forall p :: HealthTrue(history, duration, p)
  {
    if history != [] {
      var before := history[..|history| - 1];
      ValidBefore(history, duration);
      HealthIsLastTouch(before, duration);
      ExpiryIsLastTouch(before, duration);
      forall p ensures HealthTrue(history, duration, p) {
        HealthStep(history, duration, p);
      }
    }
  }

  lemma {:induction false} HealthStep(history: seq<TimedCall>, duration: int, p: string)
    requires history != []
    requires var before := history[..|history| - 1];
      && Wellformed(After(before, duration)) && Callable(After(before, duration), Last(history).call) && HealthTrue(before, duration, p)
    ensures HealthTrue(history, duration, p)
  {
    if p in After(history, duration) {
      HealthOne(After(history[..|history| - 1], duration), Last(history), duration, p);
    }
  }

  // ---------------------------------------------------------------------------
  // An unexpired lease is held.

  /** The call gives the lease up or takes it away. */
  predicate Releases(c: Call, p: string, leaseID: string) { c == Revoke(p) || c == Unregister(leaseID) }

  /** A touch happened at one of the calls. */
  lemma {:induction false} TouchedAtCall(history: seq<TimedCall>, duration: int, leaseID: string)
    requires LastTouch(history, duration, leaseID).Some?
    ensures exists k :: 0 <= k < |history| && history[k].at == LastTouch(history, duration, leaseID).value
  {
    var before := history[..|history| - 1];
    if Touched(After(before, duration), Last(history), duration) != Some(leaseID) {
      TouchedAtCall(before, duration, leaseID);
      var k :| 0 <= k < |before| && before[k].at == LastTouch(before, duration, leaseID).value;
      assert history[k] == before[k];
    }
  }

  lemma HeldStep(m: Leases, c: TimedCall, duration: int, p: string)
    requires Wellformed(m) && Callable(m, c.call) && p in m && c.at < m[p].expiresAt <= c.at + duration && !Releases(c.call, p, m[p].leaseID)
    ensures var n := Apply(m, c, duration);
      p in n && n[p].leaseID == m[p].leaseID && n[p].declaration == m[p].declaration && n[p].expiresAt >= m[p].expiresAt
  {
    HolderUnique(m, p);
  }

  lemma {:induction false} ValidUpTo(history: seq<TimedCall>, duration: int, n: nat)
    requires ValidHistory(history, duration) && n <= |history|
    ensures ValidHistory(history[..n], duration)
  {
    forall i | 0 <= i < n ensures CallableAt(history[..n], duration, i) {
      assert history[..n][..i] == history[..i] && CallableAt(history, duration, i);
    }
  }

  /** The expiry is at most one duration after the next call. */
  lemma {:induction false} ExpiryWithinReach(history: seq<TimedCall>, duration: int, n: nat, p: string)
    requires ValidHistory(history, duration) && n < |history| && p in After(history[..n], duration)
    ensures Wellformed(After(history[..n], duration)) && After(history[..n], duration)[p].expiresAt <= history[n].at + duration
  {
    ValidUpTo(history, duration, n);
    ExpiryIsLastTouch(history[..n], duration);
    assert OnTime(history[..n], duration, p);
    TouchedAtCall(history[..n], duration, After(history[..n], duration)[p].leaseID);
  }

  /** After the first n calls the provider still holds lease l, possibly renewed. */
  ghost predicate Holds(history: seq<TimedCall>, duration: int, n: nat, p: string, l: Lease)
    requires n <= |history|
  {
    var t := After(history[..n], duration);
    p in t && t[p].leaseID == l.leaseID && t[p].declaration == l.declaration && t[p].expiresAt >= l.expiresAt
  }

  lemma HoldsNext(history: seq<TimedCall>, duration: int, n: nat, p: string, l: Lease)
    requires ValidHistory(history, duration) && n < |history| && Holds(history, duration, n, p, l)
    requires history[n].at < l.expiresAt && !Releases(history[n].call, p, l.leaseID)
    ensures Holds(history, duration, n + 1, p, l)
  {
    ExpiryWithinReach(history, duration, n, p);
    assert history[..n + 1][..n] == history[..n] && CallableAt(history, duration, n);
    HeldStep(After(history[..n], duration), history[n], duration, p);
  }

  /** The calls from m up to n come before the lease's expiry and leave it alone. */
  ghost predicate Undisturbed(history: seq<TimedCall>, m: nat, n: nat, p: string, l: Lease)
    requires n <= |history|
  {
    forall k :: m <= k < n ==> history[k].at < l.expiresAt && !Releases(history[k].call, p, l.leaseID)
  }

  lemma {:induction false} HeldThrough(history: seq<TimedCall>, duration: int, m: nat, n: nat, p: string, l: Lease)
    requires ValidHistory(history, duration) && m <= n <= |history| && Holds(history, duration, m, p, l) && Undisturbed(history, m, n, p, l)
    ensures Holds(history, duration, n, p, l)
    decreases n
  {
    if m < n {
      assert history[n - 1].at < l.expiresAt && !Releases(history[n - 1].call, p, l.leaseID);
      HeldThrough(history, duration, m, n - 1, p, l);
      HoldsNext(history, duration, n - 1, p, l);
    }
  }

  /** Over every history a provider holds its lease, under the same id and declaration and
      with an expiry that never moves back, through all calls before that expiry that
      neither revoke the provider nor unregister the lease. Meanwhile a registration for
      the provider gets that lease back if it makes the same declaration, and is refused
      if it makes another. */
  lemma {:induction false} HeldUntilExpiry(history: seq<TimedCall>, duration: int, m: nat, n: nat, p: string, d: Declaration, newID: string, now: Time)
    requires ValidHistory(history, duration) && m <= n <= |history| && p in After(history[..m], duration)
    requires Undisturbed(history, m, n, p, After(history[..m], duration)[p])
    ensures var l, t := After(history[..m], duration)[p], After(history[..n], duration);
      && Holds(history, duration, n, p, l)
      && (now < l.expiresAt && ValidDeclaration(d) && d.providerID == p ==>
            RegisterReply(t, d, newID, now, duration) == if d == l.declaration then Granted(l.leaseID, t[p].expiresAt) else AlreadyExists)
  {
    HeldThrough(history, duration, m, n, p, After(history[..m], duration)[p]);
  }

  // ---------------------------------------------------------------------------
  // Who holds which lease.

  ghost predicate HoldsLease(m: Leases, p: string, leaseID: string) { p in m && m[p].leaseID == leaseID }

  /** The call issues a lease to the provider: a valid registration that comes with an id,
      while the provider has no unexpired lease. */
  predicate IssuesTo(m: Leases, c: TimedCall, p: string) {
    && c.call.Register? && c.call.declaration.providerID == p && ValidDeclaration(c.call.declaration) && c.call.newID != ""
    && (p in m ==> c.at >= m[p].expiresAt)
  }

  lemma HoldsStep(m: Leases, c: TimedCall, duration: int, p: string, leaseID: string)
    requires Wellformed(m) && Callable(m, c.call)
    ensures HoldsLease(Apply(m, c, duration), p, leaseID) <==>
      if IssuesTo(m, c, p) then c.call.newID == leaseID else HoldsLease(m, p, leaseID) && !Releases(c.call, p, leaseID)
  {
    if p in m {
      HolderUnique(m, p);
    }
  }

  /** Call k issued this lease to the provider. */
  ghost predicate IssuedAt(history: seq<TimedCall>, duration: int, k: nat, p: string, leaseID: string)
    requires k < |history|
  {
    IssuesTo(After(history[..k], duration), history[k], p) && history[k].call.newID == leaseID
  }

  /** Call j ends the provider's holding of the lease: it revokes, unregisters or replaces. */
  ghost predicate EndedAt(history: seq<TimedCall>, duration: int, j: nat, p: string, leaseID: string)
    requires j < |history|
  {
    Releases(history[j].call, p, leaseID) || IssuesTo(After(history[..j], duration), history[j], p)
  }

  /** Call k is the issue that still stands. */
  ghost predicate StandsFrom(history: seq<TimedCall>, duration: int, k: nat, p: string, leaseID: string)
    requires k < |history|
  {
    IssuedAt(history, duration, k, p, leaseID) && forall j :: k < j < |history| ==> !EndedAt(history, duration, j, p, leaseID)
  }

  ghost predicate Stands(history: seq<TimedCall>, duration: int, p: string, leaseID: string) {
    exists k :: 0 <= k < |history| && StandsFrom(history, duration, k, p, leaseID)
  }

  lemma {:induction false} StandsFromBefore(history: seq<TimedCall>, duration: int, k: nat, p: string, leaseID: string)
    requires history != [] && k < |history| - 1
    ensures StandsFrom(history, duration, k, p, leaseID) <==>
      StandsFrom(history[..|history| - 1], duration, k, p, leaseID) && !EndedAt(history, duration, |history| - 1, p, leaseID)
  {
    var before := history[..|history| - 1];
    assert forall j :: 0 <= j < |before| ==> before[..j] == history[..j] && before[j] == history[j];
    assert forall j :: 0 <= j < |before| ==> (EndedAt(before, duration, j, p, leaseID) <==> EndedAt(history, duration, j, p, leaseID));
  }

  lemma {:induction false} StandsStep(history: seq<TimedCall>, duration: int, p: string, leaseID: string)
    requires history != []
    ensures var before := history[..|history| - 1];
      Stands(history, duration, p, leaseID) <==>
        IssuedAt(history, duration, |before|, p, leaseID)
        || (Stands(before, duration, p, leaseID) && !EndedAt(history, duration, |before|, p, leaseID))
  {
    var before := history[..|history| - 1];
    if Stands(history, duration, p, leaseID) {
      var k :| 0 <= k < |history| && StandsFrom(history, duration, k, p, leaseID);
      if k < |before| {
        StandsFromBefore(history, duration, k, p, leaseID);
      }
    }
    if Stands(before, duration, p, leaseID) && !EndedAt(history, duration, |before|, p, leaseID) {
      var k :| 0 <= k < |before| && StandsFrom(before, duration, k, p, leaseID);
      StandsFromBefore(history, duration, k, p, leaseID);
    }
    if IssuedAt(history, duration, |before|, p, leaseID) {
      assert StandsFrom(history, duration, |before|, p, leaseID);
    }
  }

  /** Over every history a provider holds a lease exactly when some call issued it that
      lease and no later call revoked the provider, unregistered the lease or issued the
      provider another. Nothing else creates, moves or removes a lease. */
  lemma {:induction false} HeldIff(history: seq<TimedCall>, duration: int, p: string, leaseID: string)
    requires ValidHistory(history, duration)
    ensures HoldsLease(After(history, duration), p, leaseID) <==> Stands(history, duration, p, leaseID)
  {
    if history != [] {
      var before := history[..|history| - 1];
      ValidBefore(history, duration);
      HeldIff(before, duration, p, leaseID);
      ExpiryIsLastTouch(before, duration);
      assert history[..|before|] == before && Last(history) == history[|before|];
      HoldsStep(After(before, duration), Last(history), duration, p, leaseID);
      StandsStep(history, duration, p, leaseID);
    }
  }
}
