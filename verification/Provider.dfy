/** The client half of the lease protocol: one worker's provider session. */
module Provider {
  import opened Prelude
  import opened Capability
  import opened Registries

  datatype SessionConfig = SessionConfig(
    providerID: string, instanceID: string, capability: CapabilityKind, implementationVersion: string, heartbeatInterval: int)

  /** Every registration of a session makes the same declaration. */
  function DeclarationOf(c: SessionConfig): Declaration {
    Declaration(c.providerID, c.instanceID, "v1", c.implementationVersion, [c.capability], Unhealthy, Starting)
  }

  datatype SessionState = SessionState(
    leaseID: string,
    expiresAt: Option<Time>,
    nextHeartbeatAt: Option<Time>,
    healthy: bool,
    closed: bool,
    sourceSeq: nat)

  const NEW_SESSION := SessionState("", None, None, false, false, 0)

  /** What a call came back with: the lease was granted or renewed until some time,
      or the call failed, was refused, or its reply was lost. */
  datatype Answer = Lost | Lease(leaseID: string, expiresAt: Option<Time>)

  function ClearLease(s: SessionState): SessionState {
    s.(leaseID := "", expiresAt := None, nextHeartbeatAt := None, healthy := false)
  }

  function OnRegister(s: SessionState, a: Answer, now: Time): SessionState {
    if a.Lost? || a.leaseID == "" || a.expiresAt.None? || a.expiresAt.value <= now then ClearLease(s)
    else s.(leaseID := a.leaseID, expiresAt := a.expiresAt, nextHeartbeatAt := Some(now), healthy := false)
  }

  function OnHeartbeat(c: SessionConfig, s: SessionState, health: ProviderHealth, a: Answer, now: Time): SessionState {
    if a.Lost? || a.expiresAt.None? || a.expiresAt.value <= now then ClearLease(s)
    else s.(expiresAt := a.expiresAt, nextHeartbeatAt := Some(now + c.heartbeatInterval), healthy := health.Healthy?)
  }

  predicate Active(s: SessionState, now: Time) {
    !s.closed && s.healthy && s.leaseID != "" && s.expiresAt.Some? && now < s.expiresAt.value
  }

  /** Start registers and, if that gave a lease, beats healthy at once. */
  function Started(c: SessionConfig, s: SessionState, register: Answer, beat: Answer, now: Time): SessionState {
    if s.closed then s
    else
      var registered := OnRegister(s, register, now);
      if registered.leaseID == "" then registered else OnHeartbeat(c, registered, Healthy, beat, now)
  }

  /** Maintain restarts without a live lease, beats when a beat is due, and otherwise
      does nothing. */
  function Maintained(c: SessionConfig, s: SessionState, register: Answer, beat: Answer, now: Time): SessionState {
    if s.closed then s
    else if s.leaseID == "" || s.expiresAt.None? || now >= s.expiresAt.value then Started(c, ClearLease(s), register, beat, now)
    else if s.nextHeartbeatAt.Some? && now >= s.nextHeartbeatAt.value then OnHeartbeat(c, s, Healthy, beat, now)
    else s
  }

  class ProviderSession {
    const config: SessionConfig
    var leaseID: string
    var expiresAt: Option<Time>
    var nextHeartbeatAt: Option<Time>
    var healthy: bool
    var closed: bool
    var sourceSeq: nat

    ghost function State(): SessionState
      reads this
    {
      SessionState(leaseID, expiresAt, nextHeartbeatAt, healthy, closed, sourceSeq)
    }

    constructor (config: SessionConfig)
      ensures this.config == config && State() == NEW_SESSION
    {
      this.config := config;
      leaseID, expiresAt, nextHeartbeatAt, healthy, closed, sourceSeq := "", None, None, false, false, 0;
    }

    predicate IsActive(now: Time)
      reads this
      ensures IsActive(now) <==> Active(State(), now)
    {
      if closed || !healthy || leaseID == "" || expiresAt.None? then false else now < expiresAt.value
    }

    method Clear()
      modifies this
      ensures State() == ClearLease(old(State()))
    {
      leaseID, expiresAt, nextHeartbeatAt, healthy := "", None, None, false;
    }

    method Register(answer: Answer, now: Time) returns (ok: bool)
      modifies this
      ensures State() == OnRegister(old(State()), answer, now)
      ensures ok <==> leaseID != ""
    {
      if answer.Lost? {
        Clear();
        return false;
      }
      if answer.leaseID == "" || answer.expiresAt.None? || answer.expiresAt.value <= now {
        Clear();
        return false;
      }
      leaseID, expiresAt, nextHeartbeatAt, healthy := answer.leaseID, answer.expiresAt, Some(now), false;
      ok := true;
    }

    method Heartbeat(health: ProviderHealth, answer: Answer, now: Time) returns (ok: bool)
      modifies this
      ensures State() == if old(leaseID) == "" then old(State()) else OnHeartbeat(config, old(State()), health, answer, now)
      ensures ok <==> healthy && leaseID != ""
    {
      if leaseID == "" {
        return false;
      }
      if answer.Lost? || answer.expiresAt.None? || answer.expiresAt.value <= now {
        Clear();
        return false;
      }
      expiresAt, nextHeartbeatAt, healthy := answer.expiresAt, Some(now + config.heartbeatInterval), health.Healthy?;
      ok := healthy;
    }

    method Start(register: Answer, beat: Answer, now: Time) returns (ok: bool)
      modifies this
      ensures State() == Started(config, old(State()), register, beat, now)
      ensures ok <==> Active(State(), now)
    {
      if closed {
        return false;
      }
      var registered := Register(register, now);
      if !registered {
        return false;
      }
      ok := Heartbeat(Healthy, beat, now);
    }

    /** The answers it leaves unread are calls it does not make. */
    method Maintain(register: Answer, beat: Answer, now: Time) returns (ok: bool)
      modifies this
      ensures State() == Maintained(config, old(State()), register, beat, now)
      ensures ok <==> Active(State(), now)
    {
      if closed {
        return false;
      }
      if leaseID == "" || expiresAt.None? || now >= expiresAt.value {
        Clear();
        ok := Start(register, beat, now);
        return;
      }
      if nextHeartbeatAt.Some? && now >= nextHeartbeatAt.value {
        ok := Heartbeat(Healthy, beat, now);
        return;
      }
      ok := IsActive(now);
    }

    /** Publishing numbers every observation it sends; a lost reply drops the lease
        but never the numbering. */
    method Publish(now: Time, lost: bool) returns (sent: Option<nat>)
      modifies this
      ensures sent.Some? <==> Active(old(State()), now)
      ensures sent.Some? ==> sent.value == old(sourceSeq) + 1
      ensures State() == if sent.None? then old(State())
                         else if lost then ClearLease(old(State()).(sourceSeq := sent.value))
                         else old(State()).(sourceSeq := sent.value)
    {
      if !IsActive(now) {
        return None;
      }
      sourceSeq := sourceSeq + 1;
      sent := Some(sourceSeq);
      if lost {
        Clear();
      }
    }

    /** Close is idempotent and says which lease to unregister. */
    method Close() returns (release: string)
      modifies this
      ensures closed && State() == (if old(closed) then old(State()) else ClearLease(old(State())).(closed := true))
      ensures release == if old(closed) then "" else old(leaseID)
    {
      if closed {
        return "";
      }
      closed := true;
      release := leaseID;
      Clear();
    }
  }

  // ---------------------------------------------------------------------------
  // Keeping a lease.

  /** One call of maintain, and what its registration and its beat would be answered. */
  datatype Visit = Visit(at: Time, register: Answer, beat: Answer)

  function MaintainedAll(c: SessionConfig, s: SessionState, visits: seq<Visit>): SessionState {
    if visits == [] then s
    else
      var before := MaintainedAll(c, s, visits[..|visits| - 1]);
      Maintained(c, before, Last(visits).register, Last(visits).beat, Last(visits).at)
  }

  /** The beat would renew the lease for an interval and a gap. */
  predicate Renews(c: SessionConfig, v: Visit, gap: int) {
    v.beat.Lease? && v.beat.expiresAt.Some? && v.beat.expiresAt.value >= v.at + c.heartbeatInterval + gap
  }

  /** After a visit at a time the session beats again before its lease can run out. */
  predicate Secure(c: SessionConfig, s: SessionState, leaseID: string, at: Time, gap: int) {
    && !s.closed && s.healthy && s.leaseID == leaseID && leaseID != "" && s.expiresAt.Some? && s.nextHeartbeatAt.Some?
    && at < s.nextHeartbeatAt.value <= at + c.heartbeatInterval
    && s.expiresAt.value >= s.nextHeartbeatAt.value + gap
  }

  lemma SecureStep(c: SessionConfig, s: SessionState, leaseID: string, at: Time, gap: int, v: Visit)
    requires c.heartbeatInterval > 0 && gap > 0 && Secure(c, s, leaseID, at, gap) && at <= v.at <= at + gap && Renews(c, v, gap)
    ensures Secure(c, Maintained(c, s, v.register, v.beat, v.at), leaseID, v.at, gap)
  {
  }

  /** A session that is maintained at least once per gap, and whose beats are answered for
      at least an interval and a gap, keeps its lease for ever: it never registers again,
      whatever a registration would bring, and is active at every moment in between. */
  lemma {:induction false} MaintainingKeepsLease(c: SessionConfig, s: SessionState, leaseID: string, at: Time, gap: int, visits: seq<Visit>)
    requires c.heartbeatInterval > 0 && gap > 0 && Secure(c, s, leaseID, at, gap)
    requires forall k :: 0 <= k < |visits| ==> Renews(c, visits[k], gap)
    requires visits != [] ==> at <= visits[0].at <= at + gap
    requires forall k :: 0 < k < |visits| ==> visits[k - 1].at <= visits[k].at <= visits[k - 1].at + gap
    ensures var t, last := MaintainedAll(c, s, visits), if visits == [] then at else Last(visits).at;
      && Secure(c, t, leaseID, last, gap)
      && forall now {:trigger Active(t, now)} :: last <= now <= last + gap ==> Active(t, now)
  {
    if visits != [] {
      var before := visits[..|visits| - 1];
      MaintainingKeepsLease(c, s, leaseID, at, gap, before);
      var last := if before == [] then at else Last(before).at;
      SecureStep(c, MaintainedAll(c, s, before), leaseID, last, gap, Last(visits));
    }
  }

  /** A start whose registration and first beat are answered leaves a session that can be
      kept that way. */
  lemma StartedIsSecure(c: SessionConfig, s: SessionState, now: Time, gap: int, register: Answer, beat: Answer)
    requires c.heartbeatInterval > 0 && gap > 0 && !s.closed
    requires register.Lease? && register.leaseID != "" && register.expiresAt.Some? && register.expiresAt.value > now
    requires Renews(c, Visit(now, register, beat), gap)
    ensures Secure(c, Started(c, s, register, beat, now), register.leaseID, now, gap)
  {
  }

  // ---------------------------------------------------------------------------
  // When a session is active.

  /** The registration brings a lease that lives beyond now. */
  predicate Grants(a: Answer, now: Time) { a.Lease? && a.leaseID != "" && a.expiresAt.Some? && now < a.expiresAt.value }

  /** The beat renews the lease beyond now. */
  predicate Extends(a: Answer, now: Time) { a.Lease? && a.expiresAt.Some? && now < a.expiresAt.value }

  /** A maintained session is active exactly when it is open and its calls were answered
      in time: with a live lease, the beat if one was due; without one, the registration
      and the beat after it. */
  lemma MaintainedActiveIff(c: SessionConfig, s: SessionState, v: Visit)
    ensures Active(Maintained(c, s, v.register, v.beat, v.at), v.at) <==>
      && !s.closed
      && (if s.leaseID != "" && s.expiresAt.Some? && v.at < s.expiresAt.value
          then if s.nextHeartbeatAt.Some? && s.nextHeartbeatAt.value <= v.at then Extends(v.beat, v.at) else s.healthy
          else Grants(v.register, v.at) && Extends(v.beat, v.at))
  {
  }

  /** After an answered beat the session rests for exactly the heartbeat interval: a visit
      before its end makes no call, and one after it, while the lease lives, takes the
      expiry its beat brings or loses the lease. */
  lemma RestsForTheInterval(c: SessionConfig, s: SessionState, beat: Answer, at: Time, v: Visit)
    requires !s.closed && s.leaseID != "" && Extends(beat, at) && at <= v.at < beat.expiresAt.value
    ensures var rested := OnHeartbeat(c, s, Healthy, beat, at);
      var t := Maintained(c, rested, v.register, v.beat, v.at);
      if v.at < at + c.heartbeatInterval then t == rested
      else if Extends(v.beat, v.at) then t.leaseID == s.leaseID && t.expiresAt == v.beat.expiresAt && Active(t, v.at)
      else t.leaseID == "" && t.expiresAt.None? && !t.healthy
  {
  }

  // ---------------------------------------------------------------------------
  // Whole sessions.

  /** A call on the session, with the answers it would get. */
  datatype Call =
    | StartCall(visit: Visit)
    | MaintainCall(visit: Visit)
    | BeatCall(at: Time, health: ProviderHealth, answer: Answer)
    | PublishCall(at: Time, lost: bool)
    | CloseCall

  function Called(c: SessionConfig, s: SessionState, call: Call): SessionState {
    match call
    case StartCall(v) => Started(c, s, v.register, v.beat, v.at)
    case MaintainCall(v) => Maintained(c, s, v.register, v.beat, v.at)
    case BeatCall(at, health, a) => if s.leaseID == "" then s else OnHeartbeat(c, s, health, a, at)
    case PublishCall(at, lost) =>
      if !Active(s, at) then s
      else if lost then ClearLease(s.(sourceSeq := s.sourceSeq + 1)) else s.(sourceSeq := s.sourceSeq + 1)
    case CloseCall => if s.closed then s else ClearLease(s).(closed := true)
  }

  function CalledAll(c: SessionConfig, calls: seq<Call>): SessionState {
    if calls == [] then NEW_SESSION else Called(c, CalledAll(c, calls[..|calls| - 1]), Last(calls))
  }

  /** A session holds a whole lease or nothing of one, and a closed one holds nothing. */
  predicate WholeLease(s: SessionState) {
    && (if s.leaseID == "" then s.expiresAt.None? && s.nextHeartbeatAt.None? && !s.healthy else s.expiresAt.Some? && s.nextHeartbeatAt.Some?)
    && (s.closed ==> s.leaseID == "")
  }

  /** Over every sequence of calls a session holds a whole lease or nothing of one, and
      nothing from its closing on; closing is final and its numbers only grow. */
  lemma {:induction false} AlwaysWholeLease(c: SessionConfig, calls: seq<Call>)
    ensures WholeLease(CalledAll(c, calls))
    ensures CalledAll(c, calls).closed <==> CloseCall in calls
    ensures calls != [] ==>
      var before, s := CalledAll(c, calls[..|calls| - 1]), CalledAll(c, calls);
      && before.sourceSeq <= s.sourceSeq <= before.sourceSeq + 1
      && (before.closed ==> s == before)
  {
    if calls != [] {
      AlwaysWholeLease(c, calls[..|calls| - 1]);
      assert calls == calls[..|calls| - 1] + [Last(calls)];
      CalledKeeps(c, CalledAll(c, calls[..|calls| - 1]), Last(calls));
    }
  }

  lemma CalledKeeps(c: SessionConfig, s: SessionState, call: Call)
    requires WholeLease(s)
    ensures WholeLease(Called(c, s, call)) && (Called(c, s, call).closed <==> s.closed || call.CloseCall?)
    ensures s.sourceSeq <= Called(c, s, call).sourceSeq <= s.sourceSeq + 1 && (s.closed ==> Called(c, s, call) == s)
  {
  }

  /** A registered session is not active before its first beat, which is due at once, and
      which any visit while the lease lives makes. */
  lemma RegisteredIsNotYetActive(c: SessionConfig, s: SessionState, a: Answer, now: Time, v: Visit)
    requires !s.closed
    ensures var r := OnRegister(s, a, now);
      && !Active(r, v.at) && (r.leaseID != "" <==> Grants(a, now))
      && (Grants(a, now) ==> r.leaseID == a.leaseID && r.expiresAt == a.expiresAt)
      && (Grants(a, now) && now <= v.at < a.expiresAt.value ==>
            (Active(Maintained(c, r, v.register, v.beat, v.at), v.at) <==> Extends(v.beat, v.at)))
  {
  }
}
