/** The lease protocol as a distributed system: any number of provider sessions, one
    registry, and a network that may lose or delay every request and every reply. A
    request may be served long after its session gave up on it. */
module LeaseProtocol {
  import opened Prelude
  import opened Capability
  import opened Registries
  import opened Provider

  datatype Request =
    | Register(session: nat)
    | Beat(session: nat, leaseID: string, health: ProviderHealth)

  datatype Response = Response(request: Request, answer: Answer)

  /** A session and the call it is blocked on. */
  datatype Peer = Peer(state: SessionState, waiting: Option<nat>)

  /** promised and issuedTo record, per lease id, the latest expiry ever given out
      and the session whose registration issued it. */
  datatype Net = Net(
    now: Time,
    leases: Leases,
    peers: map<nat, Peer>,
    requests: map<nat, Request>,
    responses: map<nat, Response>,
    nextCall: nat,
    promised: map<string, Time>,
    issuedTo: map<string, nat>)

  datatype Step =
    | Tick(to: Time)
    | SendRegister(session: nat)
    | SendBeat(session: nat, health: ProviderHealth)
    | Serve(call: nat, newID: string)
    | Drop(call: nat)
    | Deliver(session: nat)
    | GiveUp(session: nat)
    | Remove(providerID: string)
    | Close(session: nat)

  datatype Setup = Setup(configs: map<nat, SessionConfig>, duration: int)

  function Initial(setup: Setup, now: Time): Net {
    Net(now, map[], map k | k in setup.configs :: Peer(NEW_SESSION, None), map[], map[], 0, map[], map[])
  }

  function ReasonFor(h: ProviderHealth): HealthReason { if h.Healthy? then NoReason else DeviceUnavailable }

  function AnswerOf(r: Reply): Answer {
    match r
    case Granted(l, e) => Answer.Lease(l, Some(e))
    case Renewed(e) => Answer.Lease("", Some(e))
    case _ => Lost
  }

  function Post(s: Net, k: nat, r: Request): Net
    requires k in s.peers
  {
    s.(requests := s.requests[s.nextCall := r], peers := s.peers[k := s.peers[k].(waiting := Some(s.nextCall))], nextCall := s.nextCall + 1)
  }

  /** Whether a registration issues a new lease: it is valid, no unexpired lease is in its
      way, and there is an id for it. */
  predicate Issues(m: Leases, d: Declaration, newID: string, now: Time) {
    ValidDeclaration(d) && !(d.providerID in m && now < m[d.providerID].expiresAt) && newID != ""
  }

  function Answered(s: Net, n: nat, r: Request, reply: Reply): Net {
    s.(requests := s.requests - {n}, responses := s.responses[n := Response(r, AnswerOf(reply))])
  }

  function ServeRegister(setup: Setup, s: Net, n: nat, k: nat, newID: string): Net
    requires k in setup.configs
  {
    var d := DeclarationOf(setup.configs[k]);
    var served := Answered(s, n, Register(k), RegisterReply(s.leases, d, newID, s.now, setup.duration))
                  .(leases := Registered(s.leases, d, newID, s.now, setup.duration));
    if Issues(s.leases, d, newID, s.now) then
      served.(promised := s.promised[newID := s.now + setup.duration], issuedTo := s.issuedTo[newID := k])
    else served
  }

  ghost function ServeBeat(setup: Setup, s: Net, n: nat, r: Request): Net
    requires r.Beat?
  {
    var reason := ReasonFor(r.health);
    var reply := HeartbeatReply(s.leases, r.leaseID, r.health, reason, s.now, setup.duration);
    var leases := Beaten(s.leases, r.leaseID, r.health, reason, s.now, setup.duration);
    var served := Answered(s, n, r, reply);
    if reply.Renewed? then served.(leases := leases, promised := s.promised[r.leaseID := s.now + setup.duration]) else served
  }

  function Receive(setup: Setup, s: Net, k: nat, n: nat): Net
    requires k in s.peers && k in setup.configs && n in s.responses
  {
    var Response(r, a) := s.responses[n];
    var state := s.peers[k].state;
    var heard := match r
      case Register(_) => OnRegister(state, a, s.now)
      case Beat(_, _, health) => OnHeartbeat(setup.configs[k], state, health, a, s.now);
    s.(responses := s.responses - {n}, peers := s.peers[k := Peer(heard, None)])
  }

  function WithPeer(s: Net, k: nat, state: SessionState): Net { s.(peers := s.peers[k := Peer(state, None)]) }

  ghost function Next(setup: Setup, s: Net, step: Step): Option<Net> {
    match step
    case Tick(to) => if to < s.now then None else Some(s.(now := to))
    case SendRegister(k) =>
      if k !in s.peers || s.peers[k].waiting.Some? || s.peers[k].state.closed then None else Some(Post(s, k, Register(k)))
    case SendBeat(k, health) =>
      if k !in s.peers || s.peers[k].waiting.Some? || s.peers[k].state.leaseID == "" then None
      else Some(Post(s, k, Beat(k, s.peers[k].state.leaseID, health)))
    case Serve(n, newID) =>
      if n !in s.requests || s.requests[n].session !in setup.configs || Holder(s.leases, newID).Some? then None
      else Some(match s.requests[n]
                case Register(k) => ServeRegister(setup, s, n, k, newID)
                case Beat(_, _, _) => ServeBeat(setup, s, n, s.requests[n]))
    case Drop(n) => Some(s.(requests := s.requests - {n}, responses := s.responses - {n}))
    case Deliver(k) =>
      if k !in s.peers || k !in setup.configs || s.peers[k].waiting.None? || s.peers[k].waiting.value !in s.responses then None
      else Some(Receive(setup, s, k, s.peers[k].waiting.value))
    case GiveUp(k) => if k !in s.peers || s.peers[k].waiting.None? then None else Some(WithPeer(s, k, ClearLease(s.peers[k].state)))
    case Remove(p) => Some(s.(leases := Revoked(s.leases, p)))
    case Close(k) => if k !in s.peers then None else Some(WithPeer(s, k, ClearLease(s.peers[k].state).(closed := true)))
  }

  ghost function Run(setup: Setup, now: Time, steps: seq<Step>): Option<Net> {
    if steps == [] then Some(Initial(setup, now))
    else
      match Run(setup, now, steps[..|steps| - 1])
      case None => None
      case Some(s) => Next(setup, s, Last(steps))
  }

  // ---------------------------------------------------------------------------
  // The invariant.

  /** Expiry e is within what was promised for the lease. */
  predicate Within(s: Net, leaseID: string, e: Option<Time>) {
    e.Some? ==> leaseID in s.promised && e.value <= s.promised[leaseID]
  }

  predicate LeaseOk(setup: Setup, s: Net, l: Lease) {
    && l.leaseID in s.promised && l.expiresAt == s.promised[l.leaseID]
    && l.leaseID in s.issuedTo && s.issuedTo[l.leaseID] in setup.configs
    && l.declaration == DeclarationOf(setup.configs[s.issuedTo[l.leaseID]])
  }

  predicate ResponseOk(s: Net, r: Response) {
    r.answer.Lost? || Within(s, if r.request.Register? then r.answer.leaseID else r.request.leaseID, r.answer.expiresAt)
  }

  /** The session's own view of its lease, and its outstanding call. */
  predicate PeerOk(s: Net, k: nat) {
    k in s.peers ==>
      var peer := s.peers[k];
      && (peer.state.leaseID != "" ==> Within(s, peer.state.leaseID, peer.state.expiresAt))
      && (peer.waiting.Some? ==>
            var n := peer.waiting.value;
            && n < s.nextCall
            && (n in s.requests && s.requests[n].Beat? ==> s.requests[n].leaseID == peer.state.leaseID)
            && (n in s.responses && s.responses[n].request.Beat? ==> s.responses[n].request.leaseID == peer.state.leaseID))
  }

  ghost predicate Inv(setup: Setup, s: Net) {
    && setup.duration > 0
    && Wellformed(s.leases)
    && (forall l :: l in s.promised ==> s.promised[l] <= s.now + setup.duration)
    && (forall p :: p in s.leases ==> LeaseOk(setup, s, s.leases[p]))
    && (forall n :: n in s.responses ==> ResponseOk(s, s.responses[n]))
    && (forall n :: n in s.requests || n in s.responses ==> n < s.nextCall)
    && (forall k :: PeerOk(s, k))
  }

  /** Promises only grow, so everything within them stays within them. */
  predicate PromisesGrow(s: Net, t: Net) {
    forall l :: l in s.promised ==> l in t.promised && s.promised[l] <= t.promised[l]
  }

  /** Serving call n moves it from the requests to the responses. */
  lemma ServedPeers(s: Net, t: Net, n: nat, a: Answer)
    requires forall k :: PeerOk(s, k)
    requires PromisesGrow(s, t) && t.peers == s.peers && t.nextCall == s.nextCall && n in s.requests
    requires t.requests == s.requests - {n} && t.responses == s.responses[n := Response(s.requests[n], a)]
    ensures forall k :: PeerOk(t, k)
  {
    forall k ensures PeerOk(t, k) {
      assert PeerOk(s, k);
    }
  }

  lemma ServedResponses(s: Net, t: Net, n: nat, r: Response)
    requires forall m :: m in s.responses ==> ResponseOk(s, s.responses[m])
    requires PromisesGrow(s, t) && t.responses == s.responses[n := r] && ResponseOk(t, r)
    ensures forall m :: m in t.responses ==> ResponseOk(t, t.responses[m])
  {
    forall m | m in t.responses ensures ResponseOk(t, t.responses[m]) {
      if m != n {
        assert ResponseOk(s, s.responses[m]);
      }
    }
  }

  /** Issuing a lease under an unused id keeps the lease table consistent. */
  lemma IssuedLeases(setup: Setup, s: Net, t: Net, k: nat, newID: string)
    requires Inv(setup, s) && k in setup.configs && newID != "" && Holder(s.leases, newID).None?
    requires var d := DeclarationOf(setup.configs[k]);
      && t.leases == s.leases[d.providerID := Lease.Lease(d, newID, d.health, s.now + setup.duration)]
      && t.promised == s.promised[newID := s.now + setup.duration] && t.issuedTo == s.issuedTo[newID := k]
    ensures Wellformed(t.leases) && forall p :: p in t.leases ==> LeaseOk(setup, t, t.leases[p])
  {
    assert forall x :: x in s.leases ==> s.leases[x].leaseID != newID;
    forall p | p in t.leases ensures LeaseOk(setup, t, t.leases[p]) {
      if p != setup.configs[k].providerID {
        assert LeaseOk(setup, s, s.leases[p]);
      }
    }
  }

  /** The unissued case: the reply repeats the holder's lease or refuses. */
  lemma UnissuedAnswer(setup: Setup, s: Net, k: nat, newID: string)
    requires Inv(setup, s) && k in setup.configs && !Issues(s.leases, DeclarationOf(setup.configs[k]), newID, s.now)
    ensures var reply := RegisterReply(s.leases, DeclarationOf(setup.configs[k]), newID, s.now, setup.duration);
      ResponseOk(s, Response(Register(k), AnswerOf(reply)))
  {
    var d := DeclarationOf(setup.configs[k]);
    if d.providerID in s.leases {
      assert LeaseOk(setup, s, s.leases[d.providerID]);
    }
  }

  /** A served registration, whatever it did to the leases. */
  lemma RegisterServed(setup: Setup, s: Net, t: Net, n: nat, k: nat, answer: Answer)
    requires Inv(setup, s) && n in s.requests && s.requests[n] == Register(k) && PromisesGrow(s, t)
    requires t.peers == s.peers && t.nextCall == s.nextCall && t.now == s.now
    requires t.requests == s.requests - {n} && t.responses == s.responses[n := Response(Register(k), answer)]
    requires ResponseOk(t, Response(Register(k), answer))
    requires Wellformed(t.leases) && forall p :: p in t.leases ==> LeaseOk(setup, t, t.leases[p])
    requires forall l :: l in t.promised ==> t.promised[l] <= t.now + setup.duration
    ensures Inv(setup, t)
  {
    ServedPeers(s, t, n, answer);
    ServedResponses(s, t, n, Response(Register(k), answer));
  }

  lemma ServeRegisterKeeps(setup: Setup, s: Net, n: nat, k: nat, newID: string)
    requires Inv(setup, s) && n in s.requests && s.requests[n] == Register(k) && k in setup.configs
    requires Holder(s.leases, newID).None?
    ensures Inv(setup, ServeRegister(setup, s, n, k, newID))
  {
    var t, d := ServeRegister(setup, s, n, k, newID), DeclarationOf(setup.configs[k]);
    assert PromisesGrow(s, t);
    if Issues(s.leases, d, newID, s.now) {
      IssuedLeases(setup, s, t, k, newID);
    } else {
      UnissuedAnswer(setup, s, k, newID);
      SameLeases(setup, s, t);
    }
    RegisterServed(setup, s, t, n, k, AnswerOf(RegisterReply(s.leases, d, newID, s.now, setup.duration)));
  }

  lemma SameLeases(setup: Setup, s: Net, t: Net)
    requires Inv(setup, s) && t.leases == s.leases && t.promised == s.promised && t.issuedTo == s.issuedTo
    ensures Wellformed(t.leases) && forall p :: p in t.leases ==> LeaseOk(setup, t, t.leases[p])
  {
    forall p | p in t.leases ensures LeaseOk(setup, t, t.leases[p]) {
      assert LeaseOk(setup, s, s.leases[p]);
    }
  }

  lemma RenewedLeases(setup: Setup, s: Net, t: Net, r: Request)
    requires Inv(setup, s) && r.Beat?
    requires HeartbeatReply(s.leases, r.leaseID, r.health, ReasonFor(r.health), s.now, setup.duration).Renewed?
    requires t.leases == Beaten(s.leases, r.leaseID, r.health, ReasonFor(r.health), s.now, setup.duration)
    requires t.promised == s.promised[r.leaseID := s.now + setup.duration] && t.issuedTo == s.issuedTo
    ensures Wellformed(t.leases) && forall p :: p in t.leases ==> LeaseOk(setup, t, t.leases[p])
  {
    forall p | p in t.leases ensures LeaseOk(setup, t, t.leases[p]) {
      assert LeaseOk(setup, s, s.leases[p]);
      HolderUnique(s.leases, p);
    }
  }

  lemma ServeBeatKeeps(setup: Setup, s: Net, n: nat)
    requires Inv(setup, s) && n in s.requests && s.requests[n].Beat?
    ensures Inv(setup, ServeBeat(setup, s, n, s.requests[n]))
  {
    var r := s.requests[n];
    var t := ServeBeat(setup, s, n, r);
    var reply := HeartbeatReply(s.leases, r.leaseID, r.health, ReasonFor(r.health), s.now, setup.duration);
    assert PromisesGrow(s, t);
    ServedPeers(s, t, n, AnswerOf(reply));
    ServedResponses(s, t, n, Response(r, AnswerOf(reply)));
    if reply.Renewed? {
      RenewedLeases(setup, s, t, r);
    } else {
      SameLeases(setup, s, t);
    }
  }

  lemma ReceiveKeeps(setup: Setup, s: Net, k: nat, n: nat)
    requires Inv(setup, s) && k in s.peers && k in setup.configs && s.peers[k].waiting == Some(n) && n in s.responses
    ensures Inv(setup, Receive(setup, s, k, n))
  {
    var t := Receive(setup, s, k, n);
    assert PeerOk(s, k) && ResponseOk(s, s.responses[n]);
    forall p | p in t.leases ensures LeaseOk(setup, t, t.leases[p]) {
      assert LeaseOk(setup, s, s.leases[p]);
    }
    forall j ensures PeerOk(t, j) {
      assert PeerOk(s, j);
    }
    forall m | m in t.responses ensures ResponseOk(t, t.responses[m]) {
      assert ResponseOk(s, s.responses[m]);
    }
  }

  lemma PostKeeps(setup: Setup, s: Net, k: nat, r: Request)
    requires Inv(setup, s) && k in s.peers && (r.Beat? ==> r.leaseID == s.peers[k].state.leaseID)
    ensures Inv(setup, Post(s, k, r))
  {
    var t := Post(s, k, r);
    forall p | p in t.leases ensures LeaseOk(setup, t, t.leases[p]) {
      assert LeaseOk(setup, s, s.leases[p]);
    }
    forall j ensures PeerOk(t, j) {
      assert PeerOk(s, j);
    }
    forall m | m in t.responses ensures ResponseOk(t, t.responses[m]) {
      assert ResponseOk(s, s.responses[m]);
    }
  }

  /** Steps that only take messages, leases or session state away, or pass time. */
  lemma ShrinkKeeps(setup: Setup, s: Net, t: Net)
    requires Inv(setup, s) && t.now >= s.now && t.promised == s.promised && t.issuedTo == s.issuedTo && t.nextCall == s.nextCall
    requires forall p :: p in t.leases ==> p in s.leases && t.leases[p] == s.leases[p]
    requires forall n :: n in t.requests ==> n in s.requests && t.requests[n] == s.requests[n]
    requires forall n :: n in t.responses ==> n in s.responses && t.responses[n] == s.responses[n]
    requires forall k :: k in t.peers ==> k in s.peers && (t.peers[k] == s.peers[k] || (t.peers[k].waiting.None? && t.peers[k].state.leaseID == ""))
    ensures Inv(setup, t)
  {
    forall p | p in t.leases ensures LeaseOk(setup, t, t.leases[p]) {
      assert LeaseOk(setup, s, s.leases[p]);
    }
    forall j ensures PeerOk(t, j) {
      assert PeerOk(s, j);
    }
    forall m | m in t.responses ensures ResponseOk(t, t.responses[m]) {
      assert ResponseOk(s, s.responses[m]);
    }
  }

  lemma StepKeeps(setup: Setup, s: Net, step: Step)
    requires Inv(setup, s) && Next(setup, s, step).Some?
    ensures Inv(setup, Next(setup, s, step).value)
  {
    var t := Next(setup, s, step).value;
    match step {
      case SendRegister(k) => PostKeeps(setup, s, k, Register(k));
      case SendBeat(k, health) => PostKeeps(setup, s, k, Beat(k, s.peers[k].state.leaseID, health));
      case Serve(n, newID) =>
        if s.requests[n].Register? {
          ServeRegisterKeeps(setup, s, n, s.requests[n].session, newID);
        } else {
          ServeBeatKeeps(setup, s, n);
        }
      case Deliver(k) => ReceiveKeeps(setup, s, k, s.peers[k].waiting.value);
      case _ => ShrinkKeeps(setup, s, t);
    }
  }

  lemma {:induction false} AlwaysInv(setup: Setup, now: Time, steps: seq<Step>)
    requires setup.duration > 0 && Run(setup, now, steps).Some?
    ensures Inv(setup, Run(setup, now, steps).value)
  {
    if steps != [] {
      AlwaysInv(setup, now, steps[..|steps| - 1]);
      StepKeeps(setup, Run(setup, now, steps[..|steps| - 1]).value, Last(steps));
    }
  }

  // ---------------------------------------------------------------------------
  // What it means for a session.

  /** For any interleaving of registrations, heartbeats, clock advances, delays and
      losses, a session's expiry never exceeds the registry's expiry for the same
      still registered lease. So a session that thinks itself active, with its
      lease still registered, is right. */
  lemma {:induction false} SessionNeverOutlivesLease(setup: Setup, now: Time, steps: seq<Step>, k: nat, p: string)
    requires setup.duration > 0 && Run(setup, now, steps).Some?
    requires var s := Run(setup, now, steps).value;
      k in s.peers && p in s.leases && s.peers[k].state.leaseID == s.leases[p].leaseID && s.peers[k].state.expiresAt.Some?
    ensures var s := Run(setup, now, steps).value;
      && s.peers[k].state.expiresAt.value <= s.leases[p].expiresAt
      && (Active(s.peers[k].state, s.now) ==> s.now < s.leases[p].expiresAt)
  {
    AlwaysInv(setup, now, steps);
    var s := Run(setup, now, steps).value;
    assert PeerOk(s, k) && LeaseOk(setup, s, s.leases[p]);
  }

  /** A session that lost a reply and registers again is never refused because of
      its own earlier lease: it gets that lease back while it is unexpired, and a
      new one afterwards, unless the generator has no id for it. */
  lemma {:induction false} NeverRefusedByOwnLease(setup: Setup, now: Time, steps: seq<Step>, k: nat, newID: string)
    requires setup.duration > 0 && Run(setup, now, steps).Some? && k in setup.configs
    requires ValidDeclaration(DeclarationOf(setup.configs[k]))
    requires var s := Run(setup, now, steps).value;
      var p := setup.configs[k].providerID;
      p in s.leases && s.leases[p].leaseID in s.issuedTo && s.issuedTo[s.leases[p].leaseID] == k
    ensures var s := Run(setup, now, steps).value;
      var p := setup.configs[k].providerID;
      RegisterReply(s.leases, DeclarationOf(setup.configs[k]), newID, s.now, setup.duration) ==
        if s.now < s.leases[p].expiresAt then Granted(s.leases[p].leaseID, s.leases[p].expiresAt)
        else if newID == "" then NoLeaseID
        else Granted(newID, s.now + setup.duration)
  {
    AlwaysInv(setup, now, steps);
    var s := Run(setup, now, steps).value;
    assert LeaseOk(setup, s, s.leases[setup.configs[k].providerID]);
  }

  /** A valid registration is refused exactly when another session, with another
      declaration for the same provider, holds an unexpired lease. */
  lemma {:induction false} RefusedOnlyByAnother(setup: Setup, now: Time, steps: seq<Step>, k: nat, newID: string)
    requires setup.duration > 0 && Run(setup, now, steps).Some? && k in setup.configs
    requires ValidDeclaration(DeclarationOf(setup.configs[k]))
    ensures var s := Run(setup, now, steps).value;
      var d := DeclarationOf(setup.configs[k]);
      RegisterReply(s.leases, d, newID, s.now, setup.duration) == AlreadyExists <==>
        exists j :: j in setup.configs && DeclarationOf(setup.configs[j]) != d && HoldsUnexpired(s, j, d.providerID)
  {
    AlwaysInv(setup, now, steps);
    var s, d := Run(setup, now, steps).value, DeclarationOf(setup.configs[k]);
    if d.providerID in s.leases && s.now < s.leases[d.providerID].expiresAt {
      assert LeaseOk(setup, s, s.leases[d.providerID]);
      assert HoldsUnexpired(s, s.issuedTo[s.leases[d.providerID].leaseID], d.providerID);
    }
  }

  /** The session was issued the provider's current lease, and it has not expired. */
  predicate HoldsUnexpired(s: Net, j: nat, p: string) {
    p in s.leases && s.now < s.leases[p].expiresAt && s.leases[p].leaseID in s.issuedTo && s.issuedTo[s.leases[p].leaseID] == j
  }

  /** The session is closed, holds nothing and waits for nothing. */
  predicate IsClosed(s: Net, k: nat) { k in s.peers && s.peers[k].state.closed && s.peers[k].state.leaseID == "" && s.peers[k].waiting.None? }

  lemma ClosedStep(setup: Setup, s: Net, step: Step, k: nat)
    requires Next(setup, s, step).Some? && (IsClosed(s, k) || step == Close(k))
    ensures IsClosed(Next(setup, s, step).value, k)
  {
  }

  /** Closing is final in any interleaving: whatever is still on its way to the session,
      it never holds a lease or is active again. */
  lemma {:induction false} ClosedForever(setup: Setup, now: Time, steps: seq<Step>, k: nat)
    requires Run(setup, now, steps).Some? && Close(k) in steps
    ensures var s := Run(setup, now, steps).value; IsClosed(s, k) && forall at {:trigger Active(s.peers[k].state, at)} :: !Active(s.peers[k].state, at)
  {
    var before := steps[..|steps| - 1];
    assert steps == before + [Last(steps)];
    if Close(k) in before {
      ClosedForever(setup, now, before, k);
    }
    ClosedStep(setup, Run(setup, now, before).value, Last(steps), k);
  }

  // ---------------------------------------------------------------------------
  // A network that answers.

  /** A registration and a beat that nothing gets in the way of. */
  function RegisterSteps(k: nat, n: nat, newID: string): seq<Step> { [SendRegister(k), Serve(n, newID), Deliver(k)] }

  function BeatSteps(k: nat, n: nat): seq<Step> { [SendBeat(k, Healthy), Serve(n, ""), Deliver(k)] }

  ghost function RunFrom(setup: Setup, s: Net, steps: seq<Step>): Option<Net>
    decreases |steps|
  {
    if steps == [] then Some(s)
    else
      match Next(setup, s, steps[0])
      case None => None
      case Some(t) => RunFrom(setup, t, steps[1..])
  }

  /** The session can start: it is open, waits for nothing and makes a valid declaration,
      and there is an unused id. */
  ghost predicate CanStart(setup: Setup, s: Net, k: nat, newID: string) {
    && k in setup.configs && k in s.peers && s.peers[k].waiting.None? && !s.peers[k].state.closed
    && ValidDeclaration(DeclarationOf(setup.configs[k])) && newID != "" && Holder(s.leases, newID).None?
  }

  /** The provider's unexpired lease is under another declaration. */
  predicate Refused(setup: Setup, s: Net, k: nat)
    requires k in setup.configs
  {
    var d := DeclarationOf(setup.configs[k]);
    d.providerID in s.leases && s.now < s.leases[d.providerID].expiresAt && s.leases[d.providerID].declaration != d
  }

  lemma {:induction false} RegisterRoundTrip(setup: Setup, s: Net, k: nat, newID: string)
    requires Inv(setup, s) && CanStart(setup, s, k, newID)
    ensures var p, n := setup.configs[k].providerID, s.nextCall;
      var t := RunFrom(setup, s, RegisterSteps(k, n, newID));
      && t.Some? && t.value.now == s.now && k in t.value.peers && t.value.peers[k].waiting.None? && !t.value.peers[k].state.closed
      && t.value.nextCall == n + 1
      && (if Refused(setup, s, k) then t.value.peers[k].state.leaseID == ""
          else
            && t.value.peers[k].state.leaseID != "" && p in t.value.leases && s.now < t.value.leases[p].expiresAt
            && t.value.leases[p].leaseID == t.value.peers[k].state.leaseID
            && t.value.leases[p].declaration == DeclarationOf(setup.configs[k]))
  {
    var n, d, p := s.nextCall, DeclarationOf(setup.configs[k]), setup.configs[k].providerID;
    var steps := RegisterSteps(k, n, newID);
    var a := Next(setup, s, steps[0]).value;
    var b := ServeRegister(setup, a, n, k, newID);
    assert Next(setup, a, steps[1]) == Some(b);
    var c := Receive(setup, b, k, n);
    assert Next(setup, b, steps[2]) == Some(c);
    Three(setup, s, a, b, c, steps);
    if p in s.leases && s.now < s.leases[p].expiresAt {
      assert LeaseOk(setup, s, s.leases[p]);
    }
  }

  lemma {:induction false} Three(setup: Setup, s: Net, a: Net, b: Net, c: Net, steps: seq<Step>)
    requires |steps| == 3
    requires Next(setup, s, steps[0]) == Some(a) && Next(setup, a, steps[1]) == Some(b) && Next(setup, b, steps[2]) == Some(c)
    ensures RunFrom(setup, s, steps) == Some(c)
  {
    assert RunFrom(setup, c, []) == Some(c);
    assert steps[2..][1..] == [] && steps[1..][1..] == steps[2..];
    assert RunFrom(setup, b, steps[2..]) == Some(c);
    assert RunFrom(setup, a, steps[1..]) == Some(c);
  }

  lemma {:induction false} BeatRoundTrip(setup: Setup, s: Net, k: nat, p: string)
    requires Inv(setup, s) && k in setup.configs && k in s.peers && s.peers[k].waiting.None? && !s.peers[k].state.closed
    requires p in s.leases && s.now < s.leases[p].expiresAt && s.peers[k].state.leaseID == s.leases[p].leaseID
    ensures var n := s.nextCall;
      var t := RunFrom(setup, s, BeatSteps(k, n));
      && t.Some? && k in t.value.peers && p in t.value.leases && Active(t.value.peers[k].state, t.value.now)
      && t.value.peers[k].state.leaseID == t.value.leases[p].leaseID == s.leases[p].leaseID
      && t.value.peers[k].state.expiresAt == Some(t.value.leases[p].expiresAt)
      && t.value.leases[p] == s.leases[p].(health := Healthy, expiresAt := s.now + setup.duration)
  {
    var n := s.nextCall;
    HolderUnique(s.leases, p);
    var steps := BeatSteps(k, n);
    var a := Next(setup, s, steps[0]).value;
    var b := ServeBeat(setup, a, n, Beat(k, s.peers[k].state.leaseID, Healthy));
    assert Next(setup, a, steps[1]) == Some(b);
    var c := Receive(setup, b, k, n);
    Three(setup, s, a, b, c, steps);
  }

  lemma {:induction false} RunFromSplit(setup: Setup, s: Net, first: seq<Step>, second: seq<Step>)
    requires RunFrom(setup, s, first).Some?
    ensures RunFrom(setup, s, first + second) == RunFrom(setup, RunFrom(setup, s, first).value, second)
    decreases |first|
  {
    if first == [] {
      assert first + second == second;
    } else {
      assert (first + second)[1..] == first[1..] + second;
      RunFromSplit(setup, Next(setup, s, first[0]).value, first[1..], second);
    }
  }

  lemma {:induction false} RunFromKeeps(setup: Setup, s: Net, steps: seq<Step>)
    requires Inv(setup, s) && RunFrom(setup, s, steps).Some?
    ensures Inv(setup, RunFrom(setup, s, steps).value)
    decreases |steps|
  {
    if steps != [] {
      StepKeeps(setup, s, steps[0]);
      RunFromKeeps(setup, Next(setup, s, steps[0]).value, steps[1..]);
    }
  }

  /** The session is active and the registry agrees: its lease is registered, healthy and
      expires when the session thinks, one lease duration from now. */
  ghost predicate Established(setup: Setup, s: Net, k: nat, now: Time)
    requires k in setup.configs
  {
    var p := setup.configs[k].providerID;
    && k in s.peers && Active(s.peers[k].state, s.now)
    && p in s.leases && s.leases[p].leaseID == s.peers[k].state.leaseID && s.leases[p].health.Healthy?
    && s.peers[k].state.expiresAt == Some(s.leases[p].expiresAt) && s.leases[p].expiresAt == now + setup.duration
  }

  lemma {:induction false} StartFrom(setup: Setup, s: Net, k: nat, newID: string)
    requires Inv(setup, s) && CanStart(setup, s, k, newID) && !Refused(setup, s, k)
    ensures var t := RunFrom(setup, s, RegisterSteps(k, s.nextCall, newID) + BeatSteps(k, s.nextCall + 1));
      t.Some? && Established(setup, t.value, k, s.now)
  {
    var start := RegisterSteps(k, s.nextCall, newID);
    RegisterRoundTrip(setup, s, k, newID);
    RunFromKeeps(setup, s, start);
    RunFromSplit(setup, s, start, BeatSteps(k, s.nextCall + 1));
    BeatRoundTrip(setup, RunFrom(setup, s, start).value, k, setup.configs[k].providerID);
  }

  /** In every reachable state an open, idle session with a valid declaration that starts
      over a network that answers, while the generator has an id, ends up active exactly
      when no unexpired lease of its provider is under another declaration. Then the
      registry shows the session's lease as healthy, and both name the same expiry, one
      lease duration away. */
  lemma {:induction false} StartActivatesIff(setup: Setup, now: Time, steps: seq<Step>, k: nat, newID: string)
    requires setup.duration > 0 && Run(setup, now, steps).Some? && CanStart(setup, Run(setup, now, steps).value, k, newID)
    ensures var s := Run(setup, now, steps).value;
      var registered := RunFrom(setup, s, RegisterSteps(k, s.nextCall, newID));
      var started := RunFrom(setup, s, RegisterSteps(k, s.nextCall, newID) + BeatSteps(k, s.nextCall + 1));
      if Refused(setup, s, k) then registered.Some? && k in registered.value.peers && registered.value.peers[k].state.leaseID == ""
      else started.Some? && Established(setup, started.value, k, s.now)
  {
    var s := Run(setup, now, steps).value;
    AlwaysInv(setup, now, steps);
    if Refused(setup, s, k) {
      RegisterRoundTrip(setup, s, k, newID);
    } else {
      StartFrom(setup, s, k, newID);
    }
  }
}
