/** Safety of the runner in every interleaving, for any application it drives. */
module RunnerSafety {
  import opened Prelude
  import opened Observations
  import opened Engines
  import R = EngineRuns
  import opened Runners

  // ---------------------------------------------------------------------------
  // One engine operation at a time.

  predicate Running<A>(s: State<A>) { s.active.Some? && s.active.value.result.None? }

  predicate AfterJoin(pc: Pc) {
    || pc.PollObservations? || pc.CheckDue? || pc.IdleSelect? || pc.Returned?
    || (pc.Control? && pc.stage in {Committing, InCommit, Replying})
    || (pc.Shutdown? && pc.drain in {DrainingObservations, DrainingControls})
  }

  /** The active slot is empty wherever the loop may start or commit something, and
      the operations in flight are the running work and the commit: never both. */
  predicate Exclusive<A>(s: State<A>) {
    && (AfterJoin(s.pc) ==> s.active.None?)
    && (s.pc.BusySelect? ==> s.active.Some?)
    && s.ledger.inFlight == (if Running(s) then 1 else 0) + (if s.pc.Control? && s.pc.stage == InCommit then 1 else 0)
  }

  lemma ExclusiveControl<A>(p: Processor<A>, s: State<A>)
    requires Exclusive(s)
    ensures ControlStep(p, s).Some? ==> Exclusive(ControlStep(p, s).value)
    ensures ShutdownStep(s).Some? ==> Exclusive(ShutdownStep(s).value)
  {
  }

  lemma ExclusiveStep<A>(p: Processor<A>, limits: Limits, s: State<A>, step: Step)
    requires Exclusive(s) && Next(p, limits, s, step).Some?
    ensures Exclusive(Next(p, limits, s, step).value)
  {
    if step.AdvanceControl? || step.AdvanceShutdown? {
      ExclusiveControl(p, s);
    } else {
      ExclusiveOther(p, limits, s, step);
    }
  }

  lemma ExclusiveOther<A>(p: Processor<A>, limits: Limits, s: State<A>, step: Step)
    requires Exclusive(s) && Next(p, limits, s, step).Some? && !step.AdvanceControl? && !step.AdvanceShutdown?
    ensures Exclusive(Next(p, limits, s, step).value)
  {
  }

  // ---------------------------------------------------------------------------
  // Conservation of requests.

  function InObservations(q: seq<ObservationRequest>, id: nat): nat {
    if q == [] then 0 else (if q[0].id == id then 1 else 0) + InObservations(q[1..], id)
  }

  function InControls(q: seq<ControlRequest>, id: nat): nat {
    if q == [] then 0 else (if q[0].id == id then 1 else 0) + InControls(q[1..], id)
  }

  function InWork(w: Option<Work>, id: nat): nat {
    if w.Some? && w.value.job.ObservationJob? && w.value.job.request.id == id then 1 else 0
  }

  function InHand(pc: Pc, id: nat): nat { if pc.Control? && pc.request.id == id then 1 else 0 }

  /** In how many places a request is: queued, active, the control in hand, answered. */
  function Places<A>(s: State<A>, id: nat): nat {
    InObservations(s.queues.observations, id) + InControls(s.queues.controls, id) + InWork(s.active, id) + InHand(s.pc, id) +
    s.ledger.answered[id]
  }

  /** Every submitted request is in exactly one place, and nothing else is anywhere. */
  ghost predicate Conserved<A>(s: State<A>) {
    forall id: nat :: Places(s, id) == if id in s.ledger.submitted then 1 else 0
  }

  lemma {:induction false} InObservationsAppend(q: seq<ObservationRequest>, r: ObservationRequest, id: nat)
    ensures InObservations(q + [r], id) == InObservations(q, id) + if r.id == id then 1 else 0
  {
    if q != [] {
      InObservationsAppend(q[1..], r, id);
      assert (q + [r])[1..] == q[1..] + [r];
    }
  }

  lemma {:induction false} InControlsAppend(q: seq<ControlRequest>, r: ControlRequest, id: nat)
    ensures InControls(q + [r], id) == InControls(q, id) + if r.id == id then 1 else 0
  {
    if q != [] {
      InControlsAppend(q[1..], r, id);
      assert (q + [r])[1..] == q[1..] + [r];
    }
  }

  /** A submission puts its request in one place; every other step only moves it. */
  predicate Moved<A>(s: State<A>, t: State<A>, id: nat) {
    Places(t, id) == Places(s, id) + if id in t.ledger.submitted && id !in s.ledger.submitted then 1 else 0
  }

  lemma SubmitMoves<A>(limits: Limits, s: State<A>, r: ObservationRequest, id: nat)
    ensures Submit(limits, s, r).Some? ==> Moved(s, Submit(limits, s, r).value, id)
  {
    InObservationsAppend(s.queues.observations, r, id);
  }

  lemma SubmitControlMoves<A>(limits: Limits, s: State<A>, k: ControlRequest, id: nat)
    ensures SubmitP0(limits, s, k).Some? ==> Moved(s, SubmitP0(limits, s, k).value, id)
  {
    InControlsAppend(s.queues.controls, k, id);
  }

  lemma BeginMoves<A>(s: State<A>, requestLive: bool, id: nat)
    requires Exclusive(s)
    ensures BeginControl(s).Some? ==> Moved(s, BeginControl(s).value, id)
    ensures BeginObservation(s, requestLive).Some? ==> Moved(s, BeginObservation(s, requestLive).value, id)
    ensures BeginWakeup(s).Some? ==> Moved(s, BeginWakeup(s).value, id)
  {
  }

  lemma FinishMoves<A>(p: Processor<A>, s: State<A>, id: nat)
    ensures ResultReceived(p, s).Some? ==> Moved(s, ResultReceived(p, s).value, id)
  {
  }

  lemma ControlMoves<A>(p: Processor<A>, s: State<A>, id: nat)
    requires Exclusive(s)
    ensures ControlStep(p, s).Some? ==> Moved(s, ControlStep(p, s).value, id)
  {
  }

  lemma ShutdownMoves<A>(s: State<A>, id: nat)
    requires ShutdownStep(s).Some?
    ensures Moved(s, ShutdownStep(s).value, id)
  {
    var t, q := ShutdownStep(s).value, s.queues;
    match s.pc.drain
    case StoppingAll =>
    case JoiningWork => assert t.queues == q;
    case DrainingObservations => assert t.queues.controls == q.controls && t.active == s.active;
    case DrainingControls => assert t.queues.observations == q.observations && t.active == s.active;
  }

  lemma PlacesStep<A>(p: Processor<A>, limits: Limits, s: State<A>, step: Step, id: nat)
    requires Exclusive(s) && Next(p, limits, s, step).Some?
    ensures Moved(s, Next(p, limits, s, step).value, id)
  {
    match step {
      case SubmitObservation(r) => SubmitMoves(limits, s, r, id);
      case SubmitControl(k) => SubmitControlMoves(limits, s, k, id);
      case TakeControl => BeginMoves(s, true, id);
      case TakeObservation(live) => BeginMoves(s, live, id);
      case StartDueWakeup => BeginMoves(s, true, id);
      case ReceiveResult => FinishMoves(p, s, id);
      case AdvanceControl => ControlMoves(p, s, id);
      case AdvanceShutdown => ShutdownMoves(s, id);
      case _ =>
    }
  }

  // ---------------------------------------------------------------------------
  // The scheduled wakeup.

  /** At most one timer exists, it belongs to the scheduled wakeup, and a wakeup
      without a pending timer is due. */
  predicate Armed(a: Alarm, now: Time) {
    match a.scheduled
    case None => a.timers == map[] && a.fired == {}
    case Some(Scheduled(w, None)) => a.timers == map[] && a.fired == {} && w.deadline <= now
    case Some(Scheduled(w, Some(t))) =>
      && t < a.nextTimer
      && ((a.timers == map[t := w.deadline] && a.fired == {}) || (a.timers == map[] && a.fired == {t} && w.deadline <= now))
  }

  function Mirrored(a: Alarm): Option<Wakeup> { if a.scheduled.None? then None else Some(a.scheduled.value.wakeup) }

  predicate LoopIdle<A>(s: State<A>) {
    s.active.None? && (s.pc.Top? || s.pc.PollObservations? || s.pc.CheckDue? || s.pc.IdleSelect?)
  }

  /** While idle the schedule mirrors the application's next wakeup; a wakeup that
      runs was current and due when it started, and still is current. */
  predicate Scheduling<A>(p: Processor<A>, s: State<A>) {
    && Armed(s.alarm, s.clock)
    && (LoopIdle(s) ==> Mirrored(s.alarm) == p.next(s.core.app))
    && (s.pc.Shutdown? || s.pc.Returned? ==> s.alarm.scheduled.None?)
    && (s.active.Some? ==>
          && s.active.value.startedAt <= s.clock
          && (s.active.value.job.WakeupJob? ==>
                var w := s.active.value.job.wakeup;
                s.alarm.scheduled.None? && w.deadline <= s.active.value.startedAt &&
                (s.active.value.result.None? ==> p.next(s.core.app) == Some(w))))
  }

  lemma RefreshArmed(a: Alarm, next: Option<Wakeup>, now: Time)
    requires Armed(a, now)
    ensures Armed(Refresh(a, next, now), now) && Mirrored(Refresh(a, next, now)) == next
    ensures Armed(StopScheduled(a), now) && StopScheduled(a).scheduled.None?
  {
    var stopped := StopScheduled(a);
    assert stopped.timers == map[] && stopped.fired == {};
  }

  lemma FireArmed<A>(s: State<A>, t: nat)
    requires Armed(s.alarm, s.clock) && Fire(s, t).Some?
    ensures Armed(Fire(s, t).value.alarm, s.clock) && Fire(s, t).value.alarm.scheduled == s.alarm.scheduled
  {
    var a := Fire(s, t).value.alarm;
    assert a.timers == map[] && a.fired == {t};
  }

  lemma ReceiveArmed<A>(s: State<A>)
    requires Armed(s.alarm, s.clock) && TimerReceived(s).Some?
    ensures Armed(TimerReceived(s).value.alarm, s.clock) && Mirrored(TimerReceived(s).value.alarm) == Mirrored(s.alarm)
  {
    assert TimerReceived(s).value.alarm.fired == {};
  }

  lemma ControlScheduling<A>(p: Processor<A>, s: State<A>)
    requires Exclusive(s) && Scheduling(p, s) && ControlStep(p, s).Some?
    ensures Scheduling(p, ControlStep(p, s).value)
  {
    RefreshArmed(s.alarm, p.next(s.core.app), s.clock);
    RefreshArmed(Refresh(s.alarm, p.next(s.core.app), s.clock), None, s.clock);
  }

  lemma ResultScheduling<A>(p: Processor<A>, s: State<A>)
    requires Scheduling(p, s) && ResultReceived(p, s).Some?
    ensures Scheduling(p, ResultReceived(p, s).value)
  {
    RefreshArmed(s.alarm, p.next(s.core.app), s.clock);
    RefreshArmed(Refresh(s.alarm, p.next(s.core.app), s.clock), None, s.clock);
  }

  lemma BeginScheduling<A>(p: Processor<A>, s: State<A>, live: bool)
    requires Exclusive(s) && Scheduling(p, s)
    ensures BeginControl(s).Some? ==> Scheduling(p, BeginControl(s).value)
    ensures BeginObservation(s, live).Some? ==> Scheduling(p, BeginObservation(s, live).value)
    ensures BeginWakeup(s).Some? ==> Scheduling(p, BeginWakeup(s).value)
  {
  }

  lemma WorkScheduling<A>(p: Processor<A>, s: State<A>, env: ProcessEnv, env': AdvanceEnv, failed: bool)
    requires Scheduling(p, s)
    ensures ProcessDone(p, s, env).Some? ==> Scheduling(p, ProcessDone(p, s, env).value)
    ensures AdvanceDone(p, s, env', failed).Some? ==> Scheduling(p, AdvanceDone(p, s, env', failed).value)
  {
  }

  lemma SchedulingStep<A>(p: Processor<A>, limits: Limits, s: State<A>, step: Step)
    requires Exclusive(s) && Scheduling(p, s) && Next(p, limits, s, step).Some?
    ensures Scheduling(p, Next(p, limits, s, step).value)
  {
    match step {
      case FireTimer(t) => FireArmed(s, t);
      case ReceiveTimer => ReceiveArmed(s);
      case ReceiveResult => ResultScheduling(p, s);
      case AdvanceControl => ControlScheduling(p, s);
      case TakeControl => BeginScheduling(p, s, true);
      case TakeObservation(live) => BeginScheduling(p, s, live);
      case StartDueWakeup => BeginScheduling(p, s, true);
      case CompleteObservation(env) => WorkScheduling(p, s, env, AdvanceEnv(Live, 0, 0, []), false);
      case CompleteWakeup(env, failed) => WorkScheduling(p, s, ProcessEnv(Live, 0, None, 0, [], 0), env, failed);
      case ReceiveDone => RefreshArmed(s.alarm, None, s.clock);
      case _ =>
    }
  }

  // ---------------------------------------------------------------------------
  // Priority of controls.

  /** Once a control waits, at most one other loop transition happens before the
      loop takes a control (or shuts down). */
  predicate Priority<A>(s: State<A>) {
    && s.ledger.bypassed <= 1
    && (s.ledger.bypassed == 1 ==> (s.pc.Top? && s.queues.controls != []) || s.pc.Shutdown? || s.pc.Returned?)
  }

  lemma PriorityStep<A>(p: Processor<A>, limits: Limits, s: State<A>, step: Step)
    requires Priority(s) && Next(p, limits, s, step).Some?
    ensures Priority(Next(p, limits, s, step).value)
  {
  }

  // ---------------------------------------------------------------------------
  // The script of a control.

  /** Cancel, stop, join, commit, reply: what handling one control looks like. */
  function Script(took: Event): seq<Event>
    requires took.Took?
  {
    [took] + (if took.hadWork then [CancelledWork] else []) + [StoppedAll] + (if took.hadWork then [JoinedWork] else []) +
    (if Rejects(took.request) then [CommittedRejection(took.request.command)] else []) + [AnsweredControl(took.request.id)]
  }

  /** How much of its script the control in hand has done. */
  function Done(took: Event, stage: Stage): nat
    requires took.Took?
  {
    var w := if took.hadWork then 1 else 0;
    match stage
    case Cancelling => 1
    case Stopping => 1 + w
    case Joining => 2 + w
    case Committing => 2 + w + w
    case InCommit => 2 + w + w
    case Replying => 2 + w + w + if Rejects(took.request) then 1 else 0
  }

  /** The control taken at i has run its whole script, with nothing in between. */
  predicate Scripted(log: seq<Event>, i: int)
    requires 0 <= i < |log| && log[i].Took?
  {
    var script := Script(log[i]);
    i + |script| <= |log| && log[i..i + |script|] == script
  }

  /** The control in hand was taken at i, and nothing but its script came since. */
  predicate InHandAt<A>(s: State<A>, i: int) {
    var log := s.ledger.log;
    && s.pc.Control? && 0 <= i < |log|
    && log[i].Took?
    && log[i].request == s.pc.request
    && (s.pc.stage in {Cancelling, Stopping, Joining} ==> log[i].hadWork == s.active.Some?)
    && (s.pc.stage == InCommit ==> Rejects(log[i].request))
    && Done(log[i], s.pc.stage) <= |Script(log[i])|
    && log[i..] == Script(log[i])[..Done(log[i], s.pc.stage)]
  }

  /** Every control taken is followed by exactly its script; only the one in hand may
      be unfinished. So no work starts between a control and its reply. */
  ghost predicate OnScript<A>(s: State<A>) {
    && (forall i :: 0 <= i < |s.ledger.log| && s.ledger.log[i].Took? ==> Scripted(s.ledger.log, i) || InHandAt(s, i))
    && (s.pc.Control? ==> exists i :: InHandAt(s, i))
  }

  lemma ScriptedAppend(log: seq<Event>, more: seq<Event>, i: int)
    requires 0 <= i < |log| && log[i].Took? && Scripted(log, i)
    ensures Scripted(log + more, i)
  {
    var n := |Script(log[i])|;
    assert (log + more)[i] == log[i] && (log + more)[i..i + n] == log[i..i + n];
  }

  lemma ScriptShape(took: Event)
    requires took.Took?
    ensures var script := Script(took);
      && (took.hadWork ==> script[Done(took, Cancelling)] == CancelledWork)
      && script[Done(took, Stopping)] == StoppedAll
      && (took.hadWork ==> script[Done(took, Joining)] == JoinedWork)
      && (Rejects(took.request) ==> script[Done(took, InCommit)] == CommittedRejection(took.request.command))
      && script[Done(took, Replying)] == AnsweredControl(took.request.id)
      && |script| == Done(took, Replying) + 1
  {
  }

  /** t follows s by one action of the script of took. */
  predicate FollowsScript<A>(s: State<A>, t: State<A>, took: Event)
    requires took.Took? && s.pc.Control?
  {
    var done, script := Done(took, s.pc.stage), Script(took);
    && done < |script|
    && if t.pc.Control? then
         && t.pc.request == s.pc.request && (t.pc.stage == InCommit ==> Rejects(took.request))
         && (t.pc.stage in {Cancelling, Stopping, Joining} ==> took.hadWork == t.active.Some?)
         && (if Done(took, t.pc.stage) == done then t.ledger.log == s.ledger.log
             else Done(took, t.pc.stage) == done + 1 && t.ledger.log == s.ledger.log + [script[done]])
       else t.ledger.log == s.ledger.log + [script[done]] && |script| == done + 1
  }

  lemma ControlFollowsScript<A>(p: Processor<A>, s: State<A>, took: Event)
    requires Exclusive(s) && ControlStep(p, s).Some? && took.Took?
    requires took.request == s.pc.request
    requires s.pc.stage in {Cancelling, Stopping, Joining} ==> took.hadWork == s.active.Some?
    requires s.pc.stage == InCommit ==> Rejects(took.request)
    ensures FollowsScript(s, ControlStep(p, s).value, took)
  {
    ScriptShape(took);
  }

  predicate AppendsNoTake(log: seq<Event>, log': seq<Event>) {
    log <= log' && forall k :: |log| <= k < |log'| ==> !log'[k].Took?
  }

  lemma HandMoves<A>(s: State<A>, t: State<A>, i: int)
    requires InHandAt(s, i) && FollowsScript(s, t, s.ledger.log[i])
    ensures AppendsNoTake(s.ledger.log, t.ledger.log)
    ensures if t.pc.Control? then InHandAt(t, i) else Scripted(t.ledger.log, i)
  {
    var took, log := s.ledger.log[i], s.ledger.log;
    var script, done := Script(took), Done(took, s.pc.stage);
    ScriptShape(took);
    NextOfScript(log, i, script, done);
  }

  lemma NextOfScript(log: seq<Event>, i: nat, script: seq<Event>, done: nat)
    requires i <= |log| && done < |script| && log[i..] == script[..done]
    ensures var longer := log + [script[done]];
      longer[i..] == script[..done + 1] && (done + 1 == |script| ==> i + |script| <= |longer| && longer[i..i + |script|] == script)
  {
    var longer := log + [script[done]];
    assert longer[i..] == log[i..] + [script[done]];
  }

  lemma HandStep<A>(p: Processor<A>, s: State<A>, i: int)
    requires Exclusive(s) && InHandAt(s, i) && ControlStep(p, s).Some?
    ensures var t := ControlStep(p, s).value;
      && AppendsNoTake(s.ledger.log, t.ledger.log)
      && if t.pc.Control? then InHandAt(t, i) else Scripted(t.ledger.log, i)
  {
    ControlFollowsScript(p, s, s.ledger.log[i]);
    HandMoves(s, ControlStep(p, s).value, i);
  }

  lemma ControlOnScript<A>(p: Processor<A>, s: State<A>)
    requires Exclusive(s) && OnScript(s) && ControlStep(p, s).Some?
    ensures OnScript(ControlStep(p, s).value)
  {
    var t := ControlStep(p, s).value;
    var h :| InHandAt(s, h);
    HandStep(p, s, h);
    forall i | InHandAt(s, i) ensures if t.pc.Control? then InHandAt(t, i) else Scripted(t.ledger.log, i) {
      HandStep(p, s, i);
    }
    HandOnScript(s, t, h);
  }

  lemma HandOnScript<A>(s: State<A>, t: State<A>, h: int)
    requires OnScript(s) && InHandAt(s, h)
    requires AppendsNoTake(s.ledger.log, t.ledger.log)
    requires forall i :: InHandAt(s, i) ==> if t.pc.Control? then InHandAt(t, i) else Scripted(t.ledger.log, i)
    ensures OnScript(t)
  {
    var log, log' := s.ledger.log, t.ledger.log;
    assert log' == log + log'[|log|..];
    forall i | 0 <= i < |log'| && log'[i].Took? ensures Scripted(log', i) || InHandAt(t, i) {
      if !InHandAt(s, i) {
        ScriptedAppend(log, log'[|log|..], i);
      }
    }
  }

  /** Steps outside handleControl: the log grows only while no control is in hand,
      by at most one entry. */
  lemma OtherOnScript<A>(s: State<A>, t: State<A>)
    requires OnScript(s) && s.ledger.log <= t.ledger.log
    requires s.pc.Control? ==> t.pc == s.pc && t.ledger.log == s.ledger.log && t.active.Some? == s.active.Some?
    requires !s.pc.Control? ==>
      || (!t.pc.Control? && forall i :: |s.ledger.log| <= i < |t.ledger.log| ==> !t.ledger.log[i].Took?)
      || (BeginControl(s).Some? && t == BeginControl(s).value)
    ensures OnScript(t)
  {
    var log, log' := s.ledger.log, t.ledger.log;
    assert log' == log + log'[|log|..];
    if s.pc.Control? {
      var h :| InHandAt(s, h);
      assert InHandAt(t, h);
      forall i | 0 <= i < |log'| && log'[i].Took? ensures Scripted(log', i) || InHandAt(t, i) {
        if InHandAt(s, i) {
          assert InHandAt(t, i);
        }
      }
    } else {
      forall i | 0 <= i < |log| && log[i].Took? ensures Scripted(log', i) {
        ScriptedAppend(log, log'[|log|..], i);
      }
      if t.pc.Control? {
        assert log'[|log|..] == [log'[|log|]] == Script(log'[|log|])[..1];
        assert InHandAt(t, |log|);
      }
    }
  }

  lemma OnScriptStep<A>(p: Processor<A>, limits: Limits, s: State<A>, step: Step)
    requires Exclusive(s) && OnScript(s) && Next(p, limits, s, step).Some?
    ensures OnScript(Next(p, limits, s, step).value)
  {
    if step.AdvanceControl? {
      ControlOnScript(p, s);
    } else {
      LogGrows(p, limits, s, step);
      OtherOnScript(s, Next(p, limits, s, step).value);
    }
  }

  lemma LogGrows<A>(p: Processor<A>, limits: Limits, s: State<A>, step: Step)
    requires Exclusive(s) && Next(p, limits, s, step).Some? && !step.AdvanceControl?
    ensures var t := Next(p, limits, s, step).value;
      && s.ledger.log <= t.ledger.log
      && (s.pc.Control? ==> t.pc == s.pc && t.ledger.log == s.ledger.log && t.active.Some? == s.active.Some?)
      && (!s.pc.Control? ==>
            || (!t.pc.Control? && forall i :: |s.ledger.log| <= i < |t.ledger.log| ==> !t.ledger.log[i].Took?)
            || (BeginControl(s).Some? && t == BeginControl(s).value))
  {
  }

  // ---------------------------------------------------------------------------
  // What shutdown leaves behind.

  /** A queue that shutdown has drained holds only requests submitted afterwards. */
  predicate Drained<A>(s: State<A>) {
    && (s.pc == Shutdown(DrainingControls) || s.pc.Returned? ==>
          forall r :: r in s.queues.observations ==> r.id in s.ledger.late)
    && (s.pc.Returned? ==> forall r :: r in s.queues.controls ==> r.id in s.ledger.late)
  }

  lemma DrainedStep<A>(p: Processor<A>, limits: Limits, s: State<A>, step: Step)
    requires Drained(s) && Next(p, limits, s, step).Some?
    ensures Drained(Next(p, limits, s, step).value)
  {
  }

  // ---------------------------------------------------------------------------
  // All of it, over every schedule.

  ghost predicate Safe<A>(p: Processor<A>, s: State<A>) {
    Exclusive(s) && Conserved(s) && Scheduling(p, s) && Priority(s) && OnScript(s) && Drained(s)
  }

  lemma {:induction false} AlwaysSafe<A>(p: Processor<A>, limits: Limits, now: Time, steps: seq<Step>)
    requires Run(p, limits, now, steps).Some?
    ensures Safe(p, Run(p, limits, now, steps).value)
  {
    if steps == [] {
      RefreshArmed(Alarm(None, map[], {}, 0), p.next(p.initial), now);
    } else {
      var before, step := steps[..|steps| - 1], Last(steps);
      AlwaysSafe(p, limits, now, before);
      var s := Run(p, limits, now, before).value;
      ExclusiveStep(p, limits, s, step);
      forall id: nat ensures Moved(s, Next(p, limits, s, step).value, id) {
        PlacesStep(p, limits, s, step, id);
      }
      SubmittedGrows(p, limits, s, step);
      SchedulingStep(p, limits, s, step);
      PriorityStep(p, limits, s, step);
      OnScriptStep(p, limits, s, step);
      DrainedStep(p, limits, s, step);
      ConservedStep(s, Next(p, limits, s, step).value);
    }
  }

  lemma ConservedStep<A>(s: State<A>, t: State<A>)
    requires Conserved(s) && s.ledger.submitted <= t.ledger.submitted && forall id: nat :: Moved(s, t, id)
    ensures Conserved(t)
  {
    forall id: nat ensures Places(t, id) == if id in t.ledger.submitted then 1 else 0 {
      assert Moved(s, t, id);
    }
  }

  lemma SubmittedGrows<A>(p: Processor<A>, limits: Limits, s: State<A>, step: Step)
    requires Next(p, limits, s, step).Some?
    ensures s.ledger.submitted <= Next(p, limits, s, step).value.ledger.submitted
  {
  }
}
