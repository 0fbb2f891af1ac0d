/** The lifecycle runner as an interleaved step system. Submitters, the clock, the
    timer, the one work goroutine and the event loop take turns in any order; each
    step below is one of their atomic actions. The engine is the real engine state:
    a finished work item or commit applies one engine operation to it. */
module Runners {
  import opened Prelude
  import opened Observations
  import opened Engines
  import R = EngineRuns

  datatype ObservationRequest = ObservationRequest(id: nat, input: Observation)
  datatype ControlRequest = ControlRequest(id: nat, command: ControlCommand)

  datatype Job =
    | ObservationJob(request: ObservationRequest)
    | WakeupJob(wakeup: Wakeup)

  /** The work goroutine: its result stays in its own channel until the loop reads
      it; for a wakeup the loop only looks at whether it failed for good. */
  datatype Work = Work(job: Job, startedAt: Time, cancelled: bool, result: Option<bool>)

  /** A scheduled wakeup either waits on a timer or is already due. */
  datatype Scheduled = Scheduled(wakeup: Wakeup, timer: Option<nat>)

  datatype Stage = Cancelling | Stopping | Joining | Committing | InCommit | Replying
  datatype Drain = StoppingAll | JoiningWork | DrainingObservations | DrainingControls

  /** Where the event loop stands. */
  datatype Pc =
    | Top
    | PollObservations
    | CheckDue
    | IdleSelect
    | BusySelect
    | Control(request: ControlRequest, stage: Stage, failed: bool)
    | Shutdown(drain: Drain)
    | Returned

  /** What the loop does, in order. */
  datatype Event =
    | Took(request: ControlRequest, hadWork: bool)
    | CancelledWork
    | StoppedAll
    | JoinedWork
    | CommittedRejection(command: ControlCommand)
    | AnsweredControl(control: nat)
    | StartedWork(job: Job)
    | FinishedWork

  datatype Limits = Limits(observations: nat, controls: nat)

  /** What the runner needs of the application it drives: apply one operation, and
      report the next wakeup. */
  datatype Processor<!A> = Processor(initial: A, apply: (A, R.Input) -> A, next: A -> Option<Wakeup>)

  /** The application state and the operations applied to it so far. */
  datatype Core<A> = Core(app: A, history: seq<R.Input>)

  /** The two bounded queues. */
  datatype Queues = Queues(observations: seq<ObservationRequest>, controls: seq<ControlRequest>)

  /** The scheduled wakeup, the timers still armed, and those that fired unread. */
  datatype Alarm = Alarm(scheduled: Option<Scheduled>, timers: map<nat, Time>, fired: set<nat>, nextTimer: nat)

  /** Bookkeeping that the properties are stated about. */
  datatype Ledger = Ledger(
    inFlight: int,
    submitted: set<nat>,
    answered: multiset<nat>,
    late: set<nat>,
    bypassed: nat,
    log: seq<Event>)

  datatype State<A> = State(
    pc: Pc,
    queues: Queues,
    active: Option<Work>,
    alarm: Alarm,
    clock: Time,
    context: Context,
    core: Core<A>,
    ledger: Ledger)

  datatype Step =
    | SubmitObservation(observation: ObservationRequest)
    | SubmitControl(control: ControlRequest)
    | Tick(to: Time)
    | EndContext(timedOut: bool)
    | FireTimer(timer: nat)
    | CompleteObservation(processEnv: ProcessEnv)
    | CompleteWakeup(advanceEnv: AdvanceEnv, failed: bool)
    | TakeControl
    | SkipControls
    | TakeObservation(requestLive: bool)
    | SkipObservations
    | StartDueWakeup
    | SkipDue
    | ReceiveTimer
    | ReceiveResult
    | ReceiveDone
    | AdvanceControl
    | AdvanceShutdown

  // ---------------------------------------------------------------------------
  // Building blocks.

  /** stopScheduled: an armed timer is stopped and can no longer be received. */
  function StopScheduled(a: Alarm): Alarm {
    if a.scheduled.Some? && a.scheduled.value.timer.Some? then
      var t := a.scheduled.value.timer.value;
      Alarm(None, a.timers - {t}, a.fired - {t}, a.nextTimer)
    else a.(scheduled := None)
  }

  /** refreshWakeup: stop what was scheduled and mirror the next wakeup. */
  function Refresh(a: Alarm, next: Option<Wakeup>, now: Time): Alarm {
    var stopped := StopScheduled(a);
    match next
    case None => stopped
    case Some(w) =>
      if w.deadline <= now then stopped.(scheduled := Some(Scheduled(w, None)))
      else Alarm(Some(Scheduled(w, Some(a.nextTimer))), stopped.timers[a.nextTimer := w.deadline], stopped.fired, a.nextTimer + 1)
  }

  predicate Due(a: Alarm) { a.scheduled.Some? && a.scheduled.value.timer.None? }

  function Answer(l: Ledger, id: nat): Ledger { l.(answered := l.answered + multiset{id}) }

  function Note(l: Ledger, e: Event): Ledger { l.(log := l.log + [e]) }

  /** A loop transition that serves no control while one is waiting. */
  function Bypass(l: Ledger, q: Queues): Ledger { if q.controls == [] then l else l.(bypassed := l.bypassed + 1) }

  /** Apply one operation to the application. */
  function Apply<A>(p: Processor<A>, core: Core<A>, i: R.Input): Core<A> {
    Core(p.apply(core.app, i), core.history + [i])
  }

  /** finish: an observation's submitter is answered; a wakeup has none. */
  function Finish(l: Ledger, w: Work): Ledger {
    if w.job.ObservationJob? then Answer(l, w.job.request.id) else l
  }

  predicate FailsLoop(w: Work) { w.job.WakeupJob? && w.result == Some(true) }

  predicate Rejects(r: ControlRequest) { r.command.reason == UserRejectedStop }

  function Cancel(w: Option<Work>): Option<Work> { if w.Some? then Some(w.value.(cancelled := true)) else None }

  function Launch<A>(s: State<A>, job: Job): State<A> {
    s.(pc := Top, active := Some(Work(job, s.clock, false, None)),
       ledger := Note(s.ledger, StartedWork(job)).(inFlight := s.ledger.inFlight + 1))
  }

  function BeginShutdown<A>(s: State<A>): State<A> {
    s.(pc := Shutdown(StoppingAll), alarm := StopScheduled(s.alarm), active := Cancel(s.active))
  }

  /** Clock readings of a work item lie between its start and its completion. */
  predicate ReadingsDuring(now: Time, work: Work, times: seq<Time>) {
    forall t :: t in times ==> work.startedAt <= t <= now
  }

  // ---------------------------------------------------------------------------
  // Steps of the surroundings.

  function Submit<A>(limits: Limits, s: State<A>, r: ObservationRequest): Option<State<A>> {
    if |s.queues.observations| >= limits.observations || r.id in s.ledger.submitted then None
    else
      var late := s.pc.Returned? || s.pc == Shutdown(DrainingControls);
      Some(s.(queues := s.queues.(observations := s.queues.observations + [r]),
              ledger := s.ledger.(submitted := s.ledger.submitted + {r.id}, late := if late then s.ledger.late + {r.id} else s.ledger.late)))
  }

  function SubmitP0<A>(limits: Limits, s: State<A>, r: ControlRequest): Option<State<A>> {
    if |s.queues.controls| >= limits.controls || r.id in s.ledger.submitted || !ValidControl(r.command) then None
    else
      Some(s.(queues := s.queues.(controls := s.queues.controls + [r]),
              ledger := s.ledger.(submitted := s.ledger.submitted + {r.id},
                                  late := if s.pc.Returned? then s.ledger.late + {r.id} else s.ledger.late)))
  }

  function Fire<A>(s: State<A>, t: nat): Option<State<A>> {
    if t !in s.alarm.timers || s.clock < s.alarm.timers[t] then None
    else Some(s.(alarm := s.alarm.(timers := s.alarm.timers - {t}, fired := s.alarm.fired + {t})))
  }

  /** The work goroutine finishes: its operation takes effect as one step. */
  function Complete<A>(p: Processor<A>, s: State<A>, i: R.Input, failed: bool): State<A>
    requires s.active.Some?
  {
    s.(core := Apply(p, s.core, i), active := Some(s.active.value.(result := Some(failed))),
       ledger := s.ledger.(inFlight := s.ledger.inFlight - 1))
  }

  function ProcessDone<A>(p: Processor<A>, s: State<A>, env: ProcessEnv): Option<State<A>> {
    if s.active.None? || s.active.value.result.Some? || !s.active.value.job.ObservationJob? ||
       !ReadingsDuring(s.clock, s.active.value, [env.now, env.dispatchAt, env.openedAt]) then None
    else Some(Complete(p, s, R.Observe(s.active.value.job.request.input, env), false))
  }

  /** The context of a wakeup is live until it is cancelled or the loop's ends. */
  function AdvanceDone<A>(p: Processor<A>, s: State<A>, env: AdvanceEnv, failed: bool): Option<State<A>> {
    if s.active.None? || s.active.value.result.Some? || !s.active.value.job.WakeupJob? ||
       !ReadingsDuring(s.clock, s.active.value, [env.now, env.dispatchAt]) ||
       (env.context.Ended? && !s.active.value.cancelled && s.context.Live?) then None
    else Some(Complete(p, s, R.Wake(s.active.value.job.wakeup, env), failed))
  }

  // ---------------------------------------------------------------------------
  // Steps of the event loop.

  function BeginControl<A>(s: State<A>): Option<State<A>> {
    if s.queues.controls == [] || !(s.pc.Top? || s.pc.IdleSelect? || s.pc.BusySelect?) then None
    else
      var r := s.queues.controls[0];
      Some(s.(pc := Control(r, Cancelling, false), queues := s.queues.(controls := s.queues.controls[1..]),
              ledger := Note(s.ledger, Took(r, s.active.Some?)).(bypassed := 0)))
  }

  function BeginObservation<A>(s: State<A>, requestLive: bool): Option<State<A>> {
    if s.queues.observations == [] || !(s.pc.PollObservations? || s.pc.IdleSelect?) then None
    else
      var r := s.queues.observations[0];
      var taken := s.(queues := s.queues.(observations := s.queues.observations[1..]), ledger := Bypass(s.ledger, s.queues));
      Some(if requestLive then Launch(taken, ObservationJob(r)) else taken.(pc := Top, ledger := Answer(taken.ledger, r.id)))
  }

  function BeginWakeup<A>(s: State<A>): Option<State<A>> {
    if s.pc != CheckDue || !Due(s.alarm) then None
    else
      Some(Launch(s.(alarm := s.alarm.(scheduled := None), ledger := Bypass(s.ledger, s.queues)),
                  WakeupJob(s.alarm.scheduled.value.wakeup)))
  }

  function TimerReceived<A>(s: State<A>): Option<State<A>> {
    if s.pc != IdleSelect || s.alarm.scheduled.None? || s.alarm.scheduled.value.timer.None? ||
       s.alarm.scheduled.value.timer.value !in s.alarm.fired then None
    else
      var t := s.alarm.scheduled.value.timer.value;
      Some(s.(pc := Top, ledger := Bypass(s.ledger, s.queues),
              alarm := s.alarm.(fired := s.alarm.fired - {t}, scheduled := Some(s.alarm.scheduled.value.(timer := None)))))
  }

  function ResultReceived<A>(p: Processor<A>, s: State<A>): Option<State<A>> {
    if s.pc != BusySelect || s.active.None? || s.active.value.result.None? then None
    else
      var w := s.active.value;
      var done := s.(active := None, alarm := Refresh(s.alarm, p.next(s.core.app), s.clock),
                     ledger := Note(Finish(Bypass(s.ledger, s.queues), w), FinishedWork));
      Some(if FailsLoop(w) then BeginShutdown(done) else done.(pc := Top))
  }

  /** handleControl one action at a time, then refreshWakeup. */
  function ControlStep<A>(p: Processor<A>, s: State<A>): Option<State<A>> {
    if !s.pc.Control? then None else
    var Control(r, stage, failed) := s.pc;
    match stage
    case Cancelling =>
      Some(s.(pc := Control(r, Stopping, failed), active := Cancel(s.active),
              ledger := if s.active.Some? then Note(s.ledger, CancelledWork) else s.ledger))
    case Stopping => Some(s.(pc := Control(r, Joining, failed), ledger := Note(s.ledger, StoppedAll)))
    case Joining =>
      if s.active.None? then Some(s.(pc := Control(r, Committing, failed)))
      else if s.active.value.result.None? then None
      else
        Some(s.(pc := Control(r, Committing, FailsLoop(s.active.value)), active := None,
                ledger := Note(Finish(s.ledger, s.active.value), JoinedWork)))
    case Committing =>
      Some(if Rejects(r) then s.(pc := Control(r, InCommit, failed), ledger := s.ledger.(inFlight := s.ledger.inFlight + 1))
           else s.(pc := Control(r, Replying, failed)))
    case InCommit =>
      Some(s.(pc := Control(r, Replying, failed), core := Apply(p, s.core, R.Reject(r.command, s.context)),
              ledger := Note(s.ledger, CommittedRejection(r.command)).(inFlight := s.ledger.inFlight - 1)))
    case Replying =>
      var replied := s.(pc := Top, alarm := Refresh(s.alarm, p.next(s.core.app), s.clock),
                        ledger := Note(Answer(s.ledger, r.id), AnsweredControl(r.id)));
      Some(if failed then BeginShutdown(replied) else replied)
  }

  /** shutdown after the loop decided to stop. */
  function ShutdownStep<A>(s: State<A>): Option<State<A>> {
    if !s.pc.Shutdown? then None else
    match s.pc.drain
    case StoppingAll => Some(s.(pc := Shutdown(JoiningWork)))
    case JoiningWork =>
      if s.active.None? then Some(s.(pc := Shutdown(DrainingObservations)))
      else if s.active.value.result.None? then None
      else Some(s.(pc := Shutdown(DrainingObservations), active := None, ledger := Finish(s.ledger, s.active.value)))
    case DrainingObservations =>
      Some(if s.queues.observations == [] then s.(pc := Shutdown(DrainingControls))
           else s.(queues := s.queues.(observations := s.queues.observations[1..]), ledger := Answer(s.ledger, s.queues.observations[0].id)))
    case DrainingControls =>
      Some(if s.queues.controls == [] then s.(pc := Returned)
           else s.(queues := s.queues.(controls := s.queues.controls[1..]), ledger := Answer(s.ledger, s.queues.controls[0].id)))
  }

  function Next<A>(p: Processor<A>, limits: Limits, s: State<A>, step: Step): Option<State<A>> {
    match step
    case SubmitObservation(r) => Submit(limits, s, r)
    case SubmitControl(r) => SubmitP0(limits, s, r)
    case Tick(to) => if to < s.clock then None else Some(s.(clock := to))
    case EndContext(timedOut) => Some(if s.context.Live? then s.(context := Ended(timedOut)) else s)
    case FireTimer(t) => Fire(s, t)
    case CompleteObservation(env) => ProcessDone(p, s, env)
    case CompleteWakeup(env, failed) => AdvanceDone(p, s, env, failed)
    case TakeControl => BeginControl(s)
    case SkipControls =>
      if s.pc != Top || s.queues.controls != [] then None
      else Some(s.(pc := if s.active.None? then PollObservations else BusySelect))
    case TakeObservation(requestLive) => BeginObservation(s, requestLive)
    case SkipObservations => if s.pc != PollObservations || s.queues.observations != [] then None else Some(s.(pc := CheckDue))
    case StartDueWakeup => BeginWakeup(s)
    case SkipDue => if s.pc != CheckDue || Due(s.alarm) then None else Some(s.(pc := IdleSelect))
    case ReceiveTimer => TimerReceived(s)
    case ReceiveResult => ResultReceived(p, s)
    case ReceiveDone => if s.context.Live? || !(s.pc.IdleSelect? || s.pc.BusySelect?) then None else Some(BeginShutdown(s))
    case AdvanceControl => ControlStep(p, s)
    case AdvanceShutdown => ShutdownStep(s)
  }

  const FRESH_LEDGER := Ledger(0, {}, multiset{}, {}, 0, [])

  function Start<A>(p: Processor<A>, now: Time): State<A> {
    State(Top, Queues([], []), None, Refresh(Alarm(None, map[], {}, 0), p.next(p.initial), now), now, Live,
          Core(p.initial, []), FRESH_LEDGER)
  }

  /** The state after a whole schedule, if every step was possible when taken. */
  function Run<A>(p: Processor<A>, limits: Limits, now: Time, steps: seq<Step>): Option<State<A>> {
    if steps == [] then Some(Start(p, now))
    else
      match Run(p, limits, now, steps[..|steps| - 1])
      case None => None
      case Some(s) => Next(p, limits, s, Last(steps))
  }
}
