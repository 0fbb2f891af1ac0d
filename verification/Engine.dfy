/** The interaction engine: one observation, one due wakeup or one rejection at a
    time. The pure functions say what each operation does; class Engine does it in
    place on its owned parts. */
module Engines {
  import opened Prelude
  import opened Ids
  import opened Observations
  import opened Events
  import opened World
  import opened Decisions
  import opened Behaviors
  import opened Episodes
  import opened Dispatch

  datatype Config = Config(
    subjectID: string,
    returnAbsenceThreshold: int,
    rejectionCooldown: int,
    noResponseCooldown: int,
    actionTimeout: int,
    configHash: string)

  predicate ValidConfig(c: Config) {
    && c.subjectID != "" && c.configHash != ""
    && c.returnAbsenceThreshold > 0 && c.rejectionCooldown > 0 && c.noResponseCooldown > 0 && c.actionTimeout > 0
  }

  datatype Wakeup = Wakeup(token: string, deadline: Time)

  datatype PendingReply = PendingReply(
    episodeID: string,
    interactionID: string,
    subjectID: string,
    traceID: string,
    wakeup: Wakeup,
    after: ActionPhase)

  /** The view of the window that input adapters read. */
  datatype ReplyWindow = ReplyWindow(subjectID: string, openedAt: Time, deadline: Time)

  datatype EngineState = EngineState(
    ingress: IngressState,
    subjects: map<string, Timeline>,
    world: WorldSnapshot,
    tracker: TrackerState,
    pending: Option<PendingReply>,
    published: Option<ReplyWindow>)

  function Initial(c: Config): EngineState {
    EngineState(EMPTY_INGRESS, map[], InitialSnapshot(c.subjectID), NO_EPISODE, None, None)
  }

  /** Everything an operation returns, and the commands handed to the driver. */
  datatype StepReport = StepReport(
    events: seq<SemanticEvent>,
    decisions: seq<Decision>,
    plans: seq<BehaviorPlan>,
    statuses: seq<ActionStatus>,
    outcomes: seq<Outcome>,
    executed: seq<ActionCommand>,
    fault: Option<Fault>)

  const NOTHING := StepReport([], [], [], [], [], [], None)

  function Failing(f: Fault): StepReport { NOTHING.(fault := Some(f)) }

  /** What the surroundings answer during one Process call: the context, the three
      clock readings, the driver's capabilities and its replies. */
  datatype ProcessEnv = ProcessEnv(
    context: Context,
    now: Time,
    capabilities: Option<Capabilities>,
    dispatchAt: Time,
    replies: seq<Reply>,
    openedAt: Time)

  datatype AdvanceEnv = AdvanceEnv(context: Context, now: Time, dispatchAt: Time, replies: seq<Reply>)

  datatype StopReason = UserRejectedStop | ShutdownStop
  datatype ControlCommand = ControlCommand(id: string, reason: StopReason, subjectID: string, occurredAt: Time, traceID: string)

  predicate ValidControl(c: ControlCommand) {
    c.id != "" && c.traceID != "" && (c.reason.UserRejectedStop? ==> c.subjectID != "" && c.occurredAt != UNSET)
  }

  // ---------------------------------------------------------------------------
  // Process.

  function WithDispatch(r: StepReport, commands: seq<ActionCommand>, replies: seq<Reply>): StepReport {
    var d := DispatchPhase(commands, replies);
    r.(statuses := d.statuses, executed := commands[..d.executed], fault := d.fault)
  }

  /** A user reply concerns only the pending window's subject. */
  function AcceptReply(s: EngineState, e: SemanticEvent, env: ProcessEnv): (EngineState, StepReport) {
    var r := NOTHING.(events := [e]);
    if s.pending.None? || s.pending.value.subjectID != e.subjectID then (s, r)
    else
      var p := s.pending.value;
      var (t, v) := Replied(s.tracker, p.episodeID, e);
      if v.fault.Some? then (s.(tracker := t), r.(fault := v.fault))
      else if v.outcome.None? then (s.(tracker := t), r)
      else
        (s.(tracker := t, pending := None, published := None),
         WithDispatch(r.(outcomes := [v.outcome.value]), Commands(p.after, env.dispatchAt), env.replies))
  }

  function EpisodeOf(d: Decision, e: SemanticEvent, now: Time): Episode {
    Episode(EpisodeId(d.interactionID), d.interactionID, e.subjectID, d.id, e.id, d.traceID, d.configHash, now)
  }

  /** A greeting with its plan split: start the episode, dispatch the phase before
      the wait and, if that worked, open the window in all three places. */
  function Greet(s: EngineState, r: StepReport, d: Decision, e: SemanticEvent, plan: BehaviorPlan, phases: UserReplyPhases,
                 env: ProcessEnv): (EngineState, StepReport)
  {
    var episode := EpisodeOf(d, e, env.now);
    if s.pending.Some? then (s, r.(fault := Some(PolicyBlocked)))
    else if StartFault(s.tracker, episode).Some? then (s, r.(fault := StartFault(s.tracker, episode)))
    else
      var begun := s.(tracker := s.tracker.(active := Some(episode)));
      var report := WithDispatch(r.(plans := [plan]), Commands(phases.before, env.dispatchAt), env.replies);
      var token := WakeupToken(episode.id);
      var openFault := OpenFault(begun.tracker, episode.id, token, env.openedAt, phases.waitFor);
      if report.fault.Some? then (begun, report)
      else if openFault.Some? then (begun, report.(fault := openFault))
      else
        var deadline := env.openedAt + phases.waitFor;
        (begun.(tracker := begun.tracker.(window := Some(ResponseWindow(token, env.openedAt, deadline))),
                pending := Some(PendingReply(episode.id, d.interactionID, e.subjectID, d.traceID, Wakeup(token, deadline), phases.after)),
                published := Some(ReplyWindow(e.subjectID, env.openedAt, deadline))),
         report)
  }

  /** A plan and its two phases. */
  datatype Prepared = Prepared(plan: BehaviorPlan, phases: UserReplyPhases)

  /** Plan the decision for the driver's capabilities and split the plan. */
  function Prepare(d: Decision, capabilities: Option<Capabilities>, actionTimeout: int): Result<Prepared> {
    if capabilities.None? then Err(Unavailable)
    else
      match Planned(d, capabilities.value, actionTimeout)
      case Err(f) => Err(f)
      case Ok(plan) =>
        match PhasesOf(plan)
        case Err(f) => Err(f)
        case Ok(phases) => Ok(Prepared(plan, phases))
  }

  function Respond(s: EngineState, r: StepReport, d: Decision, e: SemanticEvent, prepared: Result<Prepared>, env: ProcessEnv): (EngineState, StepReport) {
    match prepared
    case Err(f) => (s, r.(fault := Some(f)))
    case Ok(Prepared(plan, phases)) => Greet(s, r, d, e, plan, phases, env)
  }

  /** What follows from the decision on a transition. */
  function Answer(c: Config, s: EngineState, e: SemanticEvent, evaluated: Result<Option<Decision>>, env: ProcessEnv): (EngineState, StepReport) {
    var r := NOTHING.(events := [e]);
    match evaluated
    case Err(f) => (s, r.(fault := Some(f)))
    case Ok(None) => (s, r)
    case Ok(Some(d)) =>
      var decided := r.(decisions := [d]);
      if d.kind == Silent then (s, decided)
      else Respond(s, decided, d, e, Prepare(d, env.capabilities, c.actionTimeout), env)
  }

  /** A transition is projected; a return may greet. */
  function React(c: Config, s: EngineState, e: SemanticEvent, env: ProcessEnv): (EngineState, StepReport) {
    var world := Projected(s.world, e);
    Answer(c, s.(world := world), e, Evaluate(world, e, c.configHash), env)
  }

  function Process(c: Config, s: EngineState, o: Observation, env: ProcessEnv): (EngineState, StepReport) {
    if env.context.Ended? then (s, Failing(ContextFault(env.context)))
    else if o.subjectID != c.subjectID then (s, Failing(InvalidInput))
    else if AcceptFault(s.ingress, o, env.now).Some? then (s, Failing(AcceptFault(s.ingress, o, env.now).value))
    else
      var t := TimelineOf(s.subjects, o.subjectID);
      var heard := s.(ingress := Admit(s.ingress, o), subjects := s.subjects[o.subjectID := NextTimeline(t, o)]);
      match Transition(c.returnAbsenceThreshold, t, o)
      case None => (heard, NOTHING)
      case Some(change) =>
        var e := TransitionEvent(o, change);
        if e.kind == UserReplied then AcceptReply(heard, e, env) else React(c, heard, e, env)
  }

  // ---------------------------------------------------------------------------
  // AdvanceAt and CommitUserRejection.

  function NextWakeup(s: EngineState): Option<Wakeup> {
    if s.pending.None? then None else Some(s.pending.value.wakeup)
  }

  function ExpirationOf(p: PendingReply): SemanticEvent {
    WindowExpiration(EventId(p.wakeup.token, ResponseWindowExpired), p.episodeID, p.wakeup.token, p.subjectID,
                     p.wakeup.deadline, p.traceID)
  }

  /** Consumes the exact current wakeup once its deadline has come. */
  function AdvanceAt(c: Config, s: EngineState, wakeup: Wakeup, env: AdvanceEnv): (EngineState, StepReport) {
    if env.context.Ended? then (s, Failing(ContextFault(env.context)))
    else if NextWakeup(s) != Some(wakeup) || env.now < wakeup.deadline then (s, NOTHING)
    else
      var p := s.pending.value;
      var e := ExpirationOf(p);
      if !ValidExpiration(e) then (s, Failing(InvalidInput))
      else
        var (t, v) := Expired(s.tracker, p.episodeID, e);
        if v.fault.Some? then (s.(tracker := t), Failing(v.fault.value))
        else if !v.applied then (s.(tracker := t), NOTHING)
        else if v.outcome.None? then (s.(tracker := t), Failing(Uncategorized))
        else if c.noResponseCooldown <= 0 then (s.(tracker := t), Failing(InvalidInput))
        else
          (s.(tracker := t, world := NoResponseProjected(s.world, e, c.noResponseCooldown), pending := None, published := None),
           WithDispatch(NOTHING.(events := [e], outcomes := [v.outcome.value]), Commands(p.after, env.dispatchAt), env.replies))
  }

  function RejectionOf(command: ControlCommand): SemanticEvent {
    UserRejection(EventId(command.id, UserRejected), command.subjectID, command.occurredAt, command.traceID)
  }

  function CommitFault(c: Config, command: ControlCommand, context: Context): Option<Fault> {
    if !ValidControl(command) || command.reason != UserRejectedStop || command.subjectID != c.subjectID then Some(InvalidInput)
    else if context.Ended? then Some(ContextFault(context))
    else None
  }

  function CommitUserRejection(c: Config, s: EngineState, command: ControlCommand, context: Context): (EngineState, StepReport) {
    if CommitFault(c, command, context).Some? then (s, Failing(CommitFault(c, command, context).value))
    else
      var e := RejectionOf(command);
      if !ValidFeedback(e, UserRejected) then (s, Failing(InvalidInput))
      else
        var (t, v) := RejectedBy(s.tracker, e);
        if v.fault.Some? then (s.(tracker := t), Failing(v.fault.value))
        else if !v.applied then (s.(tracker := t), NOTHING)
        else if c.rejectionCooldown <= 0 then (s.(tracker := t), Failing(InvalidInput))
        else
          var world := RejectionProjected(s.world, e, c.rejectionCooldown);
          var r := NOTHING.(events := [e], outcomes := if v.outcome.Some? then [v.outcome.value] else []);
          if v.outcome.Some? && s.pending.Some? && v.outcome.value.interactionID == s.pending.value.interactionID then
            (s.(tracker := t, world := world, pending := None, published := None), r)
          else
            (s.(tracker := t, world := world), r)
  }
}
