/** What the engine reports of each operation, and how that relates to what it did. */
module EngineReports {
  import opened Prelude
  import opened Ids
  import opened Observations
  import opened Events
  import opened World
  import opened Decisions
  import opened Behaviors
  import opened Episodes
  import opened Dispatch
  import opened Engines
  import opened EngineInvariant
  import opened EngineRuns
  import opened EngineGreetings
  import opened EngineContinuations

  // ---------------------------------------------------------------------------
  // Events.

  /** The facts an input is worth: the transition of an observation that was heard, the
      expiration of a consumed wakeup, and a rejection committed for the first time. */
  function FactsOf(c: Config, s: EngineState, i: Input): seq<SemanticEvent> {
    match i
    case Observe(o, _) => if Hears(c, s, i) then CompiledEvents(c.returnAbsenceThreshold, TimelineOf(s.subjects, o.subjectID), o) else []
    case Wake(w, env) => if Consumes(s, w, env) then [ExpirationOf(s.pending.value)] else []
    case Reject(command, context) =>
      if CommitFault(c, command, context).None? && EventId(command.id, UserRejected) !in s.tracker.feedback then [RejectionOf(command)] else []
  }

  lemma AnswerEvents(c: Config, s: EngineState, e: SemanticEvent, evaluated: Result<Option<Decision>>, env: ProcessEnv)
    ensures Answer(c, s, e, evaluated, env).1.events == [e]
  {
  }

  lemma ProcessEvents(c: Config, s: EngineState, o: Observation, env: ProcessEnv)
    ensures Process(c, s, o, env).1.events == FactsOf(c, s, Observe(o, env))
  {
    if Hears(c, s, Observe(o, env)) {
      var line := TimelineOf(s.subjects, o.subjectID);
      var heard := s.(ingress := Admit(s.ingress, o), subjects := s.subjects[o.subjectID := NextTimeline(line, o)]);
      var change := Transition(c.returnAbsenceThreshold, line, o);
      if change.Some? {
        var e := TransitionEvent(o, change.value);
        var world := Projected(s.world, e);
        AnswerEvents(c, heard.(world := world), e, Evaluate(world, e, c.configHash), env);
      }
    }
  }

  /** Every input reports exactly the facts it is worth. */
  lemma EventsAreFacts(c: Config, s: EngineState, i: Input)
    requires Inv(c, s)
    ensures Step(c, s, i).1.events == FactsOf(c, s, i)
  {
    match i
    case Observe(o, env) => ProcessEvents(c, s, o, env);
    case Wake(w, env) => WakeupEndsEpisodeIff(c, s, w, env);
    case Reject(command, context) =>
      assert EventId(command.id, UserRejected) != "";
      FeedbackEndsOrKeeps(s.tracker, "", RejectionOf(command));
  }

  // ---------------------------------------------------------------------------
  // Statuses.

  lemma {:induction false} DispatchStatuses(r: StepReport, commands: seq<ActionCommand>, replies: seq<Reply>)
    ensures var q := WithDispatch(r, commands, replies); q.statuses == AllDelivered(replies, |q.executed|)
  {
    DispatchDelivers(replies, |commands|);
  }

  lemma GreetStatuses(s: EngineState, r: StepReport, d: Decision, e: SemanticEvent, plan: BehaviorPlan, phases: UserReplyPhases, env: ProcessEnv)
    requires r.statuses == [] && r.executed == []
    ensures var q := Greet(s, r, d, e, plan, phases, env).1; q.statuses == AllDelivered(env.replies, |q.executed|)
  {
    DispatchStatuses(r.(plans := [plan]), Commands(phases.before, env.dispatchAt), env.replies);
  }

  lemma AnswerStatuses(c: Config, s: EngineState, e: SemanticEvent, evaluated: Result<Option<Decision>>, env: ProcessEnv)
    ensures var q := Answer(c, s, e, evaluated, env).1; q.statuses == AllDelivered(env.replies, |q.executed|)
  {
    if evaluated.Ok? && evaluated.value.Some? {
      var d := evaluated.value.value;
      var p := Prepare(d, env.capabilities, c.actionTimeout);
      if p.Ok? {
        GreetStatuses(s, NOTHING.(events := [e], decisions := [d]), d, e, p.value.plan, p.value.phases, env);
      }
    }
  }

  lemma AcceptReplyStatuses(s: EngineState, e: SemanticEvent, env: ProcessEnv)
    ensures var q := AcceptReply(s, e, env).1; q.statuses == AllDelivered(env.replies, |q.executed|)
  {
    if s.pending.Some? {
      var v := Replied(s.tracker, s.pending.value.episodeID, e).1;
      if v.outcome.Some? {
        DispatchStatuses(NOTHING.(events := [e], outcomes := [v.outcome.value]), Commands(s.pending.value.after, env.dispatchAt), env.replies);
      }
    }
  }

  lemma ProcessStatuses(c: Config, s: EngineState, o: Observation, env: ProcessEnv)
    ensures var q := Process(c, s, o, env).1; q.statuses == AllDelivered(env.replies, |q.executed|)
  {
    if Hears(c, s, Observe(o, env)) {
      var line := TimelineOf(s.subjects, o.subjectID);
      var heard := s.(ingress := Admit(s.ingress, o), subjects := s.subjects[o.subjectID := NextTimeline(line, o)]);
      var change := Transition(c.returnAbsenceThreshold, line, o);
      if change.Some? {
        var e := TransitionEvent(o, change.value);
        var world := Projected(s.world, e);
        AcceptReplyStatuses(heard, e, env);
        AnswerStatuses(c, heard.(world := world), e, Evaluate(world, e, c.configHash), env);
      }
    }
  }

  /** Every input reports, in order, exactly what the driver delivered to the commands it
      handed over. */
  lemma StatusesAreDelivered(c: Config, s: EngineState, i: Input)
    requires Inv(c, s)
    ensures var r := Step(c, s, i).1; r.statuses == AllDelivered(Replies(i), |r.executed|)
  {
    match i
    case Observe(o, env) => ProcessStatuses(c, s, o, env);
    case Wake(w, env) =>
      WakeupEndsEpisodeIff(c, s, w, env);
      if Consumes(s, w, env) {
        AdvanceStatuses(c, s, w, env);
      }
    case Reject(command, context) =>
  }

  lemma AdvanceStatuses(c: Config, s: EngineState, w: Wakeup, env: AdvanceEnv)
    requires Inv(c, s) && Consumes(s, w, env)
    ensures var r := AdvanceAt(c, s, w, env).1; r.statuses == AllDelivered(env.replies, |r.executed|)
  {
    WakeupEndsEpisodeIff(c, s, w, env);
    var e := ExpirationOf(s.pending.value);
    var v := Expired(s.tracker, s.pending.value.episodeID, e).1;
    if v.outcome.Some? {
      DispatchStatuses(NOTHING.(events := [e], outcomes := [v.outcome.value]), Commands(s.pending.value.after, env.dispatchAt), env.replies);
    }
  }

  // ---------------------------------------------------------------------------
  // Why a greeting was not carried out.

  /** When the engine decides to greet and yet starts nothing, the fault says why: the
      driver did not say what it can do, or can give no feedback; a reply is pending; the
      clock is unset; or an episode without a window is active. */
  lemma GreetingRefusedBecause(c: Config, s: EngineState, o: Observation, env: ProcessEnv)
    requires Inv(c, s) && Greeting(Process(c, s, o, env).1) && Process(c, s, o, env).1.plans == []
    ensures Process(c, s, o, env).1.fault == Some(
      if env.capabilities.None? then Unavailable
      else if !CanGreet(env.capabilities) then CapabilityMissing
      else if s.pending.Some? then PolicyBlocked
      else if env.now == UNSET then InvalidInput
      else PolicyBlocked)
    ensures env.capabilities.None? || !CanGreet(env.capabilities) || s.tracker.active.Some? || env.now == UNSET
  {
    ProcessGreetsIff(c, s, o, env);
    StartsEpisodeIff(c, s, o, env);
    var age :| Transition(c.returnAbsenceThreshold, TimelineOf(s.subjects, o.subjectID), o) == Some((PersonReturned, age));
    var line := TimelineOf(s.subjects, o.subjectID);
    var heard := s.(ingress := Admit(s.ingress, o), subjects := s.subjects[o.subjectID := NextTimeline(line, o)]);
    var e := TransitionEvent(o, (PersonReturned, age));
    ProjectedKeepsCooldowns(s.world, e);
    AnswerRefuses(c, heard.(world := Projected(s.world, e)), o.id, e, env);
  }

  lemma AnswerRefuses(c: Config, s: EngineState, o: string, e: SemanticEvent, env: ProcessEnv)
    requires ValidConfig(c) && e.kind == PersonReturned && e.id == EventId(o, PersonReturned) && e.traceID != "" && e.subjectID == c.subjectID
    requires Unguarded(s.world, e.occurredAt) && Answer(c, s, e, Evaluate(s.world, e, c.configHash), env).1.plans == []
    ensures Answer(c, s, e, Evaluate(s.world, e, c.configHash), env).1.fault == Some(
      if env.capabilities.None? then Unavailable
      else if !CanGreet(env.capabilities) then CapabilityMissing
      else if s.pending.Some? then PolicyBlocked
      else if env.now == UNSET then InvalidInput
      else PolicyBlocked)
  {
    assert EventId(o, PersonReturned) != "" && InteractionId(e.id) != "" && EpisodeId(InteractionId(e.id)) != "" && DecisionId(e.id) != "";
    EvaluateReturn(s.world, e, c.configHash);
    PreparedIff(Decide(s.world, e, c.configHash), env.capabilities, c.actionTimeout);
  }

  /** An observation that is not heard changes nothing, and its fault says why: the context
      timed out, or ended otherwise; the observation outlived its life span, was seen
      before or comes too late in its source's sequence; or it is not valid, or of another
      subject. */
  lemma UnheardBecause(c: Config, s: EngineState, o: Observation, env: ProcessEnv)
    requires !Hears(c, s, Observe(o, env))
    ensures var (t, r) := Process(c, s, o, env);
      && t == s && r == NOTHING.(fault := r.fault)
      && (r.fault == Some(DeadlineExceeded) <==> env.context == Ended(true))
      && (r.fault == Some(Unavailable) <==> env.context == Ended(false))
      && (r.fault == Some(StaleInput) <==>
            && env.context.Live? && o.subjectID == c.subjectID
            && (ValidateAt(o, env.now) == Some(StaleInput) || (ValidateAt(o, env.now).None? && !Fresh(s.ingress, o))))
      && (r.fault == Some(InvalidInput) <==> env.context.Live? && (o.subjectID != c.subjectID || ValidateAt(o, env.now) == Some(InvalidInput)))
  {
  }

  /** A heard reply in reach of a pending window is consumed, and is no fault of its own. */
  lemma ReplyIsConsumed(s: EngineState, o: Observation, env: ProcessEnv)
    requires Sound(s.tracker) && WindowsAgree(s) && s.pending.Some? && s.pending.value.subjectID == o.subjectID
    requires ValidateAt(o, env.now).None? && o.userReply && EventId(o.id, UserReplied) !in s.tracker.feedback
    ensures var (t, r) := AcceptReply(s, TransitionEvent(o, (UserReplied, 0)), env);
      && EventId(o.id, UserReplied) in t.tracker.feedback && (r.outcomes == [] ==> r.fault.None?)
  {
    var e := TransitionEvent(o, (UserReplied, 0));
    assert EventId(o.id, UserReplied) != "";
    assert ValidFeedback(e, UserReplied);
    FeedbackEndsOrKeeps(s.tracker, s.pending.value.episodeID, e);
  }

  lemma SilenceIsNoFault(c: Config, s: EngineState, o: string, e: SemanticEvent, env: ProcessEnv)
    requires e.traceID != "" && (e.kind == PersonReturned ==> e.id == EventId(o, PersonReturned))
    ensures var (t, r) := Answer(c, s, e, Evaluate(s.world, e, c.configHash), env);
      !Greeting(r) ==> t == s && r == NOTHING.(events := [e], decisions := r.decisions)
  {
    assert EventId(o, PersonReturned) != "";
    if e.kind == PersonReturned {
      EvaluateReturn(s.world, e, c.configHash);
    }
  }

  /** A heard observation that neither greets nor ends an episode is no fault, runs nothing
      and leaves the episode and its window alone; and a reply in reach of the pending
      window is consumed. */
  lemma HeardQuietly(c: Config, s: EngineState, o: Observation, env: ProcessEnv)
    requires Inv(c, s) && Hears(c, s, Observe(o, env))
    ensures var (t, r) := Process(c, s, o, env);
      && (!Greeting(r) && r.outcomes == [] ==>
            r.fault.None? && r.executed == [] && r.plans == [] && t.pending == s.pending && t.published == s.published
            && t.tracker.active == s.tracker.active && t.tracker.window == s.tracker.window)
      && (o.userReply && s.pending.Some? ==> EventId(o.id, UserReplied) in t.tracker.feedback)
  {
    var line := TimelineOf(s.subjects, o.subjectID);
    var heard := s.(ingress := Admit(s.ingress, o), subjects := s.subjects[o.subjectID := NextTimeline(line, o)]);
    var change := Transition(c.returnAbsenceThreshold, line, o);
    if change.Some? {
      var e := TransitionEvent(o, change.value);
      if e.kind == UserReplied {
        QuietReply(c, heard, o, e, env);
      } else {
        SilenceIsNoFault(c, heard.(world := Projected(s.world, e)), o.id, e, env);
      }
    }
  }

  lemma QuietReply(c: Config, s: EngineState, o: Observation, e: SemanticEvent, env: ProcessEnv)
    requires Sound(s.tracker) && WindowsAgree(s) && (s.pending.Some? ==> s.pending.value.subjectID == c.subjectID)
    requires o.subjectID == c.subjectID && ValidateAt(o, env.now).None? && o.userReply && e == TransitionEvent(o, (UserReplied, 0))
    requires EventId(o.id, UserReplied) !in s.tracker.feedback
    ensures var (t, r) := AcceptReply(s, e, env);
      && (r.outcomes == [] ==>
            r.fault.None? && r.executed == [] && r.plans == [] && t.pending == s.pending && t.published == s.published
            && t.tracker.active == s.tracker.active && t.tracker.window == s.tracker.window)
      && (s.pending.Some? ==> EventId(o.id, UserReplied) in t.tracker.feedback)
  {
    if s.pending.Some? {
      ReplyIsConsumed(s, o, env);
      FeedbackEndsOrKeeps(s.tracker, s.pending.value.episodeID, e);
    }
  }

  /** A wakeup or a rejection fails only as its surroundings say: an ended context, a
      control that is not a valid rejection for the subject, or the commands a consumed
      wakeup hands over. One that comes again, too early or for nothing is no fault; only a
      due one whose deadline is the unset time is invalid. */
  lemma WakeAndRejectFaults(c: Config, s: EngineState, wakeup: Wakeup, env: AdvanceEnv, command: ControlCommand, context: Context)
    requires Inv(c, s)
    ensures env.context.Live? && !Consumes(s, wakeup, env) ==>
      (AdvanceAt(c, s, wakeup, env).1.fault ==
         if NextWakeup(s) == Some(wakeup) && wakeup.deadline == UNSET && env.now >= wakeup.deadline then Some(InvalidInput) else None)
    ensures env.context.Ended? ==> AdvanceAt(c, s, wakeup, env).1.fault == Some(if env.context.timedOut then DeadlineExceeded else Unavailable)
    ensures CommitUserRejection(c, s, command, context).1.fault == CommitFault(c, command, context)
  {
    WakeupEndsEpisodeIff(c, s, wakeup, env);
    assert EventId(command.id, UserRejected) != "";
    FeedbackEndsOrKeeps(s.tracker, "", RejectionOf(command));
  }

  // ---------------------------------------------------------------------------
  // The episode that is started.

  /** The episode an observation starts names its own interaction, the decision reported
      with it, the return event of the observation, and the observation's trace; the plan
      is for that interaction. */
  lemma StartedEpisodeIs(c: Config, s: EngineState, o: Observation, env: ProcessEnv)
    requires Inv(c, s) && Process(c, s, o, env).1.plans != []
    ensures var (t, r) := Process(c, s, o, env);
      && |r.decisions| == 1 && |r.plans| == 1 && t.tracker.active.Some?
      && var a := t.tracker.active.value;
      && a.id == EpisodeFor(o.id) && a.interactionID == InteractionId(EventId(o.id, PersonReturned)) && a.subjectID == o.subjectID
      && a.decisionID == r.decisions[0].id && a.triggerEventID == EventId(o.id, PersonReturned) && a.traceID == o.traceID
      && a.configHash == c.configHash && a.startedAt == env.now
      && r.plans[0].interactionID == a.interactionID && r.plans[0].traceID == a.traceID
      && r.decisions[0].interactionID == a.interactionID && r.decisions[0].kind == GreetShort
  {
    StartsEpisodeIff(c, s, o, env);
    var seen, e := PlansComeFromAnswers(c, s, o, env);
    AnswerEpisode(c, seen, e, env);
  }

  lemma AnswerEpisode(c: Config, s: EngineState, e: SemanticEvent, env: ProcessEnv)
    requires Answer(c, s, e, Evaluate(s.world, e, c.configHash), env).1.plans != []
    ensures var (t, r) := Answer(c, s, e, Evaluate(s.world, e, c.configHash), env);
      && |r.decisions| == 1 && |r.plans| == 1 && t.tracker.active.Some?
      && var a := t.tracker.active.value;
      && a == Episode(EpisodeId(InteractionId(e.id)), InteractionId(e.id), e.subjectID, r.decisions[0].id, e.id, e.traceID, c.configHash, env.now)
      && r.plans[0].interactionID == a.interactionID && r.plans[0].traceID == a.traceID
      && r.decisions[0].interactionID == a.interactionID && r.decisions[0].kind == GreetShort
  {
    AnswerStarts(c, s, e, env);
    PreparedInteraction(Decide(s.world, e, c.configHash), env.capabilities, c.actionTimeout);
  }

  // ---------------------------------------------------------------------------
  // The snapshot's version.

  /** The snapshot's version counts its changes, and its time is that of the last fact. */
  ghost predicate Versioned(s: EngineState, t: EngineState, events: seq<SemanticEvent>) {
    || t.world == s.world
    || (events != [] && t.world.version == s.world.version + 1 && t.world.updatedAt == events[0].occurredAt &&
        t.world.lastReturnedAt == if events[0].kind == PersonReturned then events[0].occurredAt else s.world.lastReturnedAt)
  }

  lemma ProcessVersions(c: Config, s: EngineState, o: Observation, env: ProcessEnv)
    ensures Versioned(s, Process(c, s, o, env).0, FactsOf(c, s, Observe(o, env)))
    ensures Hears(c, s, Observe(o, env)) && FactsOf(c, s, Observe(o, env)) != [] && !o.userReply && s.world.subjectID == c.subjectID ==>
      Process(c, s, o, env).0.world.version == s.world.version + 1
  {
    if Hears(c, s, Observe(o, env)) {
      ProcessEffects(c, s, o, env);
      var change := Transition(c.returnAbsenceThreshold, TimelineOf(s.subjects, o.subjectID), o);
      if change.Some? {
        ProjectedVersions(s.world, TransitionEvent(o, change.value));
      }
    }
  }

  lemma ProjectedVersions(w: WorldSnapshot, e: SemanticEvent)
    ensures e.subjectID == w.subjectID ==>
      && Projected(w, e).version == w.version + 1 && Projected(w, e).updatedAt == e.occurredAt
      && Projected(w, e).lastReturnedAt == if e.kind == PersonReturned then e.occurredAt else w.lastReturnedAt
    ensures e.subjectID != w.subjectID ==> Projected(w, e) == w
  {
  }

  /** Every input leaves the snapshot alone, or makes one new version of it that carries the
      time of the fact behind it; the time of the last return moves with returns only. */
  lemma VersionMarksChange(c: Config, s: EngineState, i: Input)
    requires Inv(c, s)
    ensures Versioned(s, Step(c, s, i).0, Step(c, s, i).1.events)
  {
    EventsAreFacts(c, s, i);
    match i
    case Observe(o, env) => ProcessVersions(c, s, o, env);
    case Wake(w, env) => WakeupEndsEpisodeIff(c, s, w, env);
    case Reject(command, context) => FeedbackEndsOrKeeps(s.tracker, "", RejectionOf(command));
  }
}
