/** Exactly when the engine greets, starts an episode, and has one rejected. */
module EngineGreetings {
  import opened Prelude
  import opened Ids
  import opened Observations
  import opened Events
  import opened World
  import opened Decisions
  import opened Behaviors
  import opened Episodes
  import opened Dispatch
  import opened Engines
  import opened EngineInvariant
  import opened EngineRuns

  // ---------------------------------------------------------------------------
  // The decision to greet.

  predicate Greeting(r: StepReport) { |r.decisions| == 1 && r.decisions[0].kind == GreetShort }

  /** The observation is admitted and reports a return. */
  ghost predicate Returns(c: Config, s: EngineState, o: Observation, env: ProcessEnv) {
    && Hears(c, s, Observe(o, env))
    && exists age :: Transition(c.returnAbsenceThreshold, TimelineOf(s.subjects, o.subjectID), o) == Some((PersonReturned, age))
  }

  lemma AnswerGreetsIff(c: Config, s: EngineState, e: SemanticEvent, env: ProcessEnv)
    requires e.kind == PersonReturned && e.id != "" && e.traceID != ""
    ensures Greeting(Answer(c, s, e, Evaluate(s.world, e, c.configHash), env).1) <==> Unguarded(s.world, e.occurredAt)
  {
    EvaluateReturn(s.world, e, c.configHash);
    var d := Decide(s.world, e, c.configHash);
    var prepared := Prepare(d, env.capabilities, c.actionTimeout);
    if d.kind == GreetShort && prepared.Ok? {
      GreetEffects(s, NOTHING.(events := [e], decisions := [d]), d, e, prepared.value.plan, prepared.value.phases, env);
    }
  }

  /** In any state: a decision to greet is made exactly on an admitted return with no
      guard at its time. Without one there is no plan and no command either. */
  lemma ProcessGreetsIff(c: Config, s: EngineState, o: Observation, env: ProcessEnv)
    ensures var r := Process(c, s, o, env).1;
      && (Greeting(r) <==> Returns(c, s, o, env) && Unguarded(s.world, o.occurredAt))
      && (Greets(r) ==> Greeting(r))
  {
    if Hears(c, s, Observe(o, env)) {
      ProcessEffects(c, s, o, env);
      var line := TimelineOf(s.subjects, o.subjectID);
      var change := Transition(c.returnAbsenceThreshold, line, o);
      if change.Some? && change.value.0 == PersonReturned {
        assert change == Some((PersonReturned, change.value.1));
        ReturnGreetsIff(c, s, o, env, change.value.1);
      }
    }
  }

  lemma ReturnGreetsIff(c: Config, s: EngineState, o: Observation, env: ProcessEnv, age: int)
    requires Hears(c, s, Observe(o, env))
    requires Transition(c.returnAbsenceThreshold, TimelineOf(s.subjects, o.subjectID), o) == Some((PersonReturned, age))
    ensures Greeting(Process(c, s, o, env).1) <==> Unguarded(s.world, o.occurredAt)
  {
    var line := TimelineOf(s.subjects, o.subjectID);
    var heard := s.(ingress := Admit(s.ingress, o), subjects := s.subjects[o.subjectID := NextTimeline(line, o)]);
    var e := TransitionEvent(o, (PersonReturned, age));
    ProjectedKeepsCooldowns(s.world, e);
    assert EventId(o.id, PersonReturned) != "";
    AnswerGreetsIff(c, heard.(world := Projected(s.world, e)), e, env);
  }

  // ---------------------------------------------------------------------------
  // Over whole runs.

  /** The time lies in the interval that the latest of the facts opened. */
  ghost predicate InLatest(times: seq<Time>, length: int, at: Time) {
    exists latest :: latest in times && (forall t :: t in times ==> t <= latest) && latest <= at < latest + length
  }

  lemma InsideIsInLatest(cooldown: Cooldown, times: seq<Time>, length: int, at: Time)
    requires LatestCooldown(cooldown, times, length) && length > 0 && forall t :: t in times ==> t != UNSET
    ensures Inside(cooldown, at) <==> InLatest(times, length, at)
  {
    if times != [] {
      assert forall latest :: latest in times && (forall t :: t in times ==> t <= latest) ==> latest == cooldown.start;
    }
  }

  /** What a run says about a return at this observation: presence after a maximal
      absent run at least the threshold old, the last busy and quiet values not true,
      and a time outside the intervals of the latest rejection and of the latest
      unanswered window. Earlier intervals, which a later fact replaced, do not count. */
  ghost predicate MayGreet(c: Config, inputs: seq<Input>, o: Observation) {
    var h := Heard(c, inputs);
    && Presence(o) == Some(true)
    && (exists i :: CurrentRun(h, Presence, false, i) && o.occurredAt - h[i].occurredAt >= c.returnAbsenceThreshold)
    && !LastValue(h, Busy, true) && !LastValue(h, Quiet, true)
    && !InLatest(RejectionTimes(c, inputs), c.rejectionCooldown, o.occurredAt)
    && !InLatest(NoResponseTimes(Outcomes(Reports(c, inputs))), c.noResponseCooldown, o.occurredAt)
  }

  lemma {:induction false} GuardsFollowRun(c: Config, inputs: seq<Input>, at: Time)
    requires ValidConfig(c)
    ensures Unguarded(Run(c, inputs).world, at) <==>
      && !LastValue(Heard(c, inputs), Busy, true) && !LastValue(Heard(c, inputs), Quiet, true)
      && !InLatest(RejectionTimes(c, inputs), c.rejectionCooldown, at)
      && !InLatest(NoResponseTimes(Outcomes(Reports(c, inputs))), c.noResponseCooldown, at)
  {
    SnapshotFollowsObservations(c, inputs);
    CooldownsFollowLatestFact(c, inputs);
    var w := Run(c, inputs).world;
    InsideIsInLatest(w.rejection, RejectionTimes(c, inputs), c.rejectionCooldown, at);
    InsideIsInLatest(w.noResponse, NoResponseTimes(Outcomes(Reports(c, inputs))), c.noResponseCooldown, at);
  }

  /** Over every run, an observation yields the decision to greet exactly when it is
      admitted and the run says it may; otherwise it yields no plan and no command. */
  lemma {:induction false} GreetsExactlyWhen(c: Config, inputs: seq<Input>, o: Observation, env: ProcessEnv)
    requires ValidConfig(c)
    ensures var r := Process(c, Run(c, inputs), o, env).1;
      && (Greeting(r) <==> Hears(c, Run(c, inputs), Observe(o, env)) && MayGreet(c, inputs, o))
      && (Greets(r) ==> Greeting(r))
  {
    var s := Run(c, inputs);
    ProcessGreetsIff(c, s, o, env);
    GuardsFollowRun(c, inputs, o.occurredAt);
    SignalsFollowHistory(c, inputs);
    ReturnedExactlyAfterLongAbsence(c.returnAbsenceThreshold, Heard(c, inputs), o);
  }

  /** While busy, the snapshot's reason is that of any later report in the current busy
      run exactly when the report that opened the run gave the same reason. */
  lemma {:induction false} BusyReasonIsLatestIff(c: Config, inputs: seq<Input>, first: int, later: int)
    requires ValidConfig(c) && CurrentRun(Heard(c, inputs), Busy, true, first) && first <= later < |Heard(c, inputs)|
    requires Busy(Heard(c, inputs)[later]) == Some(true)
    ensures var h := Heard(c, inputs);
      && h[first].userBusy.Some? && h[later].userBusy.Some?
      && (Run(c, inputs).world.busyReason == h[later].userBusy.value.reason <==> h[first].userBusy.value.reason == h[later].userBusy.value.reason)
  {
    SnapshotFollowsObservations(c, inputs);
  }

  // ---------------------------------------------------------------------------
  // Starting an episode.

  /** The driver offers some feedback action. */
  predicate CanGreet(capabilities: Option<Capabilities>) {
    capabilities.Some? && (Supported(capabilities.value, Acknowledge) || Supported(capabilities.value, Speak))
  }

  lemma PreparedIff(d: Decision, capabilities: Option<Capabilities>, actionTimeout: int)
    requires d.kind == GreetShort
    ensures Prepare(d, capabilities, actionTimeout).Ok? <==> CanGreet(capabilities)
  {
    if CanGreet(capabilities) {
      var w := PlannedPlansSplit(d, capabilities.value, actionTimeout);
      SplitIsUnique(Planned(d, capabilities.value, actionTimeout).value, w);
    }
  }

  lemma AnswerPlansIff(c: Config, s: EngineState, o: string, e: SemanticEvent, env: ProcessEnv)
    requires ValidConfig(c) && e.kind == PersonReturned && e.id == EventId(o, PersonReturned) && e.traceID != "" && e.subjectID == c.subjectID
    requires Unguarded(s.world, e.occurredAt) && (s.tracker.active.None? ==> s.pending.None?)
    requires s.tracker.active.Some? ==> s.tracker.active.value.id != EpisodeFor(o)
    ensures Answer(c, s, e, Evaluate(s.world, e, c.configHash), env).1.plans != [] <==>
      s.tracker.active.None? && CanGreet(env.capabilities) && env.now != UNSET
  {
    assert EventId(o, PersonReturned) != "" && InteractionId(e.id) != "" && EpisodeId(InteractionId(e.id)) != "" && DecisionId(e.id) != "";
    EvaluateReturn(s.world, e, c.configHash);
    PreparedIff(Decide(s.world, e, c.configHash), env.capabilities, c.actionTimeout);
  }

  /** In every reachable state an observation starts an episode exactly when it is an
      admitted, unguarded return, no episode is active, the driver offers some feedback
      action, and the clock is set. */
  lemma StartsEpisodeIff(c: Config, s: EngineState, o: Observation, env: ProcessEnv)
    requires Inv(c, s)
    ensures Process(c, s, o, env).1.plans != [] <==>
      && Returns(c, s, o, env) && Unguarded(s.world, o.occurredAt)
      && s.tracker.active.None? && CanGreet(env.capabilities) && env.now != UNSET
  {
    ProcessGreetsIff(c, s, o, env);
    if Returns(c, s, o, env) && Unguarded(s.world, o.occurredAt) {
      var age :| Transition(c.returnAbsenceThreshold, TimelineOf(s.subjects, o.subjectID), o) == Some((PersonReturned, age));
      ReturnStartsIff(c, s, o, env, age);
    }
  }

  lemma ReturnStartsIff(c: Config, s: EngineState, o: Observation, env: ProcessEnv, age: int)
    requires Inv(c, s) && Hears(c, s, Observe(o, env)) && Unguarded(s.world, o.occurredAt)
    requires Transition(c.returnAbsenceThreshold, TimelineOf(s.subjects, o.subjectID), o) == Some((PersonReturned, age))
    ensures Process(c, s, o, env).1.plans != [] <==> s.tracker.active.None? && CanGreet(env.capabilities) && env.now != UNSET
  {
    var line := TimelineOf(s.subjects, o.subjectID);
    var heard := s.(ingress := Admit(s.ingress, o), subjects := s.subjects[o.subjectID := NextTimeline(line, o)]);
    var e := TransitionEvent(o, (PersonReturned, age));
    ProjectedKeepsCooldowns(s.world, e);
    AnswerPlansIff(c, heard.(world := Projected(s.world, e)), o.id, e, env);
  }

  // ---------------------------------------------------------------------------
  // Rejecting one.

  /** Over every run, a control ends the active episode exactly when it is a valid
      rejection for the subject under a live context, its id was not committed before,
      and it is timed no earlier than the episode's start. This is the only way out of
      an episode left without a window. */
  lemma {:induction false} RejectionEndsIff(c: Config, inputs: seq<Input>, command: ControlCommand, context: Context)
    requires ValidConfig(c) && Run(c, inputs).tracker.active.Some?
    ensures var s := Run(c, inputs);
      var (t, r) := CommitUserRejection(c, s, command, context);
      && (t.tracker.active.None? <==>
            && ValidControl(command) && command.reason == UserRejectedStop && command.subjectID == c.subjectID && context.Live?
            && command.id !in RejectionIds(c, inputs)
            && command.occurredAt >= s.tracker.active.value.startedAt)
      && (t.tracker.active.None? <==> |r.outcomes| == 1 && r.outcomes[0].kind == OutcomeKind.Rejected)
      && (t.tracker.active.Some? ==> t.tracker.active == s.tracker.active && r.outcomes == [])
  {
    CooldownsFollowLatestFact(c, inputs);
    InitialInv(c);
    RunKeeps(c, Initial(c), inputs);
    CommitEndsIff(c, Run(c, inputs), command, context);
  }

  lemma CommitEndsIff(c: Config, s: EngineState, command: ControlCommand, context: Context)
    requires Inv(c, s) && s.tracker.active.Some?
    ensures var (t, r) := CommitUserRejection(c, s, command, context);
      && (t.tracker.active.None? <==>
            && CommitFault(c, command, context).None? && EventId(command.id, UserRejected) !in s.tracker.feedback
            && command.occurredAt >= s.tracker.active.value.startedAt)
      && (t.tracker.active.None? <==> |r.outcomes| == 1 && r.outcomes[0].kind == OutcomeKind.Rejected)
      && (t.tracker.active.Some? ==> t.tracker.active == s.tracker.active && r.outcomes == [])
  {
    assert EventId(command.id, UserRejected) != "";
    FeedbackEndsOrKeeps(s.tracker, "", RejectionOf(command));
  }
}
