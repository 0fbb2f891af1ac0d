/** Properties of whole engine runs: any sequence of observations, wakeups and
    rejections, with any clock readings, contexts and driver replies. */
module EngineRuns {
  import opened Prelude
  import opened Ids
  import opened Observations
  import opened Events
  import opened World
  import opened Decisions
  import opened Behaviors
  import opened Episodes
  import opened Dispatch
  import opened Engines
  import opened EngineInvariant

  datatype Input =
    | Observe(observation: Observation, processEnv: ProcessEnv)
    | Wake(wakeup: Wakeup, advanceEnv: AdvanceEnv)
    | Reject(command: ControlCommand, context: Context)

  function Step(c: Config, s: EngineState, i: Input): (EngineState, StepReport) {
    match i
    case Observe(o, env) => Process(c, s, o, env)
    case Wake(w, env) => AdvanceAt(c, s, w, env)
    case Reject(command, context) => CommitUserRejection(c, s, command, context)
  }

  function RunFrom(c: Config, s: EngineState, inputs: seq<Input>): EngineState {
    if inputs == [] then s else Step(c, RunFrom(c, s, inputs[..|inputs| - 1]), Last(inputs)).0
  }

  function ReportsFrom(c: Config, s: EngineState, inputs: seq<Input>): seq<StepReport> {
    if inputs == [] then []
    else ReportsFrom(c, s, inputs[..|inputs| - 1]) + [Step(c, RunFrom(c, s, inputs[..|inputs| - 1]), Last(inputs)).1]
  }

  function Run(c: Config, inputs: seq<Input>): EngineState { RunFrom(c, Initial(c), inputs) }

  function Reports(c: Config, inputs: seq<Input>): seq<StepReport> { ReportsFrom(c, Initial(c), inputs) }

  lemma StepKeeps(c: Config, s: EngineState, i: Input)
    requires Inv(c, s)
    ensures var (t, r) := Step(c, s, i); Inv(c, t) && Moves(s, t, r)
  {
    match i
    case Observe(o, env) => ProcessKeeps(c, s, o, env);
    case Wake(w, env) => AdvanceKeeps(c, s, w, env);
    case Reject(command, context) => CommitKeeps(c, s, command, context);
  }

  lemma {:induction false} RunKeeps(c: Config, s: EngineState, inputs: seq<Input>)
    requires Inv(c, s)
    ensures Inv(c, RunFrom(c, s, inputs))
  {
    if inputs != [] {
      RunKeeps(c, s, inputs[..|inputs| - 1]);
      StepKeeps(c, RunFrom(c, s, inputs[..|inputs| - 1]), Last(inputs));
    }
  }

  /** In every reachable state the three copies of the reply window agree. */
  lemma WindowsAlwaysAgree(c: Config, inputs: seq<Input>)
    requires ValidConfig(c)
    ensures WindowsAgree(Run(c, inputs)) && Sound(Run(c, inputs).tracker)
  {
    InitialInv(c);
    RunKeeps(c, Initial(c), inputs);
  }

  // ---------------------------------------------------------------------------
  // Episodes.

  /** The episodes a run started, one per plan it returned. */
  function StartedIds(reports: seq<StepReport>): seq<string> {
    if reports == [] then []
    else StartedIds(reports[..|reports| - 1]) + seq(|Last(reports).plans|, i requires 0 <= i < |Last(reports).plans| =>
                                                    EpisodeId(Last(reports).plans[i].interactionID))
  }

  /** The outcomes a run reported. */
  function Outcomes(reports: seq<StepReport>): seq<Outcome> {
    if reports == [] then [] else Outcomes(reports[..|reports| - 1]) + Last(reports).outcomes
  }

  function EndedIds(outcomes: seq<Outcome>): (r: seq<string>)
    ensures |r| == |outcomes| && forall i :: 0 <= i < |r| ==> r[i] == outcomes[i].episodeID
  {
    seq(|outcomes|, i requires 0 <= i < |outcomes| => outcomes[i].episodeID)
  }

  ghost predicate Ledger(s: EngineState, started: seq<string>, outcomes: seq<Outcome>) {
    && Distinct(started)
    && started == EndedIds(outcomes) + (if s.tracker.active.Some? then [s.tracker.active.value.id] else [])
    && (forall o :: o in outcomes ==> ValidOutcome(o))
    && forall o: string :: o !in s.ingress.seenIDs ==> EpisodeFor(o) !in started
  }

  /** Over every run: each outcome is valid and belongs to a distinct episode that
      was started before it, episodes end in the order they started, and started
      minus ended is one exactly when an episode is active. */
  lemma {:induction false} EpisodesEndInOrder(c: Config, inputs: seq<Input>)
    requires ValidConfig(c)
    ensures Ledger(Run(c, inputs), StartedIds(Reports(c, inputs)), Outcomes(Reports(c, inputs)))
  {
    if inputs != [] {
      var before, i := inputs[..|inputs| - 1], Last(inputs);
      EpisodesEndInOrder(c, before);
      InitialInv(c);
      RunKeeps(c, Initial(c), before);
      var reports := Reports(c, before);
      var s := Run(c, before);
      var (t, r) := Step(c, s, i);
      StepKeeps(c, s, i);
      assert Reports(c, inputs) == reports + [r] && (reports + [r])[..|reports|] == reports;
      LedgerStep(c, s, i, StartedIds(reports), Outcomes(reports));
    }
  }

  /** The episode of an observation nobody has seen joins the ledger. */
  lemma LedgerStarts(s: EngineState, t: EngineState, started: seq<string>, outcomes: seq<Outcome>, o: string)
    requires Ledger(s, started, outcomes) && s.tracker.active.None?
    requires s.ingress.seenIDs <= t.ingress.seenIDs && o !in s.ingress.seenIDs && o in t.ingress.seenIDs
    requires t.tracker.active.Some? && t.tracker.active.value.id == EpisodeFor(o)
    ensures Ledger(t, started + [t.tracker.active.value.id], outcomes)
  {
    var longer := started + [EpisodeFor(o)];
    forall x: string | x !in t.ingress.seenIDs ensures EpisodeFor(x) !in longer {
      EpisodeForInjective(x, o);
    }
  }

  lemma LedgerEnds(s: EngineState, t: EngineState, started: seq<string>, outcomes: seq<Outcome>, o: Outcome)
    requires Ledger(s, started, outcomes) && s.tracker.active.Some? && t.tracker.active.None?
    requires s.ingress.seenIDs <= t.ingress.seenIDs && ValidOutcome(o) && o.episodeID == s.tracker.active.value.id
    ensures Ledger(t, started, outcomes + [o])
  {
    assert EndedIds(outcomes + [o]) == EndedIds(outcomes) + [o.episodeID];
  }

  lemma LedgerStep(c: Config, s: EngineState, i: Input, started: seq<string>, outcomes: seq<Outcome>)
    requires Inv(c, s) && Ledger(s, started, outcomes)
    ensures var (t, r) := Step(c, s, i);
      Ledger(t, started + seq(|r.plans|, k requires 0 <= k < |r.plans| => EpisodeId(r.plans[k].interactionID)), outcomes + r.outcomes)
  {
    var (t, r) := Step(c, s, i);
    StepKeeps(c, s, i);
    SeenGrows(c, s, i);
    if Starts(s, t, r) {
      StartsFresh(c, s, i);
    }
    LedgerMoves(c, s, t, r, started, outcomes, if i.Observe? then i.observation.id else "");
  }

  /** The ledger follows any move, however it was made. */
  lemma LedgerMoves(c: Config, s: EngineState, t: EngineState, r: StepReport, started: seq<string>, outcomes: seq<Outcome>, o: string)
    requires Inv(c, s) && Inv(c, t) && Moves(s, t, r) && Ledger(s, started, outcomes) && s.ingress.seenIDs <= t.ingress.seenIDs
    requires Starts(s, t, r) ==> o !in s.ingress.seenIDs && o in t.ingress.seenIDs && t.tracker.active.value.id == EpisodeFor(o)
    ensures Ledger(t, started + seq(|r.plans|, k requires 0 <= k < |r.plans| => EpisodeId(r.plans[k].interactionID)), outcomes + r.outcomes)
  {
    var added := seq(|r.plans|, k requires 0 <= k < |r.plans| => EpisodeId(r.plans[k].interactionID));
    if Starts(s, t, r) {
      assert added == [t.tracker.active.value.id] && outcomes + r.outcomes == outcomes;
      LedgerStarts(s, t, started, outcomes, o);
    } else if EndsEpisode(s, t, r) {
      assert started + added == started && r.outcomes == [r.outcomes[0]];
      LedgerEnds(s, t, started, outcomes, r.outcomes[0]);
    } else {
      assert started + added == started && outcomes + r.outcomes == outcomes;
    }
  }

  lemma SeenGrows(c: Config, s: EngineState, i: Input)
    ensures s.ingress.seenIDs <= Step(c, s, i).0.ingress.seenIDs
  {
    match i
    case Observe(o, env) => ProcessSeen(c, s, o, env);
    case Wake(w, env) => AdvanceSeen(c, s, w, env);
    case Reject(command, context) => CommitSeen(c, s, command, context);
  }

  lemma ProcessSeen(c: Config, s: EngineState, o: Observation, env: ProcessEnv)
    ensures s.ingress.seenIDs <= Process(c, s, o, env).0.ingress.seenIDs
  {
  }

  lemma AdvanceSeen(c: Config, s: EngineState, w: Wakeup, env: AdvanceEnv)
    ensures AdvanceAt(c, s, w, env).0.ingress == s.ingress
  {
  }

  lemma CommitSeen(c: Config, s: EngineState, command: ControlCommand, context: Context)
    ensures CommitUserRejection(c, s, command, context).0.ingress == s.ingress
  {
  }

  /** A plan is only ever returned for a newly admitted return observation, and
      names its episode. */
  lemma StartsFresh(c: Config, s: EngineState, i: Input)
    requires Step(c, s, i).1.plans != []
    ensures i.Observe? && i.observation.id !in s.ingress.seenIDs && i.observation.id in Step(c, s, i).0.ingress.seenIDs
    ensures Step(c, s, i).0.tracker.active.Some? && Step(c, s, i).0.tracker.active.value.id == EpisodeFor(i.observation.id)
  {
    OthersNeverPlan(c, s, i);
    var seen, e := PlansComeFromAnswers(c, s, i.observation, i.processEnv);
    AnswerStarts(c, seen, e, i.processEnv);
  }

  lemma OthersNeverPlan(c: Config, s: EngineState, i: Input)
    ensures !i.Observe? ==> Step(c, s, i).1.plans == []
  {
  }

  lemma AnswerStarts(c: Config, s: EngineState, e: SemanticEvent, env: ProcessEnv)
    requires Answer(c, s, e, Evaluate(s.world, e, c.configHash), env).1.plans != []
    ensures var t := Answer(c, s, e, Evaluate(s.world, e, c.configHash), env).0;
      && e.kind == PersonReturned && t.ingress == s.ingress
      && t.tracker.active.Some? && t.tracker.active.value.id == EpisodeId(InteractionId(e.id))
  {
  }

  // ---------------------------------------------------------------------------
  // The wakeup.

  /** Whether a wakeup is the current one, due, and run with a live context. */
  predicate Consumes(s: EngineState, wakeup: Wakeup, env: AdvanceEnv) {
    NextWakeup(s) == Some(wakeup) && env.context.Live? && env.now >= wakeup.deadline && wakeup.deadline != UNSET
  }

  /** A wakeup ends the active episode exactly when it is the current one, due, and run
      with a live context. It then ends it with NO_RESPONSE at the deadline, clears all
      three copies of the window and applies the cooldown, whatever the driver answers.
      Any other wakeup changes nothing at all. */
  lemma WakeupEndsEpisodeIff(c: Config, s: EngineState, wakeup: Wakeup, env: AdvanceEnv)
    requires Inv(c, s)
    ensures var (t, r) := AdvanceAt(c, s, wakeup, env);
      && (r.outcomes != [] <==> Consumes(s, wakeup, env))
      && (!Consumes(s, wakeup, env) ==> t == s)
      && (Consumes(s, wakeup, env) ==>
            && t.tracker.active.None? && t.tracker.window.None? && t.pending.None? && t.published.None?
            && NextWakeup(t).None?
            && s.tracker.active.Some? && |r.outcomes| == 1 && r.outcomes[0].kind == NoResponse
            && r.outcomes[0].episodeID == s.tracker.active.value.id && r.outcomes[0].occurredAt == wakeup.deadline
            && t.world.noResponse == (if Supersedes(s.world.noResponse, wakeup.deadline)
                                      then Cooldown(wakeup.deadline, wakeup.deadline + c.noResponseCooldown) else s.world.noResponse))
  {
    if NextWakeup(s) == Some(wakeup) {
      var p := s.pending.value;
      assert EventId(p.wakeup.token, ResponseWindowExpired) != "" && WakeupToken(p.episodeID) != "";
      FeedbackEndsOrKeeps(s.tracker, p.episodeID, ExpirationOf(p));
    }
  }

  /** A wakeup whose episode has ended never becomes current again. */
  lemma ConsumedWakeupNeverReturns(c: Config, inputs: seq<Input>, ended: string)
    requires ValidConfig(c) && ended in EndedIds(Outcomes(Reports(c, inputs)))
    ensures NextWakeup(Run(c, inputs)).Some? ==> NextWakeup(Run(c, inputs)).value.token != WakeupToken(ended)
  {
    var s := Run(c, inputs);
    if NextWakeup(s).Some? {
      WindowsAlwaysAgree(c, inputs);
      EpisodesEndInOrder(c, inputs);
      var started, all := StartedIds(Reports(c, inputs)), EndedIds(Outcomes(Reports(c, inputs)));
      var k :| 0 <= k < |all| && all[k] == ended;
      assert started[k] == ended && started[|all|] == s.tracker.active.value.id;
      WakeupTokenInjective(ended, s.tracker.active.value.id);
    }
  }

  /** An episode left active without a window (its first phase failed) stays so, and
      blocks every further greeting, until a rejection: no observation and no
      wakeup ends it, and none starts another. */
  lemma {:induction false} StuckUntilRejected(c: Config, s: EngineState, inputs: seq<Input>)
    requires Inv(c, s) && s.tracker.active.Some? && s.tracker.window.None?
    requires forall i :: i in inputs ==> !i.Reject?
    ensures RunFrom(c, s, inputs).tracker.active == s.tracker.active && RunFrom(c, s, inputs).tracker.window.None?
    ensures StartedIds(ReportsFrom(c, s, inputs)) == [] && Outcomes(ReportsFrom(c, s, inputs)) == []
  {
    if inputs != [] {
      var before, i := inputs[..|inputs| - 1], Last(inputs);
      StuckUntilRejected(c, s, before);
      RunKeeps(c, s, before);
      var t, rs := RunFrom(c, s, before), ReportsFrom(c, s, before);
      StuckStep(c, t, i);
      assert (rs + [Step(c, t, i).1])[..|rs|] == rs;
    }
  }

  lemma StuckStep(c: Config, s: EngineState, i: Input)
    requires Inv(c, s) && s.tracker.active.Some? && s.tracker.window.None? && !i.Reject?
    ensures var (t, r) := Step(c, s, i);
      t.tracker.active == s.tracker.active && t.tracker.window.None? && r.plans == [] && r.outcomes == []
  {
    match i {
      case Observe(o, env) => StuckObservation(c, s, o, env);
      case Wake(w, env) => assert NextWakeup(s).None?;
    }
  }

  lemma StuckObservation(c: Config, s: EngineState, o: Observation, env: ProcessEnv)
    requires Inv(c, s) && s.tracker.active.Some? && s.tracker.window.None?
    ensures var (t, r) := Process(c, s, o, env);
      t.tracker.active == s.tracker.active && t.tracker.window.None? && r.plans == [] && r.outcomes == []
  {
    ProcessKeeps(c, s, o, env);
    NoReplyWithoutWindow(c, s, o, env);
  }

  /** Without a window nothing ends an episode, and only a plan opens one. */
  lemma NoReplyWithoutWindow(c: Config, s: EngineState, o: Observation, env: ProcessEnv)
    requires s.pending.None? && s.tracker.window.None?
    ensures var (t, r) := Process(c, s, o, env); r.outcomes == [] && (r.plans == [] ==> t.tracker.window.None?)
  {
    if Hears(c, s, Observe(o, env)) {
      var line := TimelineOf(s.subjects, o.subjectID);
      var heard := s.(ingress := Admit(s.ingress, o), subjects := s.subjects[o.subjectID := NextTimeline(line, o)]);
      var change := Transition(c.returnAbsenceThreshold, line, o);
      if change.Some? {
        var e := TransitionEvent(o, change.value);
        AnswerWithoutPlan(c, heard.(world := Projected(s.world, e)), e, Evaluate(Projected(s.world, e), e, c.configHash), env);
      }
    }
  }

  lemma AnswerWithoutPlan(c: Config, s: EngineState, e: SemanticEvent, evaluated: Result<Option<Decision>>, env: ProcessEnv)
    ensures var (t, r) := Answer(c, s, e, evaluated, env); r.outcomes == [] && (r.plans == [] ==> t.tracker == s.tracker)
  {
  }

  /** A greeting that starts opens its window exactly when every command before the
      wait got a clean reply and the opening time is set and not before the start. */
  lemma GreetOpensIff(s: EngineState, r: StepReport, d: Decision, e: SemanticEvent, plan: BehaviorPlan, phases: UserReplyPhases, env: ProcessEnv)
    requires Greet(s, r, d, e, plan, phases, env).1.plans != [] && r.plans == []
    requires phases.waitFor > 0 && (s.pending.None? ==> s.tracker.window.None?)
    ensures var (t, q) := Greet(s, r, d, e, plan, phases, env);
      && q.plans == [plan] && t.tracker.active.Some?
      && (t.pending.Some? <==> AllClean(env.replies, |phases.before.actions|) && env.openedAt != UNSET && env.openedAt >= env.now)
      && (q.fault.None? <==> t.pending.Some?)
  {
    DispatchSucceedsIff(env.replies, |phases.before.actions|);
    assert WakeupToken(EpisodeId(d.interactionID)) != "" && EpisodeId(d.interactionID) != "";
  }

  /** Whatever is prepared has a wait of the reply duration and splits as it says. */
  lemma PreparedSplits(d: Decision, capabilities: Option<Capabilities>, actionTimeout: int)
    requires Prepare(d, capabilities, actionTimeout).Ok?
    ensures var p := Prepare(d, capabilities, actionTimeout).value;
      PhasesOf(p.plan) == Ok(p.phases) && p.phases.waitFor > 0
  {
    var w := PlannedPlansSplit(d, capabilities.value, actionTimeout);
    SplitIsUnique(Prepare(d, capabilities, actionTimeout).value.plan, w);
  }

  lemma AnswerOpensIff(c: Config, s: EngineState, e: SemanticEvent, evaluated: Result<Option<Decision>>, env: ProcessEnv)
    requires Answer(c, s, e, evaluated, env).1.plans != [] && (s.pending.None? ==> s.tracker.window.None?)
    ensures OpensIff(Answer(c, s, e, evaluated, env), env)
  {
    var d := evaluated.value.value;
    var prepared := Prepare(d, env.capabilities, c.actionTimeout);
    PreparedSplits(d, env.capabilities, c.actionTimeout);
    GreetOpensIff(s, NOTHING.(events := [e], decisions := [d]), d, e, prepared.value.plan, prepared.value.phases, env);
  }

  /** The window opened exactly when the plan's phase before the wait went well. */
  ghost predicate OpensIff(result: (EngineState, StepReport), env: ProcessEnv) {
    var (t, r) := result;
    && |r.plans| == 1 && PhasesOf(r.plans[0]).Ok?
    && t.tracker.active.Some?
    && (t.pending.Some? <==> AllClean(env.replies, |PhasesOf(r.plans[0]).value.before.actions|) &&
                             env.openedAt != UNSET && env.openedAt >= env.now)
    && (r.fault.None? <==> t.pending.Some?)
  }

  /** When exactly a started greeting opens its window: every command before the
      wait got a clean reply and the clock did not run backwards meanwhile. On any
      other reply the episode is left active with no window. */
  lemma WindowOpensIff(c: Config, s: EngineState, o: Observation, env: ProcessEnv)
    requires Inv(c, s) && Process(c, s, o, env).1.plans != []
    ensures OpensIff(Process(c, s, o, env), env)
  {
    var seen, e := PlansComeFromAnswers(c, s, o, env);
    AnswerOpensIff(c, seen, e, Evaluate(seen.world, e, c.configHash), env);
  }

  /** Only the answer to a transition ever plans. */
  lemma PlansComeFromAnswers(c: Config, s: EngineState, o: Observation, env: ProcessEnv) returns (seen: EngineState, e: SemanticEvent)
    requires Process(c, s, o, env).1.plans != []
    ensures Process(c, s, o, env) == Answer(c, seen, e, Evaluate(seen.world, e, c.configHash), env)
    ensures seen.pending == s.pending && seen.tracker == s.tracker
    ensures o.id !in s.ingress.seenIDs && o.id in seen.ingress.seenIDs && e.id == EventId(o.id, e.kind)
    ensures seen.world == Projected(s.world, e)
    ensures Transition(c.returnAbsenceThreshold, TimelineOf(s.subjects, o.subjectID), o).Some?
    ensures e == TransitionEvent(o, Transition(c.returnAbsenceThreshold, TimelineOf(s.subjects, o.subjectID), o).value)
  {
    var line := TimelineOf(s.subjects, o.subjectID);
    var heard := s.(ingress := Admit(s.ingress, o), subjects := s.subjects[o.subjectID := NextTimeline(line, o)]);
    e := TransitionEvent(o, Transition(c.returnAbsenceThreshold, line, o).value);
    if e.kind == UserReplied {
      NoPlanForReply(heard, e, env);
    }
    seen := heard.(world := Projected(s.world, e));
  }

  lemma NoPlanForReply(s: EngineState, e: SemanticEvent, env: ProcessEnv)
    ensures AcceptReply(s, e, env).1.plans == []
  {
  }

  // ---------------------------------------------------------------------------
  // The speech gate.

  /** The test an input adapter makes before it turns speech into a reply. */
  predicate ReplyWindowContains(window: Option<ReplyWindow>, o: Observation) {
    && window.Some?
    && window.value.subjectID != ""
    && window.value.subjectID == o.subjectID
    && window.value.openedAt < window.value.deadline
    && window.value.openedAt <= o.occurredAt < window.value.deadline
  }

  /** For a fresh valid reply at a quiescent moment, the adapter's gate on the
      published view holds exactly when processing the reply yields ACCEPTED. */
  lemma GateIffAccepted(c: Config, s: EngineState, o: Observation, env: ProcessEnv)
    requires Inv(c, s) && env.context.Live?
    requires o.userReply && AcceptFault(s.ingress, o, env.now).None?
    ensures ReplyWindowContains(s.published, o) <==>
            var r := Process(c, s, o, env).1; |r.outcomes| == 1 && r.outcomes[0].kind == OutcomeKind.Accepted
  {
    if o.subjectID == c.subjectID {
      var e := TransitionEvent(o, (UserReplied, 0));
      assert ValidFeedback(e, UserReplied) by { assert EventId(o.id, UserReplied) != ""; }
      if s.pending.Some? {
        ReplyAcceptedIffInWindow(s.tracker, e);
      }
    }
  }

  // ---------------------------------------------------------------------------
  // What each part of Process leaves alone.

  lemma GreetEffects(s: EngineState, r: StepReport, d: Decision, e: SemanticEvent, plan: BehaviorPlan, phases: UserReplyPhases,
                     env: ProcessEnv)
    ensures var (t, q) := Greet(s, r, d, e, plan, phases, env);
      && t.world == s.world && t.subjects == s.subjects && t.tracker.feedback == s.tracker.feedback
      && q.outcomes == r.outcomes && q.decisions == r.decisions
  {
  }

  lemma AcceptReplyEffects(s: EngineState, e: SemanticEvent, env: ProcessEnv)
    ensures var (t, r) := AcceptReply(s, e, env);
      && t.world == s.world && t.subjects == s.subjects
      && s.tracker.feedback <= t.tracker.feedback <= s.tracker.feedback + {e.id}
      && r.plans == [] && r.decisions == [] && (r.outcomes == [] ==> r.executed == [])
      && forall x :: x in r.outcomes ==> x.kind == OutcomeKind.Accepted
  {
  }

  /** No guard applies at this time. */
  predicate Unguarded(w: WorldSnapshot, at: Time) {
    !w.quietMode && !w.userBusy && !Inside(w.rejection, at) && !Inside(w.noResponse, at)
  }

  predicate Greets(r: StepReport) {
    r.plans != [] || (r.executed != [] && r.outcomes == []) || exists i :: 0 <= i < |r.decisions| && r.decisions[i].kind == GreetShort
  }

  lemma ReactEffects(c: Config, s: EngineState, e: SemanticEvent, env: ProcessEnv)
    ensures var (t, r) := React(c, s, e, env);
      && t.world == Projected(s.world, e) && t.subjects == s.subjects && t.tracker.feedback == s.tracker.feedback
      && r.outcomes == []
      && (Greets(r) ==> e.kind == PersonReturned && Unguarded(Projected(s.world, e), e.occurredAt))
  {
    var world := Projected(s.world, e);
    var seen, r := s.(world := world), NOTHING.(events := [e]);
    match Evaluate(world, e, c.configHash)
    case Err(_) =>
    case Ok(None) =>
    case Ok(Some(d)) =>
      var decided := r.(decisions := [d]);
      var prepared := Prepare(d, env.capabilities, c.actionTimeout);
      if d.kind == GreetShort && prepared.Ok? {
        GreetEffects(seen, decided, d, e, prepared.value.plan, prepared.value.phases, env);
      }
  }

  /** Projecting a transition never touches the cooldowns. */
  lemma ProjectedKeepsCooldowns(w: WorldSnapshot, e: SemanticEvent)
    ensures Projected(w, e).rejection == w.rejection && Projected(w, e).noResponse == w.noResponse
    ensures e.kind == PersonReturned ==> Projected(w, e).quietMode == w.quietMode && Projected(w, e).userBusy == w.userBusy
  {
  }

  /** An admitted observation updates the timeline, and the snapshot by its one
      transition; a reply leaves the snapshot alone. */
  lemma ProcessEffects(c: Config, s: EngineState, o: Observation, env: ProcessEnv)
    requires env.context.Live? && o.subjectID == c.subjectID && AcceptFault(s.ingress, o, env.now).None?
    ensures var (t, r) := Process(c, s, o, env);
      var line := TimelineOf(s.subjects, o.subjectID);
      var change := Transition(c.returnAbsenceThreshold, line, o);
      && t.subjects == s.subjects[o.subjectID := NextTimeline(line, o)]
      && t.world == (if change.Some? && change.value.0 != UserReplied then Projected(s.world, TransitionEvent(o, change.value)) else s.world)
      && s.tracker.feedback <= t.tracker.feedback <= s.tracker.feedback + {EventId(o.id, UserReplied)}
      && (forall x :: x in r.outcomes ==> x.kind == OutcomeKind.Accepted)
      && (Greets(r) ==> change.Some? && change.value.0 == PersonReturned && Unguarded(t.world, o.occurredAt))
  {
    var line := TimelineOf(s.subjects, o.subjectID);
    var heard := s.(ingress := Admit(s.ingress, o), subjects := s.subjects[o.subjectID := NextTimeline(line, o)]);
    match Transition(c.returnAbsenceThreshold, line, o)
    case None =>
    case Some(change) =>
      var e := TransitionEvent(o, change);
      if e.kind == UserReplied {
        AcceptReplyEffects(heard, e, env);
      } else {
        ReactEffects(c, heard, e, env);
      }
  }

  // ---------------------------------------------------------------------------
  // Cooldowns.

  /** A rejection counts once per command id. */
  function RejectionIds(c: Config, inputs: seq<Input>): set<string> {
    if inputs == [] then {}
    else
      var ids, i := RejectionIds(c, inputs[..|inputs| - 1]), Last(inputs);
      if i.Reject? && CommitFault(c, i.command, i.context).None? then ids + {i.command.id} else ids
  }

  /** The times of the rejections a run was given, in arrival order. */
  function RejectionTimes(c: Config, inputs: seq<Input>): seq<Time> {
    if inputs == [] then []
    else
      var before, i := inputs[..|inputs| - 1], Last(inputs);
      var times := RejectionTimes(c, before);
      if i.Reject? && CommitFault(c, i.command, i.context).None? && i.command.id !in RejectionIds(c, before)
      then times + [i.command.occurredAt] else times
  }

  /** The times of the unanswered windows a run reported. */
  function NoResponseTimes(outcomes: seq<Outcome>): seq<Time> {
    if outcomes == [] then []
    else
      var times := NoResponseTimes(outcomes[..|outcomes| - 1]);
      if Last(outcomes).kind == NoResponse then times + [Last(outcomes).occurredAt] else times
  }

  lemma {:induction false} NoResponseAppend(outcomes: seq<Outcome>, o: Outcome)
    ensures NoResponseTimes(outcomes + [o]) == NoResponseTimes(outcomes) + (if o.kind == NoResponse then [o.occurredAt] else [])
  {
    assert (outcomes + [o])[..|outcomes|] == outcomes;
  }

  ghost predicate CooldownsMatch(c: Config, s: EngineState, rejections: seq<Time>, ids: set<string>, unanswered: seq<Time>) {
    && LatestCooldown(s.world.rejection, rejections, c.rejectionCooldown)
    && LatestCooldown(s.world.noResponse, unanswered, c.noResponseCooldown)
    && (forall t :: t in rejections || t in unanswered ==> t != UNSET)
    && forall k: string :: EventId(k, UserRejected) in s.tracker.feedback <==> k in ids
  }

  /** Over every run each cooldown starts at the latest of the facts applied so far,
      in whatever order they arrived, and lasts the configured time. */
  lemma {:induction false} CooldownsFollowLatestFact(c: Config, inputs: seq<Input>)
    requires ValidConfig(c)
    ensures CooldownsMatch(c, Run(c, inputs), RejectionTimes(c, inputs), RejectionIds(c, inputs),
                           NoResponseTimes(Outcomes(Reports(c, inputs))))
  {
    if inputs != [] {
      var before, i := inputs[..|inputs| - 1], Last(inputs);
      CooldownsFollowLatestFact(c, before);
      InitialInv(c);
      RunKeeps(c, Initial(c), before);
      var reports, r := Reports(c, before), Step(c, Run(c, before), i).1;
      assert (reports + [r])[..|reports|] == reports;
      CooldownsStep(c, Run(c, before), i, RejectionTimes(c, before), RejectionIds(c, before), Outcomes(reports));
    }
  }

  /** At most one outcome is added at a time. */
  lemma {:induction false} NoResponseExtend(outcomes: seq<Outcome>, more: seq<Outcome>)
    requires |more| <= 1
    ensures NoResponseTimes(outcomes + more) ==
      NoResponseTimes(outcomes) + (if more != [] && more[0].kind == NoResponse then [more[0].occurredAt] else [])
  {
    if more == [] {
      assert outcomes + more == outcomes;
    } else {
      assert more == [more[0]];
      NoResponseAppend(outcomes, more[0]);
    }
  }

  /** Other outcomes add no unanswered window. */
  lemma {:induction false} NothingUnanswered(outcomes: seq<Outcome>, more: seq<Outcome>)
    requires |more| <= 1 && forall x :: x in more ==> x.kind != NoResponse
    ensures NoResponseTimes(outcomes + more) == NoResponseTimes(outcomes)
  {
    NoResponseExtend(outcomes, more);
  }

  lemma {:induction false} ObserveCooldowns(c: Config, s: EngineState, o: Observation, env: ProcessEnv, rejections: seq<Time>, ids: set<string>,
                                            outcomes: seq<Outcome>)
    requires Inv(c, s) && CooldownsMatch(c, s, rejections, ids, NoResponseTimes(outcomes))
    ensures var (t, r) := Process(c, s, o, env);
      CooldownsMatch(c, t, rejections, ids, NoResponseTimes(outcomes + r.outcomes))
  {
    ProcessKeeps(c, s, o, env);
    ObserveKeepsCooldowns(c, s, o, env, rejections, ids, NoResponseTimes(outcomes));
    NothingUnanswered(outcomes, Process(c, s, o, env).1.outcomes);
  }

  lemma {:induction false} WakeCooldowns(c: Config, s: EngineState, w: Wakeup, env: AdvanceEnv, rejections: seq<Time>, ids: set<string>,
                                         outcomes: seq<Outcome>)
    requires Inv(c, s) && CooldownsMatch(c, s, rejections, ids, NoResponseTimes(outcomes))
    ensures var (t, r) := AdvanceAt(c, s, w, env);
      CooldownsMatch(c, t, rejections, ids, NoResponseTimes(outcomes + r.outcomes))
  {
    AdvanceKeeps(c, s, w, env);
    WakeKeepsCooldowns(c, s, w, env, rejections, ids, NoResponseTimes(outcomes));
    NoResponseExtend(outcomes, AdvanceAt(c, s, w, env).1.outcomes);
  }

  lemma {:induction false} RejectCooldowns(c: Config, s: EngineState, command: ControlCommand, context: Context, rejections: seq<Time>, ids: set<string>,
                                           outcomes: seq<Outcome>)
    requires Inv(c, s) && CooldownsMatch(c, s, rejections, ids, NoResponseTimes(outcomes))
    ensures var (t, r) := CommitUserRejection(c, s, command, context);
      var counts := CommitFault(c, command, context).None?;
      CooldownsMatch(c, t,
        if counts && command.id !in ids then rejections + [command.occurredAt] else rejections,
        if counts then ids + {command.id} else ids,
        NoResponseTimes(outcomes + r.outcomes))
  {
    CommitKeeps(c, s, command, context);
    RejectKeepsCooldowns(c, s, command, context, rejections, ids, NoResponseTimes(outcomes));
    NothingUnanswered(outcomes, CommitUserRejection(c, s, command, context).1.outcomes);
  }

  lemma {:induction false} CooldownsStep(c: Config, s: EngineState, i: Input, rejections: seq<Time>, ids: set<string>, outcomes: seq<Outcome>)
    requires Inv(c, s) && CooldownsMatch(c, s, rejections, ids, NoResponseTimes(outcomes))
    ensures var (t, r) := Step(c, s, i);
      var counts := i.Reject? && CommitFault(c, i.command, i.context).None?;
      CooldownsMatch(c, t,
        if counts && i.command.id !in ids then rejections + [i.command.occurredAt] else rejections,
        if counts then ids + {i.command.id} else ids,
        NoResponseTimes(outcomes + r.outcomes))
  {
    match i
    case Observe(o, env) => ObserveCooldowns(c, s, o, env, rejections, ids, outcomes);
    case Wake(w, env) => WakeCooldowns(c, s, w, env, rejections, ids, outcomes);
    case Reject(command, context) => RejectCooldowns(c, s, command, context, rejections, ids, outcomes);
  }

  lemma ObserveKeepsCooldowns(c: Config, s: EngineState, o: Observation, env: ProcessEnv, rejections: seq<Time>, ids: set<string>,
                              unanswered: seq<Time>)
    requires Inv(c, s) && CooldownsMatch(c, s, rejections, ids, unanswered)
    ensures var (t, r) := Process(c, s, o, env);
      CooldownsMatch(c, t, rejections, ids, unanswered) && forall x :: x in r.outcomes ==> x.kind == OutcomeKind.Accepted
  {
    var (t, r) := Process(c, s, o, env);
    ProcessSideEffects(c, s, o, env);
    forall k: string ensures EventId(k, UserRejected) in t.tracker.feedback <==> k in ids {
      EventIdInjective(k, UserRejected, o.id, UserReplied);
    }
  }

  /** What processing an observation can do to cooldowns and feedback marks. */
  lemma ProcessSideEffects(c: Config, s: EngineState, o: Observation, env: ProcessEnv)
    ensures var (t, r) := Process(c, s, o, env);
      && t.world.rejection == s.world.rejection && t.world.noResponse == s.world.noResponse
      && s.tracker.feedback <= t.tracker.feedback <= s.tracker.feedback + {EventId(o.id, UserReplied)}
      && forall x :: x in r.outcomes ==> x.kind == OutcomeKind.Accepted
  {
    if env.context.Live? && o.subjectID == c.subjectID && AcceptFault(s.ingress, o, env.now).None? {
      ProcessEffects(c, s, o, env);
      var change := Transition(c.returnAbsenceThreshold, TimelineOf(s.subjects, o.subjectID), o);
      if change.Some? {
        ProjectedKeepsCooldowns(s.world, TransitionEvent(o, change.value));
      }
    }
  }

  lemma WakeKeepsCooldowns(c: Config, s: EngineState, w: Wakeup, env: AdvanceEnv, rejections: seq<Time>, ids: set<string>,
                           unanswered: seq<Time>)
    requires Inv(c, s) && CooldownsMatch(c, s, rejections, ids, unanswered)
    ensures var (t, r) := AdvanceAt(c, s, w, env);
      && (r.outcomes == [] ==> CooldownsMatch(c, t, rejections, ids, unanswered))
      && (|r.outcomes| == 1 ==> r.outcomes[0].kind == NoResponse &&
                                CooldownsMatch(c, t, rejections, ids, unanswered + [r.outcomes[0].occurredAt]))
  {
    var (t, r) := AdvanceAt(c, s, w, env);
    if r.outcomes != [] {
      CooldownStep(s.world.noResponse, unanswered, c.noResponseCooldown, w.deadline);
    }
  }

  lemma RejectKeepsCooldowns(c: Config, s: EngineState, command: ControlCommand, context: Context, rejections: seq<Time>,
                             ids: set<string>, unanswered: seq<Time>)
    requires Inv(c, s) && CooldownsMatch(c, s, rejections, ids, unanswered)
    ensures var (t, r) := CommitUserRejection(c, s, command, context);
      && (forall x :: x in r.outcomes ==> x.kind == OutcomeKind.Rejected)
      && (CommitFault(c, command, context).Some? ==> CooldownsMatch(c, t, rejections, ids, unanswered))
      && (CommitFault(c, command, context).None? ==>
            CooldownsMatch(c, t, if command.id in ids then rejections else rejections + [command.occurredAt], ids + {command.id}, unanswered))
  {
    if CommitFault(c, command, context).None? {
      var e := RejectionOf(command);
      assert e.id == EventId(command.id, UserRejected) && e.id != "";
      FeedbackEndsOrKeeps(s.tracker, "", e);
      CooldownStep(s.world.rejection, rejections, c.rejectionCooldown, command.occurredAt);
      var t := CommitUserRejection(c, s, command, context).0;
      forall k: string ensures EventId(k, UserRejected) in t.tracker.feedback <==> k in ids + {command.id} {
        EventIdInjective(k, UserRejected, command.id, UserRejected);
      }
    }
  }

  // ---------------------------------------------------------------------------
  // Signals.

  /** The observations a run admitted. */
  function Heard(c: Config, inputs: seq<Input>): seq<Observation> {
    if inputs == [] then []
    else
      var before, i := inputs[..|inputs| - 1], Last(inputs);
      var heard := Heard(c, before);
      if Hears(c, Run(c, before), i) then heard + [i.observation] else heard
  }

  ghost predicate SignalsMatch(c: Config, s: EngineState, h: seq<Observation>) {
    && TimelineOf(s.subjects, c.subjectID) == TimelineAfter(h)
    && Shows(s.world, TimelineAfter(h))
    && ReasonOfRun(s.world, h)
  }

  /** The step admits its observation. */
  predicate Hears(c: Config, s: EngineState, i: Input) {
    && i.Observe? && i.processEnv.context.Live? && i.observation.subjectID == c.subjectID
    && AcceptFault(s.ingress, i.observation, i.processEnv.now).None?
  }

  lemma HeardStep(c: Config, s: EngineState, o: Observation, env: ProcessEnv, h: seq<Observation>)
    requires Inv(c, s) && SignalsMatch(c, s, h) && Hears(c, s, Observe(o, env))
    ensures SignalsMatch(c, Process(c, s, o, env).0, h + [o])
  {
    var t, line := Process(c, s, o, env).0, TimelineAfter(h);
    assert (h + [o])[..|h|] == h;
    ProcessEffects(c, s, o, env);
    ShowsStep(c.returnAbsenceThreshold, line, s.world, o, t.world);
    TimelineRefinesHistory(h);
    ReasonStep(line, s.world, h, o, t.world);
  }

  predicate SameSignals(v: WorldSnapshot, w: WorldSnapshot) {
    v.personPresent == w.personPresent && v.userBusy == w.userBusy && v.busyReason == w.busyReason && v.quietMode == w.quietMode
  }

  lemma UnheardEffects(c: Config, s: EngineState, i: Input)
    requires !Hears(c, s, i)
    ensures var t := Step(c, s, i).0; t.subjects == s.subjects && SameSignals(t.world, s.world)
  {
    match i
    case Observe(o, env) => assert Process(c, s, o, env).0 == s;
    case Wake(w, env) => AdvanceSignals(c, s, w, env);
    case Reject(command, context) => CommitSignals(c, s, command, context);
  }

  lemma AdvanceSignals(c: Config, s: EngineState, w: Wakeup, env: AdvanceEnv)
    ensures var t := AdvanceAt(c, s, w, env).0; t.subjects == s.subjects && SameSignals(t.world, s.world)
  {
  }

  lemma CommitSignals(c: Config, s: EngineState, command: ControlCommand, context: Context)
    ensures var t := CommitUserRejection(c, s, command, context).0; t.subjects == s.subjects && SameSignals(t.world, s.world)
  {
    assert RejectionOf(command).subjectID == command.subjectID;
  }

  lemma UnheardStep(c: Config, s: EngineState, h: seq<Observation>, t: EngineState)
    requires SignalsMatch(c, s, h) && t.subjects == s.subjects && SameSignals(t.world, s.world)
    ensures SignalsMatch(c, t, h)
  {
  }

  lemma {:induction false} SignalsFollowHistory(c: Config, inputs: seq<Input>)
    requires ValidConfig(c)
    ensures SignalsMatch(c, Run(c, inputs), Heard(c, inputs))
  {
    if inputs != [] {
      var before := inputs[..|inputs| - 1];
      SignalsFollowHistory(c, before);
      InitialInv(c);
      RunKeeps(c, Initial(c), before);
      if Hears(c, Run(c, before), Last(inputs)) {
        HeardStep(c, Run(c, before), Last(inputs).observation, Last(inputs).processEnv, Heard(c, before));
      } else {
        UnheardEffects(c, Run(c, before), Last(inputs));
        UnheardStep(c, Run(c, before), Heard(c, before), Run(c, inputs));
      }
    }
  }

  /** Although only transitions are projected, over every run the snapshot's
      presence, busy and quiet flags equal the last admitted observation of each
      kind, and the busy reason is the one that opened the current busy run. */
  lemma {:induction false} SnapshotFollowsObservations(c: Config, inputs: seq<Input>)
    requires ValidConfig(c)
    ensures var w, h := Run(c, inputs).world, Heard(c, inputs);
      && (w.personPresent <==> LastValue(h, Presence, true))
      && (w.userBusy <==> LastValue(h, Busy, true))
      && (w.quietMode <==> LastValue(h, Quiet, true))
      && ReasonOfRun(w, h)
  {
    SignalsFollowHistory(c, inputs);
    TimelineRefinesHistory(Heard(c, inputs));
    SnapshotIsLastObserved(Run(c, inputs).world, TimelineAfter(Heard(c, inputs)), Heard(c, inputs));
  }

  /** A run greets only after a long absence: every plan answers an observation of
      presence that follows a maximal absent run at least the threshold old. */
  lemma {:induction false} GreetsOnlyAfterLongAbsence(c: Config, inputs: seq<Input>, o: Observation, env: ProcessEnv)
    requires ValidConfig(c) && Process(c, Run(c, inputs), o, env).1.plans != []
    ensures exists i :: CurrentRun(Heard(c, inputs), Presence, false, i) &&
                        o.occurredAt - Heard(c, inputs)[i].occurredAt >= c.returnAbsenceThreshold
  {
    SignalsFollowHistory(c, inputs);
    ReturnedExactlyAfterLongAbsence(c.returnAbsenceThreshold, Heard(c, inputs), o);
    var t := TimelineAfter(Heard(c, inputs));
    PlansNeedReturn(c, Run(c, inputs), o, env);
    var age :| Transition(c.returnAbsenceThreshold, t, o) == Some((PersonReturned, age));
  }

  lemma PlansNeedReturn(c: Config, s: EngineState, o: Observation, env: ProcessEnv)
    requires Process(c, s, o, env).1.plans != []
    ensures o.subjectID == c.subjectID
    ensures exists age :: Transition(c.returnAbsenceThreshold, TimelineOf(s.subjects, o.subjectID), o) == Some((PersonReturned, age))
  {
    var change := Transition(c.returnAbsenceThreshold, TimelineOf(s.subjects, o.subjectID), o);
    assert change == Some((PersonReturned, change.value.1));
  }
}
