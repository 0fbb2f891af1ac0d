/** Which commands the engine hands to the driver over a run: those of the plan that
    started the episode, the part before the wait when it greets and the part after the
    wait when the episode is answered or times out. */
module EngineContinuations {
  import opened Prelude
  import opened Ids
  import opened Observations
  import opened Events
  import opened World
  import opened Decisions
  import opened Behaviors
  import opened Episodes
  import opened Dispatch
  import opened Engines
  import opened EngineInvariant
  import opened EngineRuns

  /** The commands were handed over in order, all of them if every reply was clean, and
      otherwise up to and including the first with an unclean reply. */
  ghost predicate RanAsFar(executed: seq<ActionCommand>, commands: seq<ActionCommand>, replies: seq<Reply>) {
    && |executed| <= |commands| && executed == commands[..|executed|]
    && if AllClean(replies, |commands|) then |executed| == |commands|
       else |executed| > 0 && AllClean(replies, |executed| - 1) && !Clean(ReplyTo(replies, |executed| - 1))
  }

  lemma DispatchRunsAsFar(r: StepReport, commands: seq<ActionCommand>, replies: seq<Reply>)
    ensures RanAsFar(WithDispatch(r, commands, replies).executed, commands, replies)
    ensures WithDispatch(r, commands, replies).fault.None? ==> WithDispatch(r, commands, replies).executed == commands
  {
    DispatchSucceedsIff(replies, |commands|);
  }

  // ---------------------------------------------------------------------------
  // A plan's two parts.

  /** The plan's own commands before and after its wait, dispatched at a time. */
  ghost predicate Parts(plan: BehaviorPlan, at: Time, before: seq<ActionCommand>, after: seq<ActionCommand>) {
    && PhasesOf(plan).Ok?
    && before + after == PlanCommands(plan, at)
    && |before| == |PhasesOf(plan).value.before.actions| && |after| == |PhasesOf(plan).value.after.actions|
    && exists w :: ActsBefore(plan, w, |before|)
  }

  /** Child w of the root is the wait, and n actions come before it. */
  predicate ActsBefore(plan: BehaviorPlan, w: int, n: nat) {
    WaitAt(plan.root.children, w) && n == |AllActions(plan.root.children[..w])|
  }

  lemma PhasesAreParts(plan: BehaviorPlan, at: Time)
    requires PhasesOf(plan).Ok?
    ensures Parts(plan, at, Commands(PhasesOf(plan).value.before, at), Commands(PhasesOf(plan).value.after, at))
  {
    var w := FirstWait(plan.root.children);
    SplitPreservesMeaning(plan, w, at);
    assert ActsBefore(plan, w, |Commands(PhasesOf(plan).value.before, at)|);
  }

  // ---------------------------------------------------------------------------
  // One step.

  lemma GreetRuns(s: EngineState, r: StepReport, d: Decision, e: SemanticEvent, plan: BehaviorPlan, phases: UserReplyPhases, env: ProcessEnv)
    requires Greet(s, r, d, e, plan, phases, env).1.plans != [] && r.plans == [] && plan.interactionID == d.interactionID
    ensures var (t, q) := Greet(s, r, d, e, plan, phases, env);
      && q.plans == [plan] && RanAsFar(q.executed, Commands(phases.before, env.dispatchAt), env.replies)
      && (t.pending.Some? ==>
            && q.executed == Commands(phases.before, env.dispatchAt)
            && t.pending.value.after == phases.after && t.pending.value.episodeID == EpisodeId(plan.interactionID))
  {
    DispatchRunsAsFar(r.(plans := [plan]), Commands(phases.before, env.dispatchAt), env.replies);
  }

  /** What a step that plans hands over and keeps for later. */
  ghost predicate Greeted(t: EngineState, q: StepReport, env: ProcessEnv) {
    && |q.plans| == 1 && PhasesOf(q.plans[0]).Ok?
    && var phases := PhasesOf(q.plans[0]).value;
    && RanAsFar(q.executed, Commands(phases.before, env.dispatchAt), env.replies)
    && (t.pending.Some? ==>
          && q.executed == Commands(phases.before, env.dispatchAt)
          && t.pending.value.after == phases.after && t.pending.value.episodeID == EpisodeId(q.plans[0].interactionID))
  }

  lemma AnswerRuns(c: Config, s: EngineState, e: SemanticEvent, evaluated: Result<Option<Decision>>, env: ProcessEnv)
    requires Answer(c, s, e, evaluated, env).1.plans != []
    ensures Greeted(Answer(c, s, e, evaluated, env).0, Answer(c, s, e, evaluated, env).1, env)
  {
    var d := evaluated.value.value;
    var p := Prepare(d, env.capabilities, c.actionTimeout);
    PreparedSplits(d, env.capabilities, c.actionTimeout);
    PreparedInteraction(d, env.capabilities, c.actionTimeout);
    GreetRuns(s, NOTHING.(events := [e], decisions := [d]), d, e, p.value.plan, p.value.phases, env);
  }

  lemma ProcessGreetingRuns(c: Config, s: EngineState, o: Observation, env: ProcessEnv)
    requires Process(c, s, o, env).1.plans != []
    ensures Greeted(Process(c, s, o, env).0, Process(c, s, o, env).1, env)
  {
    var seen, e := PlansComeFromAnswers(c, s, o, env);
    AnswerRuns(c, seen, e, Evaluate(seen.world, e, c.configHash), env);
  }

  /** What ends an episode, or does nothing, hands over the kept continuation or nothing. */
  ghost predicate Continued(s: EngineState, t: EngineState, r: StepReport, at: Time, replies: seq<Reply>) {
    && (t.pending.Some? ==> t.pending == s.pending)
    && if r.outcomes != [] && r.outcomes[0].kind != OutcomeKind.Rejected
       then s.pending.Some? && RanAsFar(r.executed, Commands(s.pending.value.after, at), replies)
       else r.executed == []
  }

  lemma AcceptReplyRuns(s: EngineState, e: SemanticEvent, env: ProcessEnv)
    ensures Continued(s, AcceptReply(s, e, env).0, AcceptReply(s, e, env).1, env.dispatchAt, env.replies)
  {
    AcceptReplyEffects(s, e, env);
    if s.pending.Some? {
      DispatchRunsAsFar(NOTHING, Commands(s.pending.value.after, env.dispatchAt), env.replies);
    }
  }

  lemma UnplannedAnswerRuns(c: Config, s: EngineState, e: SemanticEvent, evaluated: Result<Option<Decision>>, env: ProcessEnv)
    requires Answer(c, s, e, evaluated, env).1.plans == []
    ensures Continued(s, Answer(c, s, e, evaluated, env).0, Answer(c, s, e, evaluated, env).1, env.dispatchAt, env.replies)
  {
  }

  lemma ProcessOtherwiseRuns(c: Config, s: EngineState, o: Observation, env: ProcessEnv)
    requires Process(c, s, o, env).1.plans == []
    ensures Continued(s, Process(c, s, o, env).0, Process(c, s, o, env).1, env.dispatchAt, env.replies)
  {
    if Hears(c, s, Observe(o, env)) {
      var line := TimelineOf(s.subjects, o.subjectID);
      var heard := s.(ingress := Admit(s.ingress, o), subjects := s.subjects[o.subjectID := NextTimeline(line, o)]);
      var change := Transition(c.returnAbsenceThreshold, line, o);
      if change.Some? {
        var e := TransitionEvent(o, change.value);
        if e.kind == UserReplied {
          AcceptReplyRuns(heard, e, env);
        } else {
          var world := Projected(s.world, e);
          UnplannedAnswerRuns(c, heard.(world := world), e, Evaluate(world, e, c.configHash), env);
        }
      }
    }
  }

  lemma AdvanceRuns(c: Config, s: EngineState, w: Wakeup, env: AdvanceEnv)
    requires Inv(c, s)
    ensures Continued(s, AdvanceAt(c, s, w, env).0, AdvanceAt(c, s, w, env).1, env.dispatchAt, env.replies)
  {
    WakeupEndsEpisodeIff(c, s, w, env);
    if Consumes(s, w, env) {
      DispatchRunsAsFar(NOTHING, Commands(s.pending.value.after, env.dispatchAt), env.replies);
    }
  }

  lemma CommitRuns(c: Config, s: EngineState, command: ControlCommand, context: Context)
    requires Inv(c, s)
    ensures Continued(s, CommitUserRejection(c, s, command, context).0, CommitUserRejection(c, s, command, context).1, 0, [])
  {
    FeedbackEndsOrKeeps(s.tracker, "", RejectionOf(command));
  }

  // ---------------------------------------------------------------------------
  // Whole runs.

  /** When an input's commands are dispatched, and how they are answered. */
  function DispatchTime(i: Input): Time {
    match i case Observe(_, env) => env.dispatchAt case Wake(_, env) => env.dispatchAt case Reject(_, _) => 0
  }

  function Replies(i: Input): seq<Reply> {
    match i case Observe(_, env) => env.replies case Wake(_, env) => env.replies case Reject(_, _) => []
  }

  lemma StepRuns(c: Config, s: EngineState, i: Input)
    requires Inv(c, s)
    ensures var (t, r) := Step(c, s, i);
      if r.plans != [] then i.Observe? && Greeted(t, r, i.processEnv) else Continued(s, t, r, DispatchTime(i), Replies(i))
  {
    match i
    case Observe(o, env) =>
      if Process(c, s, o, env).1.plans != [] {
        ProcessGreetingRuns(c, s, o, env);
      } else {
        ProcessOtherwiseRuns(c, s, o, env);
      }
    case Wake(w, env) =>
      OthersNeverPlan(c, s, i);
      AdvanceRuns(c, s, w, env);
    case Reject(command, context) =>
      OthersNeverPlan(c, s, i);
      CommitRuns(c, s, command, context);
  }

  lemma {:induction false} ReportPerInput(c: Config, inputs: seq<Input>)
    ensures |Reports(c, inputs)| == |inputs|
  {
    if inputs != [] {
      ReportPerInput(c, inputs[..|inputs| - 1]);
    }
  }

  /** The pending reply was opened by input g: by its plan, whose commands before the wait
      were all handed over then, and whose phase after the wait is what is kept. */
  ghost predicate OpenedBy(c: Config, inputs: seq<Input>, g: nat, p: PendingReply) {
    && g < |inputs| && g < |Reports(c, inputs)| && inputs[g].Observe?
    && var r := Reports(c, inputs)[g];
    && |r.plans| == 1 && PhasesOf(r.plans[0]).Ok?
    && r.executed == Commands(PhasesOf(r.plans[0]).value.before, inputs[g].processEnv.dispatchAt)
    && p.after == PhasesOf(r.plans[0]).value.after && p.episodeID == EpisodeId(r.plans[0].interactionID)
  }

  lemma {:induction false} OpenedEarlier(c: Config, inputs: seq<Input>, g: nat, p: PendingReply)
    requires inputs != [] && OpenedBy(c, inputs[..|inputs| - 1], g, p)
    ensures OpenedBy(c, inputs, g, p)
  {
  }

  /** Over every run, while a window is open its continuation is the phase after the wait
      of the very plan that started the active episode. */
  lemma {:induction false} PendingFollowsPlan(c: Config, inputs: seq<Input>)
    requires ValidConfig(c)
    ensures Run(c, inputs).pending.Some? ==> exists g :: OpenedBy(c, inputs, g, Run(c, inputs).pending.value)
  {
    if inputs != [] {
      var before, i := inputs[..|inputs| - 1], Last(inputs);
      PendingFollowsPlan(c, before);
      InitialInv(c);
      RunKeeps(c, Initial(c), before);
      StepRuns(c, Run(c, before), i);
      ReportPerInput(c, before);
      PendingMoves(c, before, inputs, Run(c, before), Step(c, Run(c, before), i).0, Step(c, Run(c, before), i).1);
    }
  }

  lemma {:induction false} PendingMoves(c: Config, before: seq<Input>, inputs: seq<Input>, s: EngineState, t: EngineState, r: StepReport)
    requires inputs != [] && before == inputs[..|inputs| - 1] && |Reports(c, inputs)| == |inputs| && Last(Reports(c, inputs)) == r
    requires s.pending.Some? ==> exists g :: OpenedBy(c, before, g, s.pending.value)
    requires if r.plans != [] then Last(inputs).Observe? && Greeted(t, r, Last(inputs).processEnv)
             else Continued(s, t, r, DispatchTime(Last(inputs)), Replies(Last(inputs)))
    ensures t.pending.Some? ==> exists g :: OpenedBy(c, inputs, g, t.pending.value)
  {
    if t.pending.Some? {
      if r.plans != [] {
        assert OpenedBy(c, inputs, |inputs| - 1, t.pending.value);
      } else {
        var g :| OpenedBy(c, before, g, s.pending.value);
        OpenedEarlier(c, inputs, g, s.pending.value);
      }
    }
  }

  /** Input g started the episode with this plan, and handed over all its commands before
      the wait. */
  ghost predicate Began(c: Config, inputs: seq<Input>, g: nat, plan: BehaviorPlan, before: seq<ActionCommand>) {
    g < |inputs| && g < |Reports(c, inputs)| && inputs[g].Observe? && Reports(c, inputs)[g].plans == [plan] && Reports(c, inputs)[g].executed == before
  }

  /** Over every run, an input that ends an episode with ACCEPTED or NO_RESPONSE hands over
      the commands of the rest of that episode's own plan: what the greeting handed over,
      then these, are the whole plan's commands with their ids, each part with the
      deadlines of its own dispatch. */
  lemma {:induction false} EndingRunsTheRest(c: Config, inputs: seq<Input>, i: Input) returns (g: nat, plan: BehaviorPlan, w: int, n: nat)
    requires ValidConfig(c)
    requires var r := Step(c, Run(c, inputs), i).1; r.outcomes != [] && r.outcomes[0].kind != OutcomeKind.Rejected
    ensures var r := Step(c, Run(c, inputs), i).1;
      && EpisodeId(plan.interactionID) == r.outcomes[0].episodeID
      && ActsBefore(plan, w, n) && n <= |Actions(plan.root)|
      && g < |inputs| && inputs[g].Observe?
      && Began(c, inputs, g, plan, PlanCommands(plan, inputs[g].processEnv.dispatchAt)[..n])
      && RanAsFar(r.executed, PlanCommands(plan, DispatchTime(i))[n..], Replies(i))
  {
    var s := Run(c, inputs);
    InitialInv(c);
    RunKeeps(c, Initial(c), inputs);
    StepKeeps(c, s, i);
    StepRuns(c, s, i);
    PendingFollowsPlan(c, inputs);
    g, plan, w, n := RestOfPlan(c, inputs, s.pending.value, DispatchTime(i));
  }

  lemma {:induction false} RestOfPlan(c: Config, inputs: seq<Input>, p: PendingReply, at: Time) returns (g: nat, plan: BehaviorPlan, w: int, n: nat)
    requires exists g :: OpenedBy(c, inputs, g, p)
    ensures EpisodeId(plan.interactionID) == p.episodeID && ActsBefore(plan, w, n) && n <= |Actions(plan.root)|
    ensures g < |inputs| && inputs[g].Observe?
    ensures Began(c, inputs, g, plan, PlanCommands(plan, inputs[g].processEnv.dispatchAt)[..n])
    ensures Commands(p.after, at) == PlanCommands(plan, at)[n..]
  {
    g :| OpenedBy(c, inputs, g, p);
    plan := Reports(c, inputs)[g].plans[0];
    n := |PhasesOf(plan).value.before.actions|;
    PhasesAreParts(plan, inputs[g].processEnv.dispatchAt);
    PhasesAreParts(plan, at);
    w :| ActsBefore(plan, w, n);
  }

  /** And an input that starts one hands over the commands before the wait of its plan, as
      far as the replies allow; every other input hands over nothing. */
  lemma {:induction false} GreetingRunsTheStart(c: Config, inputs: seq<Input>, i: Input)
    requires ValidConfig(c)
    ensures var r := Step(c, Run(c, inputs), i).1;
      if r.plans != [] then
        && |r.plans| == 1 && PhasesOf(r.plans[0]).Ok?
        && var n := |PhasesOf(r.plans[0]).value.before.actions|;
        && n <= |PlanCommands(r.plans[0], DispatchTime(i))| && (exists w :: ActsBefore(r.plans[0], w, n))
        && RanAsFar(r.executed, PlanCommands(r.plans[0], DispatchTime(i))[..n], Replies(i))
      else r.outcomes == [] || r.outcomes[0].kind == OutcomeKind.Rejected ==> r.executed == []
  {
    InitialInv(c);
    RunKeeps(c, Initial(c), inputs);
    StepRuns(c, Run(c, inputs), i);
    var r := Step(c, Run(c, inputs), i).1;
    if r.plans != [] {
      PhasesAreParts(r.plans[0], DispatchTime(i));
    }
  }
}
