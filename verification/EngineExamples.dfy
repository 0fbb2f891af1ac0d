/** Concrete runs of the engine. Each shows that something one might expect does not
    hold, or that a theorem's premises can be met. */
module EngineExamples {
  import opened Prelude
  import opened Ids
  import opened Observations
  import opened Events
  import opened World
  import opened Decisions
  import opened Behaviors
  import opened Episodes
  import opened Dispatch
  import opened Engines
  import opened EngineInvariant
  import opened EngineRuns
  import opened EngineGreetings

  const HOME := Config("user-1", 60, 50, 50, 5, "hash")

  const WAIT := REPLY_WAIT

  const NEVER := Cooldown(UNSET, UNSET)

  /** Observations of the one subject, valid for a long time. */
  function Seen(id: string, n: nat, at: Time): Observation {
    Observation(id, "camera", n, at, 100000, "user-1", 1.0, "trace", None, None, None, false)
  }

  function Absent(id: string, n: nat, at: Time): Observation { Seen(id, n, at).(personPresence := Some(false)) }
  function Present(id: string, n: nat, at: Time): Observation { Seen(id, n, at).(personPresence := Some(true)) }
  function BusyWith(id: string, n: nat, at: Time, reason: string): Observation { Seen(id, n, at).(userBusy := Some(UserBusy(true, reason))) }

  const NODS: Capabilities := map[Acknowledge := Capability(true, true)]

  /** A live call at one time, to a driver that can only acknowledge. */
  function At(now: Time, replies: seq<Reply>): ProcessEnv { ProcessEnv(Live, now, Some(NODS), now, replies, now) }

  const DONE := Stream([ActionStatus("", "", "", Completed, 1, "")], Closed)

  function Rejection(id: string, at: Time): ControlCommand { ControlCommand(id, UserRejectedStop, "user-1", at, "trace") }

  /** One more input. */
  lemma {:induction false} Extended(inputs: seq<Input>, i: Input) returns (more: seq<Input>)
    ensures more == inputs + [i] && Inv(HOME, Run(HOME, inputs)) && Inv(HOME, Run(HOME, more))
    ensures Run(HOME, more) == Step(HOME, Run(HOME, inputs), i).0
    ensures Reports(HOME, more) == Reports(HOME, inputs) + [Step(HOME, Run(HOME, inputs), i).1]
    ensures Outcomes(Reports(HOME, more)) == Outcomes(Reports(HOME, inputs)) + Step(HOME, Run(HOME, inputs), i).1.outcomes
    ensures Heard(HOME, more) == if Hears(HOME, Run(HOME, inputs), i) then Heard(HOME, inputs) + [i.observation] else Heard(HOME, inputs)
    ensures !i.Reject? ==> RejectionTimes(HOME, more) == RejectionTimes(HOME, inputs) && RejectionIds(HOME, more) == RejectionIds(HOME, inputs)
  {
    more := inputs + [i];
    assert more[..|inputs|] == inputs;
    var reports := Reports(HOME, inputs);
    assert (reports + [Step(HOME, Run(HOME, inputs), i).1])[..|reports|] == reports;
    Reachable(inputs);
    Reachable(more);
  }

  lemma Reachable(inputs: seq<Input>)
    ensures Inv(HOME, Run(HOME, inputs))
  {
    InitialInv(HOME);
    RunKeeps(HOME, Initial(HOME), inputs);
  }

  lemma {:induction false} Empty() returns (inputs: seq<Input>)
    ensures inputs == [] && Run(HOME, inputs) == Initial(HOME) && Outcomes(Reports(HOME, inputs)) == [] && Heard(HOME, inputs) == []
    ensures RejectionTimes(HOME, inputs) == [] && RejectionIds(HOME, inputs) == {}
  {
    inputs := [];
  }

  // ---------------------------------------------------------------------------
  // One observation at a time.

  /** The part of a state that decides about the next return. */
  ghost predicate Away(s: EngineState, since: Time, seen: set<string>, last: nat) {
    && TimelineOf(s.subjects, "user-1").presenceKnown && !TimelineOf(s.subjects, "user-1").present
    && TimelineOf(s.subjects, "user-1").absentSince == since
    && s.ingress.seenIDs == seen && (s.ingress.lastSeq == map["camera" := last])
    && !s.world.quietMode && !s.world.userBusy && s.tracker.active.None?
  }

  lemma LeavesHome(at: Time)
    requires at > 0
    ensures var s := Step(HOME, Initial(HOME), Observe(Absent("o1", 1, at), At(at, []))).0;
      Away(s, at, {"o1"}, 1) && s.world.rejection == NEVER && s.world.noResponse == NEVER
    ensures Step(HOME, Initial(HOME), Observe(Absent("o1", 1, at), At(at, []))).1.outcomes == []
  {
    var o := Absent("o1", 1, at);
    var s := Initial(HOME);
    assert AcceptFault(s.ingress, o, at).None?;
    assert Transition(HOME.returnAbsenceThreshold, TimelineOf(s.subjects, "user-1"), o) == Some((PersonLeft, 0));
  }

  /** From there, a return that no cooldown guards starts an episode. */
  lemma ComesHome(s: EngineState, since: Time, seen: set<string>, last: nat, id: string, at: Time, now: Time, replies: seq<Reply>)
    requires Inv(HOME, s) && Away(s, since, seen, last) && since > 0 && at - since >= 60 && at <= now <= at + 100000
    requires id != "" && id !in seen && Unguarded(s.world, at)
    ensures Process(HOME, s, Present(id, last + 1, at), At(now, replies)).1.plans != []
    ensures Greeting(Process(HOME, s, Present(id, last + 1, at), At(now, replies)).1)
  {
    var o, env := Present(id, last + 1, at), At(now, replies);
    assert AcceptFault(s.ingress, o, now).None?;
    assert Transition(HOME.returnAbsenceThreshold, TimelineOf(s.subjects, o.subjectID), o) == Some((PersonReturned, at - since));
    assert Returns(HOME, s, o, env);
    StartsEpisodeIff(HOME, s, o, env);
    ProcessGreetsIff(HOME, s, o, env);
  }

  // ---------------------------------------------------------------------------
  // An episode without a window.

  /** Absence at 50. */
  lemma {:induction false} Leaving() returns (inputs: seq<Input>)
    ensures Inv(HOME, Run(HOME, inputs)) && Away(Run(HOME, inputs), 50, {"o1"}, 1)
    ensures Run(HOME, inputs).world.rejection == NEVER && Run(HOME, inputs).world.noResponse == NEVER
    ensures RejectionTimes(HOME, inputs) == [] && RejectionIds(HOME, inputs) == {} && Outcomes(Reports(HOME, inputs)) == []
  {
    inputs := Empty();
    LeavesHome(50);
    inputs := Extended(inputs, Observe(Absent("o1", 1, 50), At(50, [])));
  }

  /** A return that is planned: what the theorems about plans speak of does happen. */
  lemma ReturnIsPlanned() returns (inputs: seq<Input>, o: Observation, env: ProcessEnv)
    ensures ValidConfig(HOME) && Inv(HOME, Run(HOME, inputs)) && Process(HOME, Run(HOME, inputs), o, env).1.plans != []
  {
    inputs := Leaving();
    o, env := Present("o2", 2, 120), At(120, []);
    ComesHome(Run(HOME, inputs), 50, {"o1"}, 1, "o2", 120, 120, []);
  }

  /** "Active exactly while a window is open" fails: absence at 50, a return at 120 and
      a driver that refuses the first command leave an active episode with no window. */
  lemma EpisodeWithoutWindow() returns (inputs: seq<Input>)
    ensures Run(HOME, inputs).tracker.active.Some? && Run(HOME, inputs).tracker.window.None? && Run(HOME, inputs).pending.None?
  {
    inputs := Leaving();
    var s := Run(HOME, inputs);
    var i := Observe(Present("o2", 2, 120), At(120, [ExecuteFailed]));
    ComesHome(s, 50, {"o1"}, 1, "o2", 120, 120, [ExecuteFailed]);
    WindowOpensIff(HOME, s, i.observation, i.processEnv);
    FirstReplyCounts(s, i);
    inputs := Extended(inputs, i);
  }

  /** A plan always has a command before its wait, so the first reply must be clean. */
  lemma FirstReplyCounts(s: EngineState, i: Input)
    requires i.Observe? && Process(HOME, s, i.observation, i.processEnv).1.plans != []
    requires i.processEnv.replies == [ExecuteFailed] && PhasesOf(Process(HOME, s, i.observation, i.processEnv).1.plans[0]).Ok?
    ensures !AllClean(i.processEnv.replies, |PhasesOf(Process(HOME, s, i.observation, i.processEnv).1.plans[0]).value.before.actions|)
  {
    var seen, e := PlansComeFromAnswers(HOME, s, i.observation, i.processEnv);
    var d := Evaluate(seen.world, e, HOME.configHash).value.value;
    var p := Prepare(d, i.processEnv.capabilities, HOME.actionTimeout);
    AnswerPlansPrepared(seen, e, d, i.processEnv);
    PreparedActs(d, i.processEnv.capabilities, HOME.actionTimeout);
    assert !Clean(ReplyTo(i.processEnv.replies, 0));
  }

  lemma AnswerPlansPrepared(s: EngineState, e: SemanticEvent, d: Decision, env: ProcessEnv)
    requires Answer(HOME, s, e, Ok(Some(d)), env).1.plans != []
    ensures Prepare(d, env.capabilities, HOME.actionTimeout).Ok?
    ensures Answer(HOME, s, e, Ok(Some(d)), env).1.plans == [Prepare(d, env.capabilities, HOME.actionTimeout).value.plan]
  {
  }

  lemma PreparedActs(d: Decision, capabilities: Option<Capabilities>, actionTimeout: int)
    requires Prepare(d, capabilities, actionTimeout).Ok?
    ensures var p := Prepare(d, capabilities, actionTimeout).value;
      PhasesOf(p.plan) == Ok(p.phases) && p.phases.before.actions != []
  {
    var w := PlannedPlansSplit(d, capabilities.value, actionTimeout);
    SplitIsUnique(Prepare(d, capabilities, actionTimeout).value.plan, w);
  }

  // ---------------------------------------------------------------------------
  // Replaced cooldowns and kept reasons.

  lemma RejectsAt(s: EngineState, since: Time, seen: set<string>, last: nat, id: string, at: Time)
    requires Inv(HOME, s) && Away(s, since, seen, last) && id != "" && at != UNSET
    requires EventId(id, UserRejected) !in s.tracker.feedback && Supersedes(s.world.rejection, at)
    ensures var t := Step(HOME, s, Reject(Rejection(id, at), Live)).0;
      && Away(t, since, seen, last)
      && t.world.rejection == Cooldown(at, at + 50) && t.world.noResponse == s.world.noResponse
      && t.tracker.feedback == s.tracker.feedback + {EventId(id, UserRejected)}
  {
    assert EventId(id, UserRejected) != "";
  }

  lemma {:induction false} Rejecting(inputs: seq<Input>, since: Time, seen: set<string>, last: nat, id: string, at: Time) returns (more: seq<Input>)
    requires Away(Run(HOME, inputs), since, seen, last) && id != "" && at != UNSET
    requires id !in RejectionIds(HOME, inputs) && Supersedes(Run(HOME, inputs).world.rejection, at)
    ensures Inv(HOME, Run(HOME, more)) && Away(Run(HOME, more), since, seen, last)
    ensures Run(HOME, more).world.rejection == Cooldown(at, at + 50) && Run(HOME, more).world.noResponse == Run(HOME, inputs).world.noResponse
    ensures RejectionTimes(HOME, more) == RejectionTimes(HOME, inputs) + [at] && RejectionIds(HOME, more) == RejectionIds(HOME, inputs) + {id}
  {
    var i := Reject(Rejection(id, at), Live);
    CooldownsFollowLatestFact(HOME, inputs);
    more := Extended(inputs, i);
    assert more[..|inputs|] == inputs;
    RejectsAt(Run(HOME, inputs), since, seen, last, id, at);
  }

  lemma {:induction false} RejectedOnce() returns (inputs: seq<Input>)
    ensures Away(Run(HOME, inputs), 50, {"o1"}, 1) && RejectionTimes(HOME, inputs) == [100] && RejectionIds(HOME, inputs) == {"k1"}
    ensures Run(HOME, inputs).world.rejection == Cooldown(100, 150) && Run(HOME, inputs).world.noResponse == NEVER
  {
    inputs := Leaving();
    inputs := Rejecting(inputs, 50, {"o1"}, 1, "k1", 100);
  }

  lemma {:induction false} RejectedTwice() returns (inputs: seq<Input>)
    ensures Inv(HOME, Run(HOME, inputs)) && Away(Run(HOME, inputs), 50, {"o1"}, 1) && RejectionTimes(HOME, inputs) == [100, 140]
    ensures Run(HOME, inputs).world.rejection == Cooldown(140, 190) && Run(HOME, inputs).world.noResponse == NEVER
  {
    inputs := RejectedOnce();
    inputs := Rejecting(inputs, 50, {"o1"}, 1, "k2", 140);
  }

  /** "No greeting within a rejection's cooldown" fails: after rejections at 100 and 140,
      a return at 120 greets although it lies within fifty of the first. */
  lemma {:induction false} GreetsWithinReplacedCooldown() returns (inputs: seq<Input>, o: Observation, env: ProcessEnv)
    ensures RejectionTimes(HOME, inputs) == [100, 140] && HOME.rejectionCooldown == 50
    ensures o.occurredAt == 120 && Greeting(Process(HOME, Run(HOME, inputs), o, env).1)
  {
    inputs := RejectedTwice();
    o, env := Present("o2", 2, 120), At(145, []);
    ComesHome(Run(HOME, inputs), 50, {"o1"}, 1, "o2", 120, 145, []);
  }

  lemma {:induction false} Hearing(inputs: seq<Input>, o: Observation, at: Time) returns (more: seq<Input>)
    requires AcceptFault(Run(HOME, inputs).ingress, o, at).None? && o.subjectID == "user-1"
    ensures Heard(HOME, more) == Heard(HOME, inputs) + [o] && Run(HOME, more).ingress == Admit(Run(HOME, inputs).ingress, o)
  {
    var i := Observe(o, At(at, []));
    more := Extended(inputs, i);
    AdmittedByProcess(Run(HOME, inputs), o, At(at, []));
  }

  /** "The busy reason is the latest reported" fails: on a call at 10 and in a meeting at
      20, the snapshot still says on a call. */
  lemma {:induction false} BusyReasonIsTheFirst() returns (inputs: seq<Input>)
    ensures |Heard(HOME, inputs)| == 2 && Heard(HOME, inputs)[1].userBusy == Some(UserBusy(true, "MEETING"))
    ensures Run(HOME, inputs).world.userBusy && Run(HOME, inputs).world.busyReason == "ON_CALL"
  {
    var call, meeting := BusyWith("o1", 1, 10, "ON_CALL"), BusyWith("o2", 2, 20, "MEETING");
    inputs := Empty();
    inputs := Hearing(inputs, call, 10);
    inputs := Hearing(inputs, meeting, 20);
    SnapshotFollowsObservations(HOME, inputs);
    var h := Heard(HOME, inputs);
    assert Busy(h[0]) == Some(true) && Busy(h[1]) == Some(true);
    assert CurrentRun(h, Busy, true, 0) && LastValue(h, Busy, true);
  }

  /** Whatever else it does, processing a heard observation admits it. */
  lemma AdmittedByProcess(s: EngineState, o: Observation, env: ProcessEnv)
    requires Hears(HOME, s, Observe(o, env))
    ensures Process(HOME, s, o, env).0.ingress == Admit(s.ingress, o)
  {
  }

  // ---------------------------------------------------------------------------
  // Two episodes, one after the other.

  /** At home, with the window of an episode open until a deadline. */
  ghost predicate Greeted(s: EngineState, seen: set<string>, last: nat, deadline: Time) {
    && TimelineOf(s.subjects, "user-1").presenceKnown && TimelineOf(s.subjects, "user-1").present
    && s.ingress.seenIDs == seen && s.ingress.lastSeq == map["camera" := last]
    && !s.world.quietMode && !s.world.userBusy
    && s.pending.Some? && s.pending.value.wakeup.deadline == deadline
  }

  /** Enough clean replies open the window. */
  lemma CleanReplies(s: EngineState, since: Time, seen: set<string>, last: nat, id: string, at: Time) returns (replies: seq<Reply>)
    requires Inv(HOME, s) && Away(s, since, seen, last) && since > 0 && at - since >= 60
    requires id != "" && id !in seen && Unguarded(s.world, at)
    ensures Process(HOME, s, Present(id, last + 1, at), At(at, replies)).1.plans != []
    ensures Process(HOME, s, Present(id, last + 1, at), At(at, replies)).0.pending.Some?
  {
    var o := Present(id, last + 1, at);
    ComesHome(s, since, seen, last, id, at, at, []);
    WindowOpensIff(HOME, s, o, At(at, []));
    replies := seq(|PhasesOf(Process(HOME, s, o, At(at, [])).1.plans[0]).value.before.actions|, k => DONE);
    ComesHome(s, since, seen, last, id, at, at, replies);
    SamePlan(s, o, at, [], replies);
    WindowOpensIff(HOME, s, o, At(at, replies));
    assert Clean(DONE);
  }

  lemma GreetedHome(s: EngineState, since: Time, seen: set<string>, last: nat, id: string, at: Time) returns (i: Input)
    requires Inv(HOME, s) && Away(s, since, seen, last) && since > 0 && at - since >= 60
    requires id != "" && id !in seen && Unguarded(s.world, at)
    ensures i.Observe? && i.observation == Present(id, last + 1, at) && i.processEnv == At(at, i.processEnv.replies)
    ensures Step(HOME, s, i).1.plans != [] && Step(HOME, s, i).1.outcomes == []
    ensures Greeted(Step(HOME, s, i).0, seen + {id}, last + 1, at + REPLY_WAIT)
  {
    var o := Present(id, last + 1, at);
    var replies := CleanReplies(s, since, seen, last, id, at);
    i := Observe(o, At(at, replies));
    ProcessKeeps(HOME, s, o, At(at, replies));
    GreetedFacts(s, since, seen, last, id, at, replies);
  }

  lemma GreetedFacts(s: EngineState, since: Time, seen: set<string>, last: nat, id: string, at: Time, replies: seq<Reply>)
    requires Inv(HOME, s) && Away(s, since, seen, last) && at - since >= 60 && since > 0 && id != "" && id !in seen
    requires Process(HOME, s, Present(id, last + 1, at), At(at, replies)).1.plans != []
    requires Process(HOME, s, Present(id, last + 1, at), At(at, replies)).0.pending.Some?
    ensures Greeted(Process(HOME, s, Present(id, last + 1, at), At(at, replies)).0, seen + {id}, last + 1, at + REPLY_WAIT)
  {
    var o := Present(id, last + 1, at);
    assert AcceptFault(s.ingress, o, at).None?;
    ProcessEffects(HOME, s, o, At(at, replies));
    AdmittedByProcess(s, o, At(at, replies));
    DeadlineIs(s, o, at, replies);
  }

  /** The plan does not depend on the replies to come. */
  lemma SamePlan(s: EngineState, o: Observation, at: Time, replies: seq<Reply>, others: seq<Reply>)
    requires Process(HOME, s, o, At(at, replies)).1.plans != [] && Process(HOME, s, o, At(at, others)).1.plans != []
    ensures Process(HOME, s, o, At(at, replies)).1.plans == Process(HOME, s, o, At(at, others)).1.plans
  {
    var seen, e := PlansComeFromAnswers(HOME, s, o, At(at, replies));
    var seen', e' := PlansComeFromAnswers(HOME, s, o, At(at, others));
    AnswerPlansPrepared(seen, e, Evaluate(seen.world, e, HOME.configHash).value.value, At(at, replies));
    AnswerPlansPrepared(seen', e', Evaluate(seen'.world, e', HOME.configHash).value.value, At(at, others));
  }

  lemma DeadlineIs(s: EngineState, o: Observation, at: Time, replies: seq<Reply>)
    requires Process(HOME, s, o, At(at, replies)).1.plans != [] && Process(HOME, s, o, At(at, replies)).0.pending.Some? && s.pending.None?
    ensures Process(HOME, s, o, At(at, replies)).0.pending.value.wakeup.deadline == at + REPLY_WAIT
  {
    var seen, e := PlansComeFromAnswers(HOME, s, o, At(at, replies));
    var d := Evaluate(seen.world, e, HOME.configHash).value.value;
    AnswerPlansPrepared(seen, e, d, At(at, replies));
    var w := PlannedPlansSplit(d, NODS, HOME.actionTimeout);
    SplitIsUnique(Prepare(d, Some(NODS), HOME.actionTimeout).value.plan, w);
  }

  /** At home, with no episode. */
  ghost predicate Resting(s: EngineState, seen: set<string>, last: nat) {
    && TimelineOf(s.subjects, "user-1").presenceKnown && TimelineOf(s.subjects, "user-1").present
    && s.ingress.seenIDs == seen && s.ingress.lastSeq == map["camera" := last]
    && !s.world.quietMode && !s.world.userBusy && s.tracker.active.None?
  }

  function WakeAt(s: EngineState, at: Time): Input
    requires s.pending.Some?
  {
    Wake(s.pending.value.wakeup, AdvanceEnv(Live, at, at, []))
  }

  /** The deadline passes unanswered. */
  lemma Unanswered(s: EngineState, seen: set<string>, last: nat, deadline: Time)
    requires Inv(HOME, s) && Greeted(s, seen, last, deadline) && deadline != UNSET && s.world.noResponse == NEVER
    ensures var (t, r) := Step(HOME, s, WakeAt(s, deadline));
      && Resting(t, seen, last) && t.world.rejection == s.world.rejection && t.world.noResponse == Cooldown(deadline, deadline + 50)
      && |r.outcomes| == 1
  {
    WakeupEndsEpisodeIff(HOME, s, s.pending.value.wakeup, AdvanceEnv(Live, deadline, deadline, []));
  }

  /** Leaving again. */
  lemma LeavesAgain(s: EngineState, seen: set<string>, last: nat, id: string, at: Time)
    requires Inv(HOME, s) && Resting(s, seen, last) && at > 0 && id != "" && id !in seen
    ensures var t := Step(HOME, s, Observe(Absent(id, last + 1, at), At(at, []))).0;
      && Away(t, at, seen + {id}, last + 1) && t.world.rejection == s.world.rejection && t.world.noResponse == s.world.noResponse
  {
    var o, env := Absent(id, last + 1, at), At(at, []);
    assert AcceptFault(s.ingress, o, at).None?;
    assert Transition(HOME.returnAbsenceThreshold, TimelineOf(s.subjects, o.subjectID), o) == Some((PersonLeft, 0));
    ProcessEffects(HOME, s, o, env);
    AdmittedByProcess(s, o, env);
    StartsEpisodeIff(HOME, s, o, env);
    ProcessKeeps(HOME, s, o, env);
  }

  lemma {:induction false} GreetingRun(inputs: seq<Input>, since: Time, seen: set<string>, last: nat, id: string, at: Time) returns (more: seq<Input>)
    requires Away(Run(HOME, inputs), since, seen, last) && since > 0 && at - since >= 60
    requires id != "" && id !in seen && Unguarded(Run(HOME, inputs).world, at)
    ensures Greeted(Run(HOME, more), seen + {id}, last + 1, at + REPLY_WAIT) && Outcomes(Reports(HOME, more)) == Outcomes(Reports(HOME, inputs))
    ensures Run(HOME, more).world.noResponse == Run(HOME, inputs).world.noResponse && Run(HOME, more).world.rejection == Run(HOME, inputs).world.rejection
  {
    Reachable(inputs);
    var i := GreetedHome(Run(HOME, inputs), since, seen, last, id, at);
    CooldownsKept(Run(HOME, inputs), i);
    more := Extended(inputs, i);
  }

  /** Absence, a return that is greeted, and no answer. */
  lemma {:induction false} FirstEpisode() returns (inputs: seq<Input>)
    ensures Resting(Run(HOME, inputs), {"o1", "o2"}, 2) && |Outcomes(Reports(HOME, inputs))| == 1
    ensures Run(HOME, inputs).world.rejection == NEVER && Run(HOME, inputs).world.noResponse == Cooldown(8120, 8170)
  {
    inputs := FirstGreeting();
    Reachable(inputs);
    Unanswered(Run(HOME, inputs), {"o1", "o2"}, 2, 8120);
    inputs := Extended(inputs, WakeAt(Run(HOME, inputs), 8120));
  }

  lemma {:induction false} FirstGreeting() returns (inputs: seq<Input>)
    ensures Greeted(Run(HOME, inputs), {"o1", "o2"}, 2, 8120) && Outcomes(Reports(HOME, inputs)) == []
    ensures Run(HOME, inputs).world.rejection == NEVER && Run(HOME, inputs).world.noResponse == NEVER
  {
    inputs := Leaving();
    assert {"o1"} + {"o2"} == {"o1", "o2"};
    inputs := GreetingRun(inputs, 50, {"o1"}, 1, "o2", 120);
  }

  lemma {:induction false} SecondLeaving() returns (inputs: seq<Input>)
    ensures Away(Run(HOME, inputs), 8200, {"o1", "o2", "o3"}, 3) && Outcomes(Reports(HOME, inputs)) != []
    ensures Run(HOME, inputs).world.rejection == NEVER && Run(HOME, inputs).world.noResponse == Cooldown(8120, 8170)
  {
    inputs := FirstEpisode();
    inputs := LeavingRun(inputs, {"o1", "o2"}, 2, "o3", 8200);
  }

  lemma {:induction false} LeavingRun(inputs: seq<Input>, seen: set<string>, last: nat, id: string, at: Time) returns (more: seq<Input>)
    requires Resting(Run(HOME, inputs), seen, last) && at > 0 && id != "" && id !in seen
    ensures Away(Run(HOME, more), at, seen + {id}, last + 1) && |Outcomes(Reports(HOME, more))| >= |Outcomes(Reports(HOME, inputs))|
    ensures Run(HOME, more).world.noResponse == Run(HOME, inputs).world.noResponse && Run(HOME, more).world.rejection == Run(HOME, inputs).world.rejection
  {
    Reachable(inputs);
    LeavesAgain(Run(HOME, inputs), seen, last, id, at);
    more := Extended(inputs, Observe(Absent(id, last + 1, at), At(at, [])));
  }

  /** After an unanswered greeting and another absence, a second greeting opens a window
      of its own: a wakeup is current while an earlier episode has ended. */
  lemma {:induction false} TwoEpisodes() returns (inputs: seq<Input>, ended: string)
    ensures ended in EndedIds(Outcomes(Reports(HOME, inputs)))
    ensures NextWakeup(Run(HOME, inputs)).Some? && NextWakeup(Run(HOME, inputs)).value.deadline == 16300
  {
    inputs := SecondLeaving();
    inputs := GreetingRun(inputs, 8200, {"o1", "o2", "o3"}, 3, "o4", 8300);
    ended := EndedIds(Outcomes(Reports(HOME, inputs)))[0];
  }

  /** An observation leaves the cooldowns alone, and only a reply has an outcome. */
  lemma CooldownsKept(s: EngineState, i: Input)
    requires i.Observe?
    ensures Step(HOME, s, i).0.world.rejection == s.world.rejection && Step(HOME, s, i).0.world.noResponse == s.world.noResponse
    ensures forall x :: x in Step(HOME, s, i).1.outcomes ==> x.kind == OutcomeKind.Accepted
  {
    ProcessSideEffects(HOME, s, i.observation, i.processEnv);
  }
}
