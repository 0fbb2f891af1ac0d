/** What the runner guarantees in every interleaving, and what follows for the
    interaction engine it drives. */
module RunnerEngine {
  import opened Prelude
  import opened Ids
  import opened Observations
  import opened Events
  import opened World
  import opened Decisions
  import opened Behaviors
  import opened Episodes
  import opened Dispatch
  import opened Engines
  import opened EngineInvariant
  import R = EngineRuns
  import opened Runners
  import opened RunnerSafety

  /** In every interleaving at most one of Process, AdvanceAt and
      CommitUserRejection is in flight, and once a control waits at most one other
      transition of the loop precedes taking a control. */
  lemma {:induction false} SingleWriterWithPriority<A>(p: Processor<A>, limits: Limits, now: Time, steps: seq<Step>)
    requires Run(p, limits, now, steps).Some?
    ensures var s := Run(p, limits, now, steps).value;
      0 <= s.ledger.inFlight <= 1 && s.ledger.bypassed <= 1 && OnScript(s)
  {
    AlwaysSafe(p, limits, now, steps);
  }

  lemma {:induction false} QueuedObservation(q: seq<ObservationRequest>, id: nat)
    requires InObservations(q, id) > 0
    ensures exists r :: r in q && r.id == id
  {
    if q[0].id != id {
      QueuedObservation(q[1..], id);
      var r :| r in q[1..] && r.id == id;
      assert r in q;
    }
  }

  lemma {:induction false} QueuedControl(q: seq<ControlRequest>, id: nat)
    requires InControls(q, id) > 0
    ensures exists r :: r in q && r.id == id
  {
    if q[0].id != id {
      QueuedControl(q[1..], id);
      var r :| r in q[1..] && r.id == id;
      assert r in q;
    }
  }

  /** Each request is answered at most once, so the send into its one-slot channel
      never blocks; and when the loop has returned, nothing runs, no timer is left
      and every request submitted before the queues were drained was answered. */
  lemma {:induction false} EveryRequestAnsweredOnce<A>(p: Processor<A>, limits: Limits, now: Time, steps: seq<Step>, id: nat)
    requires Run(p, limits, now, steps).Some?
    ensures var s := Run(p, limits, now, steps).value;
      && s.ledger.answered[id] <= 1
      && (s.pc.Returned? ==>
            && s.active.None? && s.ledger.inFlight == 0 && s.alarm.timers == map[] && s.alarm.fired == {}
            && (id in s.ledger.submitted && id !in s.ledger.late ==> s.ledger.answered[id] == 1))
  {
    AlwaysSafe(p, limits, now, steps);
    var s := Run(p, limits, now, steps).value;
    assert Places(s, id) == if id in s.ledger.submitted then 1 else 0;
    if s.pc.Returned? && id !in s.ledger.late {
      if InObservations(s.queues.observations, id) > 0 {
        QueuedObservation(s.queues.observations, id);
      }
      if InControls(s.queues.controls, id) > 0 {
        QueuedControl(s.queues.controls, id);
      }
    }
  }

  /** Whenever the runner is idle its scheduled wakeup mirrors the application's,
      with at most one timer, and without one only if the wakeup is already due. */
  lemma {:induction false} IdleMirrorsNextWakeup<A>(p: Processor<A>, limits: Limits, now: Time, steps: seq<Step>)
    requires Run(p, limits, now, steps).Some? && LoopIdle(Run(p, limits, now, steps).value)
    ensures var s := Run(p, limits, now, steps).value;
      && Mirrored(s.alarm) == p.next(s.core.app)
      && |s.alarm.timers| + |s.alarm.fired| <= 1
      && (Due(s.alarm) ==> s.alarm.scheduled.value.wakeup.deadline <= s.clock)
  {
    AlwaysSafe(p, limits, now, steps);
  }

  // ---------------------------------------------------------------------------
  // The engine under the runner.

  function EngineProcessor(c: Config): Processor<EngineState> {
    Processor(Initial(c), (s: EngineState, i: R.Input) => R.Step(c, s, i).0, (s: EngineState) => NextWakeup(s))
  }

  /** The operations interleave as if they ran one after the other: the engine is
      always where the sequence of completed operations leads. */
  ghost predicate Linear(c: Config, s: State<EngineState>) {
    s.core.app == R.Run(c, s.core.history)
  }

  lemma HistoryStep<A>(p: Processor<A>, limits: Limits, s: State<A>, step: Step)
    requires Next(p, limits, s, step).Some?
    ensures var t := Next(p, limits, s, step).value;
      t.core == s.core || exists i :: t.core == Apply(p, s.core, i)
  {
    match step {
      case CompleteObservation(env) =>
        assert Next(p, limits, s, step).value.core == Apply(p, s.core, R.Observe(s.active.value.job.request.input, env));
      case CompleteWakeup(env, failed) =>
        assert Next(p, limits, s, step).value.core == Apply(p, s.core, R.Wake(s.active.value.job.wakeup, env));
      case AdvanceControl =>
        if s.pc.stage == InCommit {
          assert Next(p, limits, s, step).value.core == Apply(p, s.core, R.Reject(s.pc.request.command, s.context));
        }
      case _ =>
    }
  }

  lemma {:induction false} AlwaysLinear(c: Config, limits: Limits, now: Time, steps: seq<Step>)
    requires Run(EngineProcessor(c), limits, now, steps).Some?
    ensures Linear(c, Run(EngineProcessor(c), limits, now, steps).value)
  {
    if steps != [] {
      var before := steps[..|steps| - 1];
      AlwaysLinear(c, limits, now, before);
      var p := EngineProcessor(c);
      var s := Run(p, limits, now, before).value;
      HistoryStep(p, limits, s, Last(steps));
      var t := Next(p, limits, s, Last(steps)).value;
      if t.core != s.core {
        var i :| t.core == Apply(p, s.core, i);
        assert (s.core.history + [i])[..|s.core.history|] == s.core.history;
        assert Last(s.core.history + [i]) == i;
      }
    }
  }

  /** In every interleaving the three copies of the reply window agree, and the
      episodes of the completed operations obey the ledger. */
  lemma {:induction false} EngineSafeUnderRunner(c: Config, limits: Limits, now: Time, steps: seq<Step>)
    requires ValidConfig(c) && Run(EngineProcessor(c), limits, now, steps).Some?
    ensures var s := Run(EngineProcessor(c), limits, now, steps).value;
      && Inv(c, s.core.app)
      && R.Ledger(s.core.app, R.StartedIds(R.Reports(c, s.core.history)), R.Outcomes(R.Reports(c, s.core.history)))
  {
    var s := Run(EngineProcessor(c), limits, now, steps).value;
    AlwaysLinear(c, limits, now, steps);
    InitialInv(c);
    R.RunKeeps(c, Initial(c), s.core.history);
    R.EpisodesEndInOrder(c, s.core.history);
  }

  /** The loop never starts a wakeup that was consumed before. */
  lemma {:induction false} NeverRefires(c: Config, limits: Limits, now: Time, steps: seq<Step>, ended: string)
    requires ValidConfig(c) && Run(EngineProcessor(c), limits, now, steps).Some?
    requires BeginWakeup(Run(EngineProcessor(c), limits, now, steps).value).Some?
    requires ended in R.EndedIds(R.Outcomes(R.Reports(c, Run(EngineProcessor(c), limits, now, steps).value.core.history)))
    ensures var s := Run(EngineProcessor(c), limits, now, steps).value;
      s.alarm.scheduled.value.wakeup.token != WakeupToken(ended)
  {
    var s := Run(EngineProcessor(c), limits, now, steps).value;
    AlwaysLinear(c, limits, now, steps);
    AlwaysSafe(EngineProcessor(c), limits, now, steps);
    assert LoopIdle(s) && Mirrored(s.alarm) == NextWakeup(s.core.app);
    R.ConsumedWakeupNeverReturns(c, s.core.history, ended);
  }

  // ---------------------------------------------------------------------------
  // A started wakeup is consumed.

  lemma PendingAfterProcess(c: Config, s: EngineState, o: Observation, env: ProcessEnv)
    ensures var t := Process(c, s, o, env).0;
      t.pending.Some? ==> t.pending == s.pending || t.pending.value.wakeup.deadline > env.openedAt
  {
  }

  lemma PendingAfterOthers(c: Config, s: EngineState, w: Wakeup, env: AdvanceEnv, k: ControlCommand, context: Context)
    ensures AdvanceAt(c, s, w, env).0.pending.Some? ==> AdvanceAt(c, s, w, env).0.pending == s.pending
    ensures CommitUserRejection(c, s, k, context).0.pending.Some? ==> CommitUserRejection(c, s, k, context).0.pending == s.pending
  {
  }

  /** With a positive clock every deadline is a real time. */
  predicate Positive(s: State<EngineState>) {
    && s.clock > 0
    && (s.active.Some? ==> s.active.value.startedAt > 0)
    && (s.core.app.pending.Some? ==> s.core.app.pending.value.wakeup.deadline > 0)
  }

  lemma PositiveObservation(c: Config, limits: Limits, s: State<EngineState>, env: ProcessEnv)
    requires Positive(s) && Next(EngineProcessor(c), limits, s, CompleteObservation(env)).Some?
    ensures Positive(Next(EngineProcessor(c), limits, s, CompleteObservation(env)).value)
  {
    PendingAfterProcess(c, s.core.app, s.active.value.job.request.input, env);
    assert env.openedAt in [env.now, env.dispatchAt, env.openedAt];
  }

  lemma PositiveWakeup(c: Config, limits: Limits, s: State<EngineState>, env: AdvanceEnv, failed: bool)
    requires Positive(s) && Next(EngineProcessor(c), limits, s, CompleteWakeup(env, failed)).Some?
    ensures Positive(Next(EngineProcessor(c), limits, s, CompleteWakeup(env, failed)).value)
  {
    PendingAfterOthers(c, s.core.app, s.active.value.job.wakeup, env, ControlCommand("", ShutdownStop, "", 0, ""), Live);
  }

  lemma PositiveControl(c: Config, limits: Limits, s: State<EngineState>)
    requires Positive(s) && Next(EngineProcessor(c), limits, s, AdvanceControl).Some?
    ensures Positive(Next(EngineProcessor(c), limits, s, AdvanceControl).value)
  {
    PendingAfterOthers(c, s.core.app, Wakeup("", 0), AdvanceEnv(Live, 0, 0, []), s.pc.request.command, s.context);
  }

  /** The other steps do not touch the engine. */
  lemma PositiveOther(c: Config, limits: Limits, s: State<EngineState>, step: Step)
    requires Positive(s) && Next(EngineProcessor(c), limits, s, step).Some?
    requires !step.CompleteObservation? && !step.CompleteWakeup? && !step.AdvanceControl?
    ensures Positive(Next(EngineProcessor(c), limits, s, step).value)
  {
  }

  lemma PositiveStep(c: Config, limits: Limits, s: State<EngineState>, step: Step)
    requires Positive(s) && Next(EngineProcessor(c), limits, s, step).Some?
    ensures Positive(Next(EngineProcessor(c), limits, s, step).value)
  {
    match step {
      case CompleteObservation(env) => PositiveObservation(c, limits, s, env);
      case CompleteWakeup(env, failed) => PositiveWakeup(c, limits, s, env, failed);
      case AdvanceControl => PositiveControl(c, limits, s);
      case _ => PositiveOther(c, limits, s, step);
    }
  }

  lemma {:induction false} AlwaysPositive(c: Config, limits: Limits, now: Time, steps: seq<Step>)
    requires now > 0 && Run(EngineProcessor(c), limits, now, steps).Some?
    ensures Positive(Run(EngineProcessor(c), limits, now, steps).value)
  {
    if steps != [] {
      AlwaysPositive(c, limits, now, steps[..|steps| - 1]);
      PositiveStep(c, limits, Run(EngineProcessor(c), limits, now, steps[..|steps| - 1]).value, Last(steps));
    }
  }

  /** A wakeup the loop started, and nobody cancelled, always ends its episode with
      NO_RESPONSE and clears the window, whatever the driver answers and whether or
      not the call then fails; afterwards no wakeup is current. */
  lemma {:induction false} StartedWakeupIsConsumed(c: Config, limits: Limits, now: Time, steps: seq<Step>, env: AdvanceEnv, failed: bool)
    requires ValidConfig(c) && now > 0 && Run(EngineProcessor(c), limits, now, steps).Some?
    requires var s := Run(EngineProcessor(c), limits, now, steps).value;
      && s.context.Live? && s.active.Some? && !s.active.value.cancelled
      && AdvanceDone(EngineProcessor(c), s, env, failed).Some?
    ensures var s := Run(EngineProcessor(c), limits, now, steps).value;
      var t := AdvanceDone(EngineProcessor(c), s, env, failed).value;
      var report := AdvanceAt(c, s.core.app, s.active.value.job.wakeup, env).1;
      && NextWakeup(t.core.app).None? && t.core.app.tracker.active.None? && t.core.app.published.None?
      && |report.outcomes| == 1 && report.outcomes[0].kind == NoResponse
      && s.active.value.job.wakeup.token == WakeupToken(report.outcomes[0].episodeID)
  {
    var p := EngineProcessor(c);
    var s := Run(p, limits, now, steps).value;
    AlwaysSafe(p, limits, now, steps);
    AlwaysPositive(c, limits, now, steps);
    EngineSafeUnderRunner(c, limits, now, steps);
    var w := s.active.value.job.wakeup;
    assert NextWakeup(s.core.app) == Some(w);
    assert env.now in [env.now, env.dispatchAt];
    R.WakeupEndsEpisodeIff(c, s.core.app, w, env);
  }
}
