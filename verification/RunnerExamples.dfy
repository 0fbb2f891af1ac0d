/** Concrete schedules of the runner around the engine. */
module RunnerExamples {
  import opened Prelude
  import opened Observations
  import opened Engines
  import opened EngineInvariant
  import R = EngineRuns
  import X = EngineExamples
  import opened Runners
  import opened RunnerSafety
  import opened RunnerEngine

  /** At the top of the loop with nothing queued and nothing running. */
  predicate AtRest<A>(s: State<A>) {
    s.pc == Top && s.queues == Queues([], []) && s.active.None? && s.context.Live?
  }

  /** The schedule leads to the state. */
  ghost predicate Leads<A>(p: Processor<A>, limits: Limits, now: Time, steps: seq<Step>, s: State<A>) {
    Run(p, limits, now, steps) == Some(s)
  }

  lemma Then<A>(p: Processor<A>, limits: Limits, now: Time, steps: seq<Step>, s: State<A>, step: Step) returns (more: seq<Step>, t: State<A>)
    requires Leads(p, limits, now, steps, s) && Next(p, limits, s, step).Some?
    ensures Leads(p, limits, now, more, t) && t == Next(p, limits, s, step).value
  {
    more, t := steps + [step], Next(p, limits, s, step).value;
    assert more[..|steps|] == steps;
  }

  // ---------------------------------------------------------------------------
  // One observation, and one wakeup.

  /** Submitting an observation at rest, and having it taken up. */
  lemma TakeUp<A>(p: Processor<A>, limits: Limits, now: Time, steps: seq<Step>, s: State<A>, r: ObservationRequest, at: Time)
    returns (more: seq<Step>, t: State<A>)
    requires Leads(p, limits, now, steps, s) && AtRest(s) && limits.observations > 0 && r.id !in s.ledger.submitted && s.clock <= at
    ensures Leads(p, limits, now, more, t) && t.core == s.core && t.alarm == s.alarm && t.clock == at && t.context.Live?
    ensures t.pc.BusySelect? && t.queues == Queues([], []) && t.active == Some(Work(ObservationJob(r), at, false, None))
    ensures t.ledger.submitted == s.ledger.submitted + {r.id}
  {
    more, t := Then(p, limits, now, steps, s, Tick(at));
    more, t := Then(p, limits, now, more, t, SubmitObservation(r));
    more, t := Then(p, limits, now, more, t, SkipControls);
    more, t := Then(p, limits, now, more, t, TakeObservation(true));
    more, t := Then(p, limits, now, more, t, SkipControls);
  }

  /** And processing it at one time. */
  lemma ObserveRound<A>(p: Processor<A>, limits: Limits, now: Time, steps: seq<Step>, s: State<A>, r: ObservationRequest, env: ProcessEnv, at: Time)
    returns (more: seq<Step>, t: State<A>)
    requires Leads(p, limits, now, steps, s) && AtRest(s) && limits.observations > 0 && r.id !in s.ledger.submitted && s.clock <= at
    requires env.now == at && env.dispatchAt == at && env.openedAt == at
    ensures Leads(p, limits, now, more, t) && AtRest(t) && t.clock == at && t.ledger.submitted == s.ledger.submitted + {r.id}
    ensures t.core == Apply(p, s.core, R.Observe(r.input, env)) && t.alarm == Refresh(s.alarm, p.next(t.core.app), at)
  {
    more, t := TakeUp(p, limits, now, steps, s, r, at);
    more, t := Then(p, limits, now, more, t, CompleteObservation(env));
    more, t := Then(p, limits, now, more, t, ReceiveResult);
  }

  /** A wakeup waits on a timer that has not fired. */
  predicate Waiting(a: Alarm, w: Wakeup) {
    && a.scheduled.Some? && a.scheduled.value.wakeup == w && a.scheduled.value.timer.Some?
    && a.scheduled.value.timer.value in a.timers && a.timers[a.scheduled.value.timer.value] == w.deadline
  }

  /** At its deadline the loop finds it due. */
  lemma DueRound<A>(p: Processor<A>, limits: Limits, now: Time, steps: seq<Step>, s: State<A>, w: Wakeup) returns (more: seq<Step>, t: State<A>)
    requires Leads(p, limits, now, steps, s) && AtRest(s) && Waiting(s.alarm, w) && s.clock <= w.deadline
    ensures Leads(p, limits, now, more, t) && t.core == s.core && t.clock == w.deadline && t.context.Live?
    ensures t.pc == CheckDue && t.queues == Queues([], []) && t.active.None? && t.ledger.submitted == s.ledger.submitted
    ensures Due(t.alarm) && t.alarm.scheduled.value.wakeup == w
  {
    more, t := Then(p, limits, now, steps, s, Tick(w.deadline));
    more, t := Then(p, limits, now, more, t, FireTimer(s.alarm.scheduled.value.timer.value));
    more, t := Then(p, limits, now, more, t, SkipControls);
    more, t := Then(p, limits, now, more, t, SkipObservations);
    more, t := Then(p, limits, now, more, t, SkipDue);
    more, t := Then(p, limits, now, more, t, ReceiveTimer);
    more, t := Then(p, limits, now, more, t, SkipControls);
    more, t := Then(p, limits, now, more, t, SkipObservations);
  }

  /** And consumes it. */
  lemma WakeRound<A>(p: Processor<A>, limits: Limits, now: Time, steps: seq<Step>, s: State<A>, w: Wakeup) returns (more: seq<Step>, t: State<A>)
    requires Leads(p, limits, now, steps, s) && AtRest(s) && Waiting(s.alarm, w) && s.clock <= w.deadline
    ensures Leads(p, limits, now, more, t) && AtRest(t) && t.clock == w.deadline && t.ledger.submitted == s.ledger.submitted
    ensures t.core == Apply(p, s.core, R.Wake(w, AdvanceEnv(Live, w.deadline, w.deadline, [])))
  {
    more, t := DueRound(p, limits, now, steps, s, w);
    more, t := Then(p, limits, now, more, t, StartDueWakeup);
    more, t := Then(p, limits, now, more, t, SkipControls);
    more, t := Then(p, limits, now, more, t, CompleteWakeup(AdvanceEnv(Live, w.deadline, w.deadline, []), false));
    more, t := Then(p, limits, now, more, t, ReceiveResult);
  }

  // ---------------------------------------------------------------------------
  // Two episodes under the runner.

  const LIMITS := Limits(1, 1)

  /** The engine's state follows the schedule's history. */
  lemma {:induction false} Follows(steps: seq<Step>, s: State<EngineState>)
    requires Leads(EngineProcessor(X.HOME), LIMITS, 1, steps, s)
    ensures s.core.app == R.Run(X.HOME, s.core.history) && Inv(X.HOME, s.core.app)
  {
    AlwaysLinear(X.HOME, LIMITS, 1, steps);
    X.Reachable(s.core.history);
  }

  /** Processing one observation, seen in the engine. */
  lemma {:induction false} EngineRound(steps: seq<Step>, s: State<EngineState>, id: nat, i: R.Input, at: Time) returns (more: seq<Step>, t: State<EngineState>)
    requires Leads(EngineProcessor(X.HOME), LIMITS, 1, steps, s) && AtRest(s) && id !in s.ledger.submitted && s.clock <= at
    requires i.Observe? && i.processEnv == X.At(at, i.processEnv.replies)
    ensures Leads(EngineProcessor(X.HOME), LIMITS, 1, more, t) && AtRest(t) && t.clock == at && t.ledger.submitted == s.ledger.submitted + {id}
    ensures t.core.app == R.Step(X.HOME, s.core.app, i).0
    ensures R.Outcomes(R.Reports(X.HOME, t.core.history)) == R.Outcomes(R.Reports(X.HOME, s.core.history)) + R.Step(X.HOME, s.core.app, i).1.outcomes
    ensures NextWakeup(t.core.app).Some? && NextWakeup(t.core.app).value.deadline > at ==> Waiting(t.alarm, NextWakeup(t.core.app).value)
  {
    more, t := ObserveRound(EngineProcessor(X.HOME), LIMITS, 1, steps, s, ObservationRequest(id, i.observation), i.processEnv, at);
    Follows(steps, s);
    var inputs := X.Extended(s.core.history, i);
  }

  /** Leaving, for any ids and times. */
  lemma {:induction false} LeaveRound(steps: seq<Step>, s: State<EngineState>, n: nat, seen: set<string>, last: nat, id: string, at: Time)
    returns (more: seq<Step>, t: State<EngineState>)
    requires Leads(EngineProcessor(X.HOME), LIMITS, 1, steps, s) && AtRest(s) && n !in s.ledger.submitted && s.clock <= at && at > 0
    requires X.Resting(s.core.app, seen, last) && id != "" && id !in seen
    ensures Leads(EngineProcessor(X.HOME), LIMITS, 1, more, t) && AtRest(t) && t.clock == at && t.ledger.submitted == s.ledger.submitted + {n}
    ensures X.Away(t.core.app, at, seen + {id}, last + 1)
    ensures t.core.app.world.rejection == s.core.app.world.rejection && t.core.app.world.noResponse == s.core.app.world.noResponse
    ensures |R.Outcomes(R.Reports(X.HOME, t.core.history))| >= |R.Outcomes(R.Reports(X.HOME, s.core.history))|
  {
    Follows(steps, s);
    X.LeavesAgain(s.core.app, seen, last, id, at);
    more, t := EngineRound(steps, s, n, R.Observe(X.Absent(id, last + 1, at), X.At(at, [])), at);
  }

  /** Being greeted, for any ids and times. */
  lemma {:induction false} GreetRound(steps: seq<Step>, s: State<EngineState>, n: nat, since: Time, seen: set<string>, last: nat, id: string, at: Time)
    returns (more: seq<Step>, t: State<EngineState>)
    requires Leads(EngineProcessor(X.HOME), LIMITS, 1, steps, s) && AtRest(s) && n !in s.ledger.submitted && s.clock <= at
    requires X.Away(s.core.app, since, seen, last) && since > 0 && at - since >= 60 && id != "" && id !in seen && R.Unguarded(s.core.app.world, at)
    ensures Leads(EngineProcessor(X.HOME), LIMITS, 1, more, t) && AtRest(t) && t.clock == at && t.ledger.submitted == s.ledger.submitted + {n}
    ensures X.Greeted(t.core.app, seen + {id}, last + 1, at + X.WAIT) && Waiting(t.alarm, t.core.app.pending.value.wakeup)
    ensures t.core.app.world.rejection == s.core.app.world.rejection && t.core.app.world.noResponse == s.core.app.world.noResponse
    ensures R.Outcomes(R.Reports(X.HOME, t.core.history)) == R.Outcomes(R.Reports(X.HOME, s.core.history))
  {
    Follows(steps, s);
    var i := X.GreetedHome(s.core.app, since, seen, last, id, at);
    X.CooldownsKept(s.core.app, i);
    more, t := EngineRound(steps, s, n, i, at);
  }

  lemma {:induction false} Begin() returns (steps: seq<Step>, s: State<EngineState>)
    ensures Leads(EngineProcessor(X.HOME), LIMITS, 1, steps, s) && AtRest(s) && s.clock == 1 && s.ledger.submitted == {}
    ensures s.core.app == Initial(X.HOME) && R.Outcomes(R.Reports(X.HOME, s.core.history)) == []
  {
    steps, s := [], Start(EngineProcessor(X.HOME), 1);
    var inputs := X.Empty();
  }

  /** Absence at 50 and a greeting at 120. */
  lemma {:induction false} Morning() returns (steps: seq<Step>, s: State<EngineState>)
    ensures Leads(EngineProcessor(X.HOME), LIMITS, 1, steps, s) && AtRest(s) && s.clock == 120 && s.ledger.submitted == {1, 2}
    ensures X.Greeted(s.core.app, {"o1", "o2"}, 2, 8120) && Waiting(s.alarm, s.core.app.pending.value.wakeup)
    ensures s.core.app.world.rejection == X.NEVER && s.core.app.world.noResponse == X.NEVER
  {
    steps, s := Leave();
    assert {"o1"} + {"o2"} == {"o1", "o2"};
    steps, s := GreetRound(steps, s, 2, 50, {"o1"}, 1, "o2", 120);
  }

  lemma {:induction false} Leave() returns (steps: seq<Step>, s: State<EngineState>)
    ensures Leads(EngineProcessor(X.HOME), LIMITS, 1, steps, s) && AtRest(s) && s.clock == 50 && s.ledger.submitted == {1}
    ensures X.Away(s.core.app, 50, {"o1"}, 1) && s.core.app.world.rejection == X.NEVER && s.core.app.world.noResponse == X.NEVER
  {
    steps, s := Begin();
    X.LeavesHome(50);
    steps, s := EngineRound(steps, s, 1, R.Observe(X.Absent("o1", 1, 50), X.At(50, [])), 50);
  }

  /** The window closes unanswered at 8120. */
  lemma {:induction false} Noon() returns (steps: seq<Step>, s: State<EngineState>)
    ensures Leads(EngineProcessor(X.HOME), LIMITS, 1, steps, s) && AtRest(s) && s.clock == 8120 && s.ledger.submitted == {1, 2}
    ensures X.Resting(s.core.app, {"o1", "o2"}, 2) && s.core.app.world.rejection == X.NEVER
    ensures s.core.app.world.noResponse.start == 8120 && s.core.app.world.noResponse.until == 8170
    ensures R.Outcomes(R.Reports(X.HOME, s.core.history)) != []
  {
    var before, m := Morning();
    Follows(before, m);
    var w := m.core.app.pending.value.wakeup;
    X.Unanswered(m.core.app, {"o1", "o2"}, 2, 8120);
    var inputs := X.Extended(m.core.history, X.WakeAt(m.core.app, 8120));
    steps, s := WakeRound(EngineProcessor(X.HOME), LIMITS, 1, before, m, w);
  }

  lemma GreetedLater(before: seq<Step>, e: State<EngineState>, seen: set<string>) returns (steps: seq<Step>, s: State<EngineState>)
    requires Leads(EngineProcessor(X.HOME), LIMITS, 1, before, e) && AtRest(e) && e.clock == 8200 && e.ledger.submitted == {1, 2, 3}
    requires X.Away(e.core.app, 8200, seen, 3) && "o4" !in seen && R.Unguarded(e.core.app.world, 8300)
    requires R.Outcomes(R.Reports(X.HOME, e.core.history)) != []
    ensures Leads(EngineProcessor(X.HOME), LIMITS, 1, steps, s) && AtRest(s) && s.clock == 8300
    ensures NextWakeup(s.core.app).Some? && NextWakeup(s.core.app).value.deadline == 16300 && Waiting(s.alarm, NextWakeup(s.core.app).value)
    ensures R.Outcomes(R.Reports(X.HOME, s.core.history)) != []
  {
    steps, s := GreetRound(before, e, 4, 8200, seen, 3, "o4", 8300);
  }

  /** Another absence at 8200 and another greeting at 8300. */
  lemma {:induction false} Evening() returns (steps: seq<Step>, s: State<EngineState>)
    ensures Leads(EngineProcessor(X.HOME), LIMITS, 1, steps, s) && AtRest(s) && s.clock == 8300
    ensures NextWakeup(s.core.app).Some? && NextWakeup(s.core.app).value.deadline == 16300 && Waiting(s.alarm, NextWakeup(s.core.app).value)
    ensures R.Outcomes(R.Reports(X.HOME, s.core.history)) != []
  {
    var before, e := LeaveAgain();
    assert "o4" !in {"o1", "o2", "o3"};
    assert R.Unguarded(e.core.app.world, 8300);
    steps, s := GreetedLater(before, e, {"o1", "o2", "o3"});
  }

  lemma {:induction false} LeaveAgain() returns (steps: seq<Step>, s: State<EngineState>)
    ensures Leads(EngineProcessor(X.HOME), LIMITS, 1, steps, s) && AtRest(s) && s.clock == 8200 && s.ledger.submitted == {1, 2, 3}
    ensures X.Away(s.core.app, 8200, {"o1", "o2", "o3"}, 3) && s.core.app.world.rejection == X.NEVER
    ensures s.core.app.world.noResponse.start == 8120 && s.core.app.world.noResponse.until == 8170
    ensures R.Outcomes(R.Reports(X.HOME, s.core.history)) != []
  {
    steps, s := Noon();
    assert {"o1", "o2"} + {"o3"} == {"o1", "o2", "o3"};
    steps, s := LeaveRound(steps, s, 3, {"o1", "o2"}, 2, "o3", 8200);
  }

  /** The loop is about to start a wakeup while an earlier one was consumed. */
  lemma {:induction false} SecondWakeupStarts() returns (steps: seq<Step>, ended: string)
    ensures Run(EngineProcessor(X.HOME), LIMITS, 1, steps).Some?
    ensures BeginWakeup(Run(EngineProcessor(X.HOME), LIMITS, 1, steps).value).Some?
    ensures ended in R.EndedIds(R.Outcomes(R.Reports(X.HOME, Run(EngineProcessor(X.HOME), LIMITS, 1, steps).value.core.history)))
  {
    var before, e := Evening();
    var s;
    steps, s := DueRound(EngineProcessor(X.HOME), LIMITS, 1, before, e, NextWakeup(e.core.app).value);
    ended := R.EndedIds(R.Outcomes(R.Reports(X.HOME, s.core.history)))[0];
  }
}
