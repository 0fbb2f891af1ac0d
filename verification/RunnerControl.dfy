/** How the runner treats cancellation, failure and its bounds. */
module RunnerControl {
  import opened Prelude
  import opened Engines
  import opened Runners
  import opened RunnerSafety

  /** Work is cancelled before the loop stops everything and waits for it, for a control
      as for the shutdown; and only then: work that nobody stops is never cancelled. */
  predicate CancelledInTime<A>(s: State<A>) {
    s.active.Some? ==>
      (s.active.value.cancelled <==> s.pc.Shutdown? || (s.pc.Control? && s.pc.stage in {Stopping, Joining}))
  }

  /** No more is queued than the limits allow. */
  predicate Bounded<A>(limits: Limits, s: State<A>) {
    |s.queues.observations| <= limits.observations && |s.queues.controls| <= limits.controls
  }

  lemma CancelledStep<A>(p: Processor<A>, limits: Limits, s: State<A>, step: Step)
    requires Exclusive(s) && CancelledInTime(s) && Bounded(limits, s) && Next(p, limits, s, step).Some?
    ensures CancelledInTime(Next(p, limits, s, step).value) && Bounded(limits, Next(p, limits, s, step).value)
  {
  }

  /** In every interleaving the work the loop is waiting to stop has been cancelled, no
      other work has, and the queues keep within their limits. */
  lemma {:induction false} AlwaysCancelledInTime<A>(p: Processor<A>, limits: Limits, now: Time, steps: seq<Step>)
    requires Run(p, limits, now, steps).Some?
    ensures var s := Run(p, limits, now, steps).value; CancelledInTime(s) && Bounded(limits, s)
  {
    if steps != [] {
      var before := steps[..|steps| - 1];
      AlwaysCancelledInTime(p, limits, now, before);
      AlwaysSafe(p, limits, now, before);
      CancelledStep(p, limits, Run(p, limits, now, before).value, Last(steps));
    }
  }

  /** Some wakeup failed for good. */
  predicate WakeupFailed(steps: seq<Step>) { exists k :: 0 <= k < |steps| && steps[k].CompleteWakeup? && steps[k].failed }

  /** A failed wakeup is on its way to end the loop, or has. */
  predicate Ending<A>(s: State<A>) {
    s.pc.Shutdown? || s.pc.Returned? || (s.pc.Control? && s.pc.failed) || (s.active.Some? && FailsLoop(s.active.value))
  }

  /** Only a failed wakeup, or the end of the loop's context, ends the loop. */
  predicate EndsForAReason<A>(s: State<A>, failed: bool) {
    && (failed ==> Ending(s))
    && (s.pc.Shutdown? || s.pc.Returned? ==> failed || s.context.Ended?)
    && ((s.pc.Control? && s.pc.failed) || (s.active.Some? && FailsLoop(s.active.value)) ==> failed)
    && (s.pc.Control? && s.pc.failed ==> s.pc.stage in {Committing, InCommit, Replying})
  }

  lemma EndsStep<A>(p: Processor<A>, limits: Limits, s: State<A>, step: Step, failed: bool)
    requires Exclusive(s) && EndsForAReason(s, failed) && Next(p, limits, s, step).Some?
    ensures EndsForAReason(Next(p, limits, s, step).value, failed || (step.CompleteWakeup? && step.failed))
  {
  }

  /** In every interleaving, once a wakeup has failed for good the loop is ending: the
      failed work is still to be read, or the control that joined it is still to be
      answered, or the loop shuts down or has returned. And the loop shuts down for no
      other reason than that or the end of its context. */
  lemma {:induction false} ShutsDownIff<A>(p: Processor<A>, limits: Limits, now: Time, steps: seq<Step>)
    requires Run(p, limits, now, steps).Some?
    ensures EndsForAReason(Run(p, limits, now, steps).value, WakeupFailed(steps))
  {
    if steps != [] {
      var before := steps[..|steps| - 1];
      ShutsDownIff(p, limits, now, before);
      AlwaysSafe(p, limits, now, before);
      EndsStep(p, limits, Run(p, limits, now, before).value, Last(steps), WakeupFailed(before));
      WakeupFailedMore(steps);
    }
  }

  lemma {:induction false} WakeupFailedMore(steps: seq<Step>)
    requires steps != []
    ensures WakeupFailed(steps) <==> WakeupFailed(steps[..|steps| - 1]) || (Last(steps).CompleteWakeup? && Last(steps).failed)
  {
    var before := steps[..|steps| - 1];
    if WakeupFailed(before) {
      var k :| 0 <= k < |before| && before[k].CompleteWakeup? && before[k].failed;
      assert steps[k] == before[k];
    }
    if WakeupFailed(steps) {
      var k :| 0 <= k < |steps| && steps[k].CompleteWakeup? && steps[k].failed;
      assert k < |before| ==> before[k] == steps[k];
    }
  }

  // ---------------------------------------------------------------------------
  // Priority.

  /** The loop turns to something other than a control. */
  predicate TurnsElsewhere(step: Step) { step.TakeObservation? || step.StartDueWakeup? || step.ReceiveTimer? || step.ReceiveResult? }

  /** How often, since it last took a control, the loop turned elsewhere while one waited. */
  function Overtaken<A>(p: Processor<A>, limits: Limits, now: Time, steps: seq<Step>): nat {
    if steps == [] then 0
    else
      var before := steps[..|steps| - 1];
      var n := Overtaken(p, limits, now, before);
      match Run(p, limits, now, before)
      case None => 0
      case Some(s) =>
        if Last(steps).TakeControl? then 0
        else if TurnsElsewhere(Last(steps)) && s.queues.controls != [] then n + 1
        else n
  }

  lemma BypassStep<A>(p: Processor<A>, limits: Limits, s: State<A>, step: Step)
    requires Next(p, limits, s, step).Some?
    ensures Next(p, limits, s, step).value.ledger.bypassed ==
      if step.TakeControl? then 0 else if TurnsElsewhere(step) && s.queues.controls != [] then s.ledger.bypassed + 1 else s.ledger.bypassed
  {
  }

  /** In every interleaving the loop turns elsewhere at most once while a control waits. */
  lemma {:induction false} ControlOvertakenAtMostOnce<A>(p: Processor<A>, limits: Limits, now: Time, steps: seq<Step>)
    requires Run(p, limits, now, steps).Some?
    ensures Overtaken(p, limits, now, steps) == Run(p, limits, now, steps).value.ledger.bypassed <= 1
  {
    AlwaysSafe(p, limits, now, steps);
    if steps != [] {
      var before := steps[..|steps| - 1];
      ControlOvertakenAtMostOnce(p, limits, now, before);
      BypassStep(p, limits, Run(p, limits, now, before).value, Last(steps));
    }
  }

  /** A wakeup that is due when the schedule is refreshed needs no timer; any other gets a
      new one, for its deadline, and the timer it replaces is gone. */
  lemma RefreshSays(a: Alarm, next: Option<Wakeup>, now: Time)
    requires a.scheduled.Some? && a.scheduled.value.timer.Some? ==> a.scheduled.value.timer.value < a.nextTimer
    ensures var r := Refresh(a, next, now);
      && (r.scheduled.None? <==> next.None?)
      && (Due(r) <==> next.Some? && next.value.deadline <= now)
      && (next.Some? && next.value.deadline > now ==> r.scheduled.value.timer == Some(a.nextTimer) && a.nextTimer in r.timers && r.timers[a.nextTimer] == next.value.deadline)
      && (a.scheduled.Some? && a.scheduled.value.timer.Some? ==> a.scheduled.value.timer.value !in r.timers && a.scheduled.value.timer.value !in r.fired)
  {
  }

  // ---------------------------------------------------------------------------
  // Order.

  /** What a step adds to the two queues, and what it takes from them. */
  function Added(step: Step): Queues {
    match step
    case SubmitObservation(r) => Queues([r], [])
    case SubmitControl(r) => Queues([], [r])
    case _ => Queues([], [])
  }

  function Removed<A>(s: State<A>, step: Step): Queues {
    var drains := step.AdvanceShutdown? && s.pc.Shutdown?;
    if s.queues.observations != [] && (step.TakeObservation? || (drains && s.pc.drain.DrainingObservations?)) then Queues([s.queues.observations[0]], [])
    else if s.queues.controls != [] && (step.TakeControl? || (drains && s.pc.drain.DrainingControls?)) then Queues([], [s.queues.controls[0]])
    else Queues([], [])
  }

  function Joined(a: Queues, b: Queues): Queues { Queues(a.observations + b.observations, a.controls + b.controls) }

  function AllAdded(steps: seq<Step>): Queues {
    if steps == [] then Queues([], []) else Joined(AllAdded(steps[..|steps| - 1]), Added(Last(steps)))
  }

  function AllRemoved<A>(p: Processor<A>, limits: Limits, now: Time, steps: seq<Step>): Queues {
    if steps == [] then Queues([], [])
    else
      var before := steps[..|steps| - 1];
      match Run(p, limits, now, before)
      case None => Queues([], [])
      case Some(s) => Joined(AllRemoved(p, limits, now, before), Removed(s, Last(steps)))
  }

  lemma QueueStep<A>(p: Processor<A>, limits: Limits, s: State<A>, step: Step)
    requires Next(p, limits, s, step).Some?
    ensures Joined(s.queues, Added(step)) == Joined(Removed(s, step), Next(p, limits, s, step).value.queues)
  {
    QueuesAfter(p, limits, s, step);
    QueuesRegroup(s.queues, Added(step), Removed(s, step));
  }

  /** The queues without what was taken from their fronts. */
  function Behind(q: Queues, taken: Queues): Queues
    requires |taken.observations| <= |q.observations| && |taken.controls| <= |q.controls|
  {
    Queues(if taken.observations == [] then q.observations else q.observations[|taken.observations|..],
           if taken.controls == [] then q.controls else q.controls[|taken.controls|..])
  }

  lemma QueuesAfter<A>(p: Processor<A>, limits: Limits, s: State<A>, step: Step)
    requires Next(p, limits, s, step).Some?
    ensures Removed(s, step) == Queues([], []) || Added(step) == Queues([], [])
    ensures var q := Next(p, limits, s, step).value.queues;
      match step
      case SubmitObservation(r) => q == s.queues.(observations := s.queues.observations + [r])
      case SubmitControl(r) => q == s.queues.(controls := s.queues.controls + [r])
      case _ => q == Behind(s.queues, Removed(s, step))
  {
  }

  lemma QueuesRegroup(q: Queues, added: Queues, taken: Queues)
    requires taken == Queues([], []) || (added == Queues([], []) && taken.observations <= q.observations && taken.controls <= q.controls)
    ensures taken == Queues([], []) ==> Joined(taken, Joined(q, added)) == Joined(q, added)
    ensures added == Queues([], []) && taken.observations <= q.observations && taken.controls <= q.controls ==>
      Joined(taken, Behind(q, taken)) == Joined(q, added)
  {
  }

  lemma JoinedRegroups(a: Queues, b: Queues, c: Queues)
    ensures Joined(Joined(a, b), c) == Joined(a, Joined(b, c))
  {
  }

  /** Over every schedule the loop serves the submitted observations in the order they were
      submitted, each once, and the controls likewise: what was submitted is what was taken
      followed by what is still queued. */
  lemma {:induction false} ServedInOrder<A>(p: Processor<A>, limits: Limits, now: Time, steps: seq<Step>)
    requires Run(p, limits, now, steps).Some?
    ensures AllAdded(steps) == Joined(AllRemoved(p, limits, now, steps), Run(p, limits, now, steps).value.queues)
  {
    if steps != [] {
      var before, step := steps[..|steps| - 1], Last(steps);
      var s, t := Run(p, limits, now, before).value, Run(p, limits, now, steps).value;
      ServedInOrder(p, limits, now, before);
      QueueStep(p, limits, s, step);
      JoinedRegroups(AllRemoved(p, limits, now, before), s.queues, Added(step));
      JoinedRegroups(AllRemoved(p, limits, now, before), Removed(s, step), t.queues);
    }
  }
}
