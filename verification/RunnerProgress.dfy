/** The runner's loop never gets stuck. */
module RunnerProgress {
  import opened Prelude
  import opened Engines
  import opened Runners
  import opened RunnerSafety

  /** Some step of the event loop is possible. */
  predicate LoopCanMove<A>(p: Processor<A>, limits: Limits, s: State<A>) {
    || Next(p, limits, s, TakeControl).Some? || Next(p, limits, s, SkipControls).Some?
    || Next(p, limits, s, TakeObservation(true)).Some? || Next(p, limits, s, SkipObservations).Some?
    || Next(p, limits, s, StartDueWakeup).Some? || Next(p, limits, s, SkipDue).Some?
    || Next(p, limits, s, ReceiveTimer).Some? || Next(p, limits, s, ReceiveResult).Some? || Next(p, limits, s, ReceiveDone).Some?
    || Next(p, limits, s, AdvanceControl).Some? || Next(p, limits, s, AdvanceShutdown).Some?
  }

  /** The loop waits for something to happen: nothing is queued, nothing runs, nothing is
      due, the context is live, and the timer of the scheduled wakeup, if there is one, is
      armed and can fire from its deadline on. */
  predicate WaitsIdle<A>(p: Processor<A>, limits: Limits, s: State<A>) {
    && s.pc.IdleSelect? && s.queues == Queues([], []) && s.active.None? && s.context.Live?
    && match s.alarm.scheduled
       case None => p.next(s.core.app).None?
       case Some(Scheduled(w, None)) => false
       case Some(Scheduled(w, Some(t))) =>
         p.next(s.core.app) == Some(w) && (Next(p, limits, s, FireTimer(t)).Some? <==> s.clock >= w.deadline)
  }

  /** The loop only selects with nothing due. */
  predicate Undue<A>(s: State<A>) { s.pc.IdleSelect? ==> !Due(s.alarm) }

  lemma UndueStep<A>(p: Processor<A>, limits: Limits, s: State<A>, step: Step)
    requires Undue(s) && Next(p, limits, s, step).Some?
    ensures Undue(Next(p, limits, s, step).value)
  {
  }

  lemma {:induction false} AlwaysUndue<A>(p: Processor<A>, limits: Limits, now: Time, steps: seq<Step>)
    requires Run(p, limits, now, steps).Some?
    ensures Undue(Run(p, limits, now, steps).value)
  {
    if steps != [] {
      AlwaysUndue(p, limits, now, steps[..|steps| - 1]);
      UndueStep(p, limits, Run(p, limits, now, steps[..|steps| - 1]).value, Last(steps));
    }
  }

  lemma SafeMoves<A>(p: Processor<A>, limits: Limits, s: State<A>)
    requires Exclusive(s) && Scheduling(p, s) && Undue(s) && !s.pc.Returned?
    ensures LoopCanMove(p, limits, s) || Running(s) || WaitsIdle(p, limits, s)
  {
  }

  /** In every reachable state, unless the loop has returned, the loop can take a step, or
      work is running whose completion it awaits, or it waits with nothing due. */
  lemma {:induction false} NeverStuck<A>(p: Processor<A>, limits: Limits, now: Time, steps: seq<Step>)
    requires Run(p, limits, now, steps).Some?
    ensures var s := Run(p, limits, now, steps).value;
      s.pc.Returned? || LoopCanMove(p, limits, s) || Running(s) || WaitsIdle(p, limits, s)
  {
    AlwaysSafe(p, limits, now, steps);
    AlwaysUndue(p, limits, now, steps);
    var s := Run(p, limits, now, steps).value;
    if !s.pc.Returned? {
      SafeMoves(p, limits, s);
    }
  }

  // ---------------------------------------------------------------------------
  // The loop arrives.

  /** How many steps of its own the loop is at most from waiting or returning, while
      nothing is submitted. */
  function ToGo(pc: Pc, q: Queues): nat {
    match pc
    case Top => 3
    case PollObservations => 2
    case CheckDue => 1
    case IdleSelect => 0
    case BusySelect => 0
    case Control(_, stage, _) =>
      (match stage case Cancelling => 9 case Stopping => 8 case Joining => 7 case Committing => 6 case InCommit => 5 case Replying => 4)
      + |q.observations| + |q.controls| + 4
    case Shutdown(drain) =>
      (match drain case StoppingAll => 4 case JoiningWork => 3 case DrainingObservations => 2 case DrainingControls => 1)
      + |q.observations| + |q.controls|
    case Returned => 0
  }

  /** A step with which the loop goes on, without taking anything new. */
  predicate GoesOn(step: Step) { step.AdvanceControl? || step.AdvanceShutdown? || step.SkipControls? || step.SkipObservations? || step.SkipDue? }

  /** The loop never turns in circles: every step with which it goes on brings it closer
      to waiting or returning. It passes the controls, the observations and the due wakeup
      by only when there is none. */
  lemma LoopAdvances<A>(p: Processor<A>, limits: Limits, s: State<A>, step: Step)
    requires GoesOn(step) && Next(p, limits, s, step).Some?
    ensures var t := Next(p, limits, s, step).value; ToGo(t.pc, t.queues) < ToGo(s.pc, s.queues)
    ensures step.SkipControls? ==> s.queues.controls == []
    ensures step.SkipObservations? ==> s.queues.observations == []
    ensures step.SkipDue? ==> !Due(s.alarm)
  {
  }

  /** The time of the last tick. */
  function LastTick(now: Time, steps: seq<Step>): Time {
    if steps == [] then now else if Last(steps).Tick? then Last(steps).to else LastTick(now, steps[..|steps| - 1])
  }

  /** How the loop's context first ended. */
  function FirstEnd(steps: seq<Step>): Context {
    if steps == [] then Live
    else
      var before := FirstEnd(steps[..|steps| - 1]);
      if before.Live? && Last(steps).EndContext? then Ended(Last(steps).timedOut) else before
  }

  /** Over every schedule the loop sees the surroundings as they are: the clock shows the
      last tick, and the context is live until it first ends, and ended that way since. */
  lemma {:induction false} SurroundingsAreSeen<A>(p: Processor<A>, limits: Limits, now: Time, steps: seq<Step>)
    requires Run(p, limits, now, steps).Some?
    ensures var s := Run(p, limits, now, steps).value; s.clock == LastTick(now, steps) && s.context == FirstEnd(steps)
  {
    if steps != [] {
      var before := steps[..|steps| - 1];
      SurroundingsAreSeen(p, limits, now, before);
      SurroundingsStep(p, limits, Run(p, limits, now, before).value, Last(steps));
    }
  }

  lemma SurroundingsStep<A>(p: Processor<A>, limits: Limits, s: State<A>, step: Step)
    requires Next(p, limits, s, step).Some?
    ensures var t := Next(p, limits, s, step).value;
      && t.clock == (if step.Tick? then step.to else s.clock)
      && t.context == (if s.context.Live? && step.EndContext? then Ended(step.timedOut) else s.context)
  {
  }
}
