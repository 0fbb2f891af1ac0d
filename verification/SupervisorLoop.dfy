/** The supervisor's run loop over whole runs: which children are live, which commands it
    follows, and that every round reaches every worker and ends. */
module SupervisorLoop {
  import opened Prelude
  import opened Capability
  import opened Supervisors
  import opened SupervisorRuns
  import opened SupervisorSafety
  import opened SupervisorHealth
  import Privacy

  // ---------------------------------------------------------------------------
  // Children.

  /** The step launches this child. */
  ghost predicate Launches(specs: seq<Spec>, s: System, step: Step, c: Child) {
    VisitOf(specs, s, step).Some? && var v := VisitOf(specs, s, step).value;
    v.worker < |s.sup.controls| && Attempts(s.sup.controls[v.worker], v.enabled) && v.w.launch == Some(c)
  }

  /** The step ends this child: it exits, its worker is turned off, or shut down. */
  ghost predicate EndsIt(specs: seq<Spec>, s: System, step: Step, c: Child) {
    || step == Exit(c)
    || (step.CloseNext? && s.phase.Closing? && s.phase.next < |s.sup.controls| && s.sup.controls[s.phase.next].process == Some(c))
    || (VisitOf(specs, s, step).Some? && var v := VisitOf(specs, s, step).value;
        v.worker < |s.sup.controls| && !v.enabled && s.sup.controls[v.worker].process == Some(c))
  }

  lemma LiveStep(specs: seq<Spec>, s: System, step: Step, c: Child)
    requires Enabled(specs, s, step)
    ensures c in Next(specs, s, step).live <==> Launches(specs, s, step, c) || (c in s.live && !EndsIt(specs, s, step, c))
  {
  }

  /** Some step before n launched the child, and none since ended it. */
  ghost predicate StillRuns(specs: seq<Spec>, steps: seq<Step>, states: seq<System>, n: nat, c: Child)
    requires n <= |steps| <= |states|
  {
    exists k :: 0 <= k < n && Launches(specs, states[k], steps[k], c) && forall j :: k < j < n ==> !EndsIt(specs, states[j], steps[j], c)
  }

  lemma StillRunsMore(specs: seq<Spec>, steps: seq<Step>, states: seq<System>, n: nat, c: Child)
    requires 0 < n <= |steps| <= |states|
    ensures StillRuns(specs, steps, states, n, c) <==>
      || Launches(specs, states[n - 1], steps[n - 1], c)
      || (StillRuns(specs, steps, states, n - 1, c) && !EndsIt(specs, states[n - 1], steps[n - 1], c))
  {
    if StillRuns(specs, steps, states, n, c) {
      var k :| 0 <= k < n && Launches(specs, states[k], steps[k], c) && forall j :: k < j < n ==> !EndsIt(specs, states[j], steps[j], c);
      if k < n - 1 {
        assert !EndsIt(specs, states[n - 1], steps[n - 1], c);
      }
    }
  }

  /** Over every run a child is live exactly when some step launched it and none since
      ended it. */
  lemma {:induction false} LiveIff(specs: seq<Spec>, persisted: seq<Privacy.Grant>, now: Time, steps: seq<Step>, states: seq<System>, n: nat, c: Child)
    requires Run(specs, persisted, now, steps, states) && n <= |steps|
    ensures c in states[n].live <==> StillRuns(specs, steps, states, n, c)
  {
    if n > 0 {
      LiveIff(specs, persisted, now, steps, states, n - 1, c);
      assert Enabled(specs, states[n - 1], steps[n - 1]) && states[n] == Next(specs, states[n - 1], steps[n - 1]);
      LiveStep(specs, states[n - 1], steps[n - 1], c);
      StillRunsMore(specs, steps, states, n, c);
    }
  }

  /** What a step adds to the launch history. */
  ghost function ActOf(specs: seq<Spec>, s: System, step: Step): seq<Act> {
    if VisitOf(specs, s, step).None? || VisitOf(specs, s, step).value.worker >= |s.sup.controls| then []
    else
      var v := VisitOf(specs, s, step).value;
      if !v.enabled then [TurnedOff(v.worker)]
      else if s.sup.controls[v.worker].process.None? && !s.sup.controls[v.worker].failed then [Attempt(v.worker, v.w.launch)]
      else []
  }

  ghost function ActsOf(specs: seq<Spec>, steps: seq<Step>, states: seq<System>, n: nat): seq<Act>
    requires n <= |steps| <= |states|
  {
    if n == 0 then [] else ActsOf(specs, steps, states, n - 1) + ActOf(specs, states[n - 1], steps[n - 1])
  }

  /** The launch history is exactly what the reconciles did. */
  lemma {:induction false} ActsAreDeeds(specs: seq<Spec>, persisted: seq<Privacy.Grant>, now: Time, steps: seq<Step>, states: seq<System>, n: nat)
    requires Run(specs, persisted, now, steps, states) && n <= |steps|
    ensures states[n].acts == ActsOf(specs, steps, states, n)
  {
    if n > 0 {
      ActsAreDeeds(specs, persisted, now, steps, states, n - 1);
      assert Enabled(specs, states[n - 1], steps[n - 1]) && states[n] == Next(specs, states[n - 1], steps[n - 1]);
    }
  }

  // ---------------------------------------------------------------------------
  // Commands.

  function EnqueuedBy(s: System, step: Step): seq<Privacy.Command> {
    if step.Enqueue? && step.index < |s.unsent| then [s.unsent[step.index]] else []
  }

  function TakenBy(s: System, step: Step): seq<Privacy.Command> {
    if step.TakeCommand? && s.queue != [] then [s.queue[0]] else []
  }

  function AllEnqueued(steps: seq<Step>, states: seq<System>, n: nat): seq<Privacy.Command>
    requires n <= |steps| <= |states|
  {
    if n == 0 then [] else AllEnqueued(steps, states, n - 1) + EnqueuedBy(states[n - 1], steps[n - 1])
  }

  function AllTaken(steps: seq<Step>, states: seq<System>, n: nat): seq<Privacy.Command>
    requires n <= |steps| <= |states|
  {
    if n == 0 then [] else AllTaken(steps, states, n - 1) + TakenBy(states[n - 1], steps[n - 1])
  }

  lemma QueueStep(specs: seq<Spec>, s: System, step: Step)
    requires Enabled(specs, s, step) && |s.queue| <= QUEUE_LIMIT
    ensures s.queue + EnqueuedBy(s, step) == TakenBy(s, step) + Next(specs, s, step).queue
    ensures |Next(specs, s, step).queue| <= QUEUE_LIMIT
  {
    match step {
      case TakeCommand(_) => assert s.queue == [s.queue[0]] + s.queue[1..];
      case _ =>
    }
  }

  lemma Regroup(a: seq<Privacy.Command>, b: seq<Privacy.Command>, c: seq<Privacy.Command>)
    ensures (a + b) + c == a + (b + c)
  {
  }

  /** Over every run the loop takes the queued commands one by one, each once and in the
      order they were queued, and never more than the limit wait. */
  lemma {:induction false} CommandsTakenInOrder(specs: seq<Spec>, persisted: seq<Privacy.Grant>, now: Time, steps: seq<Step>, states: seq<System>, n: nat)
    requires Run(specs, persisted, now, steps, states) && n <= |steps|
    ensures AllEnqueued(steps, states, n) == AllTaken(steps, states, n) + states[n].queue
    ensures |states[n].queue| <= QUEUE_LIMIT
  {
    if n > 0 {
      CommandsTakenInOrder(specs, persisted, now, steps, states, n - 1);
      var s, step, taken := states[n - 1], steps[n - 1], AllTaken(steps, states, n - 1);
      assert Enabled(specs, s, step) && states[n] == Next(specs, s, step);
      QueueStep(specs, s, step);
      Regroup(taken, s.queue, EnqueuedBy(s, step));
      Regroup(taken, TakenBy(s, step), states[n].queue);
    }
  }

  // ---------------------------------------------------------------------------
  // Rounds.

  /** The round in progress or last made: the grants it read, how many workers it has
      reconciled. */
  datatype Pass = Pass(grants: seq<Privacy.Grant>, visited: nat)

  function PassAt(steps: seq<Step>, states: seq<System>, n: nat): Option<Pass>
    requires n <= |steps| <= |states|
  {
    if n == 0 then None
    else
      var before := PassAt(steps, states, n - 1);
      match steps[n - 1]
      case Read(ok) => if ok then Some(Pass(states[n - 1].persisted, 0)) else before
      case ReconcileNext(_) => if before.None? then None else Some(before.value.(visited := before.value.visited + 1))
      case _ => before
  }

  /** Where the loop stands in a round. */
  predicate InRound(specs: seq<Spec>, phase: Phase, pass: Option<Pass>) {
    match phase
    case Reconciling(i, grants) => pass == Some(Pass(grants, i)) && i <= |specs|
    case Listening => pass.Some? && pass.value.visited == |specs|
    case Closing(i) => i <= |specs|
    case _ => true
  }

  /** Over every run, a round reconciles the workers one after the other with the grants
      persisted when it began, and the loop listens only after a round that reached every
      worker. */
  lemma {:induction false} RoundsReachEveryWorker(specs: seq<Spec>, persisted: seq<Privacy.Grant>, now: Time, steps: seq<Step>, states: seq<System>, n: nat)
    requires Run(specs, persisted, now, steps, states) && n <= |steps|
    ensures InRound(specs, states[n].phase, PassAt(steps, states, n))
    ensures n > 0 && steps[n - 1].ReconcileNext? ==>
      && PassAt(steps, states, n).Some? && PassAt(steps, states, n).value.visited > 0
      && VisitOf(specs, states[n - 1], steps[n - 1]).Some?
      && (var v, p := VisitOf(specs, states[n - 1], steps[n - 1]).value, PassAt(steps, states, n).value;
          v.worker == p.visited - 1 < |specs| && v.enabled == PermissionEnabled(p.grants, specs[v.worker].permission))
  {
    if n > 0 {
      RoundsReachEveryWorker(specs, persisted, now, steps, states, n - 1);
      assert Enabled(specs, states[n - 1], steps[n - 1]) && states[n] == Next(specs, states[n - 1], steps[n - 1]);
    }
  }

  /** How many steps of its own the loop is from listening or returning. */
  function ToGo(specs: seq<Spec>, phase: Phase): int {
    match phase
    case Reading(_) => |specs| + 2
    case Reconciling(i, _) => |specs| - i + 1
    case Closing(i) => |specs| - i + 1
    case _ => 0
  }

  /** A step of the loop itself. */
  predicate OwnStep(step: Step) { step.Read? || step.ReconcileNext? || step.Finish? || step.CloseNext? || step.Return? }

  /** The loop is never stuck in a round or a shutdown: in every reachable state that is
      not listening, returned or not yet run, it has a step of its own, whatever honest
      answer the world gives; every such step brings it closer; and it arrives listening
      after a round, or returned after a shutdown. A failed read ends the loop, after a
      shutdown unless nothing was started yet. */
  lemma {:induction false} RoundsEnd(specs: seq<Spec>, persisted: seq<Privacy.Grant>, now: Time, steps: seq<Step>, states: seq<System>, n: nat, w: World)
    requires Run(specs, persisted, now, steps, states) && n <= |steps|
    requires states[n].phase.Reading? || states[n].phase.Reconciling? || states[n].phase.Closing?
    requires |states[n].sup.controls| == |specs| && StampSet(w.stamp)
    requires states[n].phase.Reconciling? && states[n].phase.next < |specs| ==> Honest(states[n], states[n].phase.next, w)
    ensures exists step :: OwnStep(step) && Enabled(specs, states[n], step)
    ensures forall step :: OwnStep(step) && Enabled(specs, states[n], step) ==>
      var p, q := states[n].phase, Next(specs, states[n], step).phase;
      && 0 <= ToGo(specs, q) < ToGo(specs, p)
      && (match p
          case Reading(first) => if step.ok then q == Reconciling(0, states[n].persisted) else if first then q.Returned? else q == Closing(0)
          case Reconciling(_, grants) => q.Listening? || (q.Reconciling? && q.grants == grants)
          case _ => q.Closing? || q.Returned?)
  {
    RoundsReachEveryWorker(specs, persisted, now, steps, states, n);
    var s := states[n];
    var step :=
      if s.phase.Reading? then Read(true)
      else if s.phase.Reconciling? then (if s.phase.next < |specs| then ReconcileNext(w) else Finish)
      else if s.phase.next < |specs| then CloseNext(w.stamp) else Return;
    assert OwnStep(step) && Enabled(specs, s, step);
  }

  /** From listening, new leases and the periodic wake start a round, a stop starts the
      shutdown, and a command starts neither. */
  lemma ListeningLeadsTo(specs: seq<Spec>, s: System, step: Step)
    requires Enabled(specs, s, step) && s.phase.Listening?
    ensures var q := Next(specs, s, step).phase;
      && (q == Reading(false) <==> step.TakeLeases? || step.TakeWake?)
      && (q == Closing(0) <==> step.TakeStop?)
      && (q.Listening? <==> !step.TakeLeases? && !step.TakeWake? && !step.TakeStop?)
  {
  }
}
