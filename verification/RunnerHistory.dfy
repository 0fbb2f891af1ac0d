/** What reaches the application: exactly the operations that the work goroutine and the
    loop's commits carried out, in that order. */
module RunnerHistory {
  import opened Prelude
  import opened Observations
  import opened Engines
  import opened EngineInvariant
  import R = EngineRuns
  import opened Runners
  import opened RunnerSafety
  import opened RunnerEngine

  // ---------------------------------------------------------------------------
  // The operations of a schedule.

  /** The operation a step carries out: completed work its own job, and the commit stage
      the rejection in hand. */
  function Deed<A>(s: State<A>, step: Step): seq<R.Input> {
    match step
    case CompleteObservation(env) => if s.active.Some? && s.active.value.job.ObservationJob? then [R.Observe(s.active.value.job.request.input, env)] else []
    case CompleteWakeup(env, _) => if s.active.Some? && s.active.value.job.WakeupJob? then [R.Wake(s.active.value.job.wakeup, env)] else []
    case AdvanceControl => if s.pc.Control? && s.pc.stage == InCommit then [R.Reject(s.pc.request.command, s.context)] else []
    case _ => []
  }

  function Deeds<A>(p: Processor<A>, limits: Limits, now: Time, steps: seq<Step>): seq<R.Input> {
    if steps == [] then []
    else
      var before := steps[..|steps| - 1];
      match Run(p, limits, now, before)
      case None => []
      case Some(s) => Deeds(p, limits, now, before) + Deed(s, Last(steps))
  }

  function Applied<A>(p: Processor<A>, inputs: seq<R.Input>): A {
    if inputs == [] then p.initial else p.apply(Applied(p, inputs[..|inputs| - 1]), Last(inputs))
  }

  lemma DeedStep<A>(p: Processor<A>, limits: Limits, s: State<A>, step: Step)
    requires Next(p, limits, s, step).Some?
    ensures var t := Next(p, limits, s, step).value;
      && t.core.history == s.core.history + Deed(s, step)
      && |Deed(s, step)| <= 1
      && t.core.app == if Deed(s, step) == [] then s.core.app else p.apply(s.core.app, Deed(s, step)[0])
  {
  }

  /** Over every schedule the application's history is exactly the operations carried out,
      and its state is what applying them one after the other gives. */
  lemma {:induction false} HistoryIsDeeds<A>(p: Processor<A>, limits: Limits, now: Time, steps: seq<Step>)
    requires Run(p, limits, now, steps).Some?
    ensures var s := Run(p, limits, now, steps).value;
      s.core.history == Deeds(p, limits, now, steps) && s.core.app == Applied(p, s.core.history)
  {
    if steps != [] {
      var before := steps[..|steps| - 1];
      HistoryIsDeeds(p, limits, now, before);
      var s, t := Run(p, limits, now, before).value, Run(p, limits, now, steps).value;
      DeedStep(p, limits, s, Last(steps));
      AppliedMore(p, s.core.history, Deed(s, Last(steps)));
    }
  }

  lemma {:induction false} AppliedMore<A>(p: Processor<A>, inputs: seq<R.Input>, more: seq<R.Input>)
    requires |more| <= 1
    ensures Applied(p, inputs + more) == if more == [] then Applied(p, inputs) else p.apply(Applied(p, inputs), more[0])
  {
    if more == [] {
      assert inputs + more == inputs;
    } else {
      assert (inputs + more)[..|inputs|] == inputs;
    }
  }

  // ---------------------------------------------------------------------------
  // The history against the loop's own log.

  /** What work is about. */
  datatype Subject = OfObservation(observation: Observation) | OfWakeup(wakeup: Wakeup)

  function SubjectOf(job: Job): Subject {
    match job case ObservationJob(r) => OfObservation(r.input) case WakeupJob(w) => OfWakeup(w)
  }

  function Rejected(history: seq<R.Input>): seq<ControlCommand> {
    if history == [] then []
    else Rejected(history[..|history| - 1]) + if Last(history).Reject? then [Last(history).command] else []
  }

  function Committed(log: seq<Event>): seq<ControlCommand> {
    if log == [] then []
    else Committed(log[..|log| - 1]) + if Last(log).CommittedRejection? then [Last(log).command] else []
  }

  function Worked(history: seq<R.Input>): seq<Subject> {
    if history == [] then []
    else
      Worked(history[..|history| - 1]) +
      match Last(history) case Observe(o, _) => [OfObservation(o)] case Wake(w, _) => [OfWakeup(w)] case Reject(_, _) => []
  }

  function Started(log: seq<Event>): seq<Subject> {
    if log == [] then []
    else Started(log[..|log| - 1]) + if Last(log).StartedWork? then [SubjectOf(Last(log).job)] else []
  }

  function InProgress<A>(s: State<A>): seq<Subject> { if Running(s) then [SubjectOf(s.active.value.job)] else [] }

  /** The rejections applied are those the log says were committed; the work applied is
      that the log says was started, but for what still runs. */
  ghost predicate Accounts<A>(s: State<A>) {
    Rejected(s.core.history) == Committed(s.ledger.log) && Worked(s.core.history) + InProgress(s) == Started(s.ledger.log)
  }

  /** At most one entry more, on the log's side and on the history's. */
  lemma {:induction false} LogMore(log: seq<Event>, more: seq<Event>)
    requires |more| <= 1
    ensures Committed(log + more) == Committed(log) + Committed(more) && Started(log + more) == Started(log) + Started(more)
  {
    if more == [] {
      assert log + more == log;
    } else {
      assert (log + more)[..|log|] == log && more[..0] == [];
    }
  }

  lemma {:induction false} HistoryMore(history: seq<R.Input>, more: seq<R.Input>)
    requires |more| <= 1
    ensures Rejected(history + more) == Rejected(history) + Rejected(more) && Worked(history + more) == Worked(history) + Worked(more)
  {
    if more == [] {
      assert history + more == history;
    } else {
      assert (history + more)[..|history|] == history && more[..0] == [];
    }
  }

  /** The one entry a step adds to the log, if any. */
  function Entry<A>(s: State<A>, step: Step): seq<Event> {
    match step
    case TakeControl => if s.queues.controls != [] then [Took(s.queues.controls[0], s.active.Some?)] else []
    case TakeObservation(live) => if live && s.queues.observations != [] then [StartedWork(ObservationJob(s.queues.observations[0]))] else []
    case StartDueWakeup => if s.alarm.scheduled.Some? then [StartedWork(WakeupJob(s.alarm.scheduled.value.wakeup))] else []
    case ReceiveResult => [FinishedWork]
    case AdvanceControl =>
      if !s.pc.Control? then []
      else (match s.pc.stage
            case Cancelling => if s.active.Some? then [CancelledWork] else []
            case Stopping => [StoppedAll]
            case Joining => if s.active.Some? then [JoinedWork] else []
            case Committing => []
            case InCommit => [CommittedRejection(s.pc.request.command)]
            case Replying => [AnsweredControl(s.pc.request.id)])
    case _ => []
  }

  lemma EntryStep<A>(p: Processor<A>, limits: Limits, s: State<A>, step: Step)
    requires Next(p, limits, s, step).Some?
    ensures Next(p, limits, s, step).value.ledger.log == s.ledger.log + Entry(s, step) && |Entry(s, step)| <= 1
  {
  }

  /** A step commits what it applies, and completes or continues what was started. */
  lemma DeedMatchesEntry<A>(p: Processor<A>, limits: Limits, s: State<A>, step: Step)
    requires Exclusive(s) && Next(p, limits, s, step).Some?
    ensures Rejected(Deed(s, step)) == Committed(Entry(s, step))
    ensures Worked(Deed(s, step)) + InProgress(Next(p, limits, s, step).value) == InProgress(s) + Started(Entry(s, step))
  {
  }

  lemma {:induction false} AccountsMove(history: seq<R.Input>, log: seq<Event>, deed: seq<R.Input>, entry: seq<Event>, before: seq<Subject>, after: seq<Subject>)
    requires |deed| <= 1 && |entry| <= 1 && Rejected(deed) == Committed(entry) && Worked(deed) + after == before + Started(entry)
    requires Rejected(history) == Committed(log) && Worked(history) + before == Started(log)
    ensures Rejected(history + deed) == Committed(log + entry) && Worked(history + deed) + after == Started(log + entry)
  {
    LogMore(log, entry);
    HistoryMore(history, deed);
    Shifted(Worked(history), Worked(deed), after, before, Started(entry));
  }

  lemma Shifted<T>(a: seq<T>, b: seq<T>, c: seq<T>, d: seq<T>, e: seq<T>)
    requires b + c == d + e
    ensures (a + b) + c == (a + d) + e
  {
    assert (a + b) + c == a + (b + c) && (a + d) + e == a + (d + e);
  }

  lemma AccountsStep<A>(p: Processor<A>, limits: Limits, s: State<A>, step: Step)
    requires Exclusive(s) && Accounts(s) && Next(p, limits, s, step).Some?
    ensures Accounts(Next(p, limits, s, step).value)
  {
    var t := Next(p, limits, s, step).value;
    DeedStep(p, limits, s, step);
    EntryStep(p, limits, s, step);
    DeedMatchesEntry(p, limits, s, step);
    AccountsMove(s.core.history, s.ledger.log, Deed(s, step), Entry(s, step), InProgress(s), InProgress(t));
  }

  /** Over every schedule, the rejections in the application's history are, in order, the
      commands of the controls whose commit is in the log; its observations and wakeups
      are, in order, those of the work the log says was started, but for what still runs. */
  lemma {:induction false} HistoryMatchesLog<A>(p: Processor<A>, limits: Limits, now: Time, steps: seq<Step>)
    requires Run(p, limits, now, steps).Some?
    ensures Accounts(Run(p, limits, now, steps).value)
  {
    if steps != [] {
      var before := steps[..|steps| - 1];
      HistoryMatchesLog(p, limits, now, before);
      AlwaysSafe(p, limits, now, before);
      AccountsStep(p, limits, Run(p, limits, now, before).value, Last(steps));
    }
  }

  // ---------------------------------------------------------------------------
  // An answered rejection was committed.

  /** Every control waiting, in hand or taken is valid; while the loop's context is live,
      so was that of every commit. */
  ghost predicate Sane<A>(s: State<A>) {
    && (forall r :: r in s.queues.controls ==> ValidControl(r.command))
    && (s.pc.Control? ==> ValidControl(s.pc.request.command))
    && (forall k :: 0 <= k < |s.core.history| && s.core.history[k].Reject? ==>
          ValidControl(s.core.history[k].command) && (s.context.Live? ==> s.core.history[k].context.Live?))
  }

  lemma SaneStep<A>(p: Processor<A>, limits: Limits, s: State<A>, step: Step)
    requires Sane(s) && Next(p, limits, s, step).Some?
    ensures Sane(Next(p, limits, s, step).value)
  {
    DeedStep(p, limits, s, step);
  }

  lemma {:induction false} AlwaysSane<A>(p: Processor<A>, limits: Limits, now: Time, steps: seq<Step>)
    requires Run(p, limits, now, steps).Some?
    ensures Sane(Run(p, limits, now, steps).value)
  {
    if steps != [] {
      AlwaysSane(p, limits, now, steps[..|steps| - 1]);
      SaneStep(p, limits, Run(p, limits, now, steps[..|steps| - 1]).value, Last(steps));
    }
  }

  lemma {:induction false} CommittedFrom(log: seq<Event>, j: nat)
    requires j < |log| && log[j].CommittedRejection?
    ensures log[j].command in Committed(log)
  {
    if j < |log| - 1 {
      CommittedFrom(log[..|log| - 1], j);
    }
  }

  lemma {:induction false} RejectedFrom(history: seq<R.Input>, command: ControlCommand) returns (k: nat)
    requires command in Rejected(history)
    ensures k < |history| && history[k].Reject? && history[k].command == command
  {
    if Last(history).Reject? && Last(history).command == command {
      k := |history| - 1;
    } else {
      k := RejectedFrom(history[..|history| - 1], command);
    }
  }

  lemma {:induction false} RejectedIds(c: Config, history: seq<R.Input>, k: nat)
    requires k < |history| && history[k].Reject? && CommitFault(c, history[k].command, history[k].context).None?
    ensures history[k].command.id in R.RejectionIds(c, history)
  {
    if k < |history| - 1 {
      RejectedIds(c, history[..|history| - 1], k);
    }
  }

  /** Over every schedule, a rejection whose control was answered was applied to the
      engine: it is in the engine's history and, for the engine's own subject and a loop
      whose context is live, among the rejections that count towards ending the episode
      and the cooldown. */
  lemma {:induction false} AnsweredRejectionIsCommitted(c: Config, limits: Limits, now: Time, steps: seq<Step>, i: nat)
    requires Run(EngineProcessor(c), limits, now, steps).Some?
    requires var log := Run(EngineProcessor(c), limits, now, steps).value.ledger.log;
      i < |log| && log[i].Took? && Rejects(log[i].request) && Scripted(log, i)
    ensures var s := Run(EngineProcessor(c), limits, now, steps).value;
      var command := s.ledger.log[i].request.command;
      && command in Rejected(s.core.history)
      && (command.subjectID == c.subjectID && s.context.Live? ==> command.id in R.RejectionIds(c, s.core.history))
  {
    var p := EngineProcessor(c);
    var s := Run(p, limits, now, steps).value;
    var log := s.ledger.log;
    HistoryMatchesLog(p, limits, now, steps);
    AlwaysSane(p, limits, now, steps);
    ScriptShape(log[i]);
    var j := i + Done(log[i], InCommit);
    assert log[j] == Script(log[i])[Done(log[i], InCommit)];
    CommittedFrom(log, j);
    var k := RejectedFrom(s.core.history, log[i].request.command);
    if log[i].request.command.subjectID == c.subjectID && s.context.Live? {
      RejectedIds(c, s.core.history, k);
    }
  }
}
