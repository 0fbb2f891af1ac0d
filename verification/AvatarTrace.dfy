/** How a speech ends, by what its worker met on the way: the steps themselves, not what
    the worker remembers of them. */
module AvatarTrace {
  import opened Prelude
  import opened Behaviors
  import opened Avatars
  import opened AvatarRuns

  /** What the worker last met: the clock at a deadline check, the cause at a look, the
      text it was given (none if realizing failed or gave a blank), and whether speaking
      failed. */
  datatype Trace = Trace(read: Option<Time>, look: Option<Option<Cause>>, realized: Option<Option<string>>, spoken: Option<bool>)

  const UNTOUCHED := Trace(None, None, None, None)

  /** One step of the speech's own worker. */
  function Met(s: Avatar, step: Step, id: string, t: Trace): Trace {
    if !step.Work? || step.id != id || id !in s.speeches then t
    else
      match s.speeches[id].worker
      case AtDeadline(_) => t.(read := Some(s.now))
      case AtCause(_) => t.(look := Some(s.speeches[id].cause))
      case Realizing => t.(realized := Some(step.text))
      case Talking(_) => t.(spoken := Some(step.failed))
      case _ => t
  }

  function TraceAt(steps: seq<Step>, states: seq<Avatar>, id: string, n: nat): Trace
    requires n <= |steps| <= |states|
  {
    if n == 0 then UNTOUCHED else Met(states[n - 1], steps[n - 1], id, TraceAt(steps, states, id, n - 1))
  }

  /** The worker's notion of how far it got is what it met. */
  predicate StageTrue(stage: Stage, t: Trace) {
    match stage
    case Begun => t.realized.None? && t.spoken.None?
    case Realized(u) => t.realized == Some(u) && t.spoken.None?
    case Spoken(text, failed) => t.realized == Some(Some(text)) && t.spoken == Some(failed)
  }

  predicate WorkerTrue(p: Speech, t: Trace) {
    match p.worker
    case AtDeadline(stage) => StageTrue(stage, t)
    case AtCause(stage) => StageTrue(stage, t) && t.read == Some(p.read)
    case Realizing => StageTrue(Begun, t)
    case Showing(text) => StageTrue(Realized(Some(text)), t)
    case Talking(text) => StageTrue(Realized(Some(text)), t)
    case _ => StageTrue(p.stage, t) && t.look == Some(p.seen) && t.read == Some(p.read)
  }

  predicate True(s: Avatar, id: string, t: Trace) {
    if id in s.speeches then WorkerTrue(s.speeches[id], t) else t == UNTOUCHED
  }

  lemma WorkedTrue(r: Record, p: Speech, now: Time, text: Option<string>, failed: bool, t: Trace, s: Avatar, id: string)
    requires Together(r, p) && WorkerTrue(p, t) && !p.worker.Finishing? && !p.worker.Showing?
    requires id in s.speeches && s.speeches[id] == p && s.now == now
    ensures WorkerTrue(Worked(p, r.command.deadline, now, text, failed), Met(s, Work(id, text, failed), id, t))
  {
  }

  lemma StepTrue(s: Avatar, step: Step, id: string, t: Trace)
    requires Inv(s) && Enabled(s, step) && True(s, id, t)
    ensures True(Next(s, step), id, Met(s, step, id, t))
  {
    assert SpeechOk(s, id) && RecordOk(s, id);
    if step.Work? && step.id == id {
      var p := s.speeches[id];
      if !p.worker.Finishing? && !p.worker.Showing? {
        WorkedTrue(s.driver.records[id], p, s.now, step.text, step.failed, t, s, id);
      }
    }
  }

  lemma {:induction false} AlwaysTrue(hasSpeaker: bool, now: Time, steps: seq<Step>, states: seq<Avatar>, id: string, n: nat)
    requires Run(hasSpeaker, now, steps, states) && n <= |steps|
    ensures True(states[n], id, TraceAt(steps, states, id, n))
  {
    if n > 0 {
      AlwaysTrue(hasSpeaker, now, steps, states, id, n - 1);
      Always(hasSpeaker, now, steps, states, n - 1);
      assert Enabled(states[n - 1], steps[n - 1]) && states[n] == Next(states[n - 1], steps[n - 1]);
      StepTrue(states[n - 1], steps[n - 1], id, TraceAt(steps, states, id, n - 1));
    }
  }

  /** In every interleaving, how a finalized speech ended follows from the steps of its
      worker. If no cause was set at its last look, it completed exactly when speaking
      succeeded, failed as SPEECH_FAILED exactly when speaking failed, and failed as
      TEXT_REALIZATION_FAILED exactly when no text was realized; and the clock it read
      before that look was before the deadline. Otherwise it was cancelled or timed out,
      as the cause at that look says. */
  lemma {:induction false} TerminalFollowsSteps(hasSpeaker: bool, now: Time, steps: seq<Step>, states: seq<Avatar>, id: string)
    requires Run(hasSpeaker, now, steps, states) && id in Last(states).speeches
    requires id in Last(states).driver.records && Last(states).driver.records[id].finalized
    ensures |Last(states).driver.records[id].statuses| == 4
    ensures var r, t := Last(states).driver.records[id], TraceAt(steps, states, id, |steps|);
      var (state, reason) := (r.statuses[3].state, r.statuses[3].reason);
      && t.look.Some? && t.read.Some?
      && (state.Completed? <==> t.look == Some(None) && t.spoken == Some(false))
      && (state.Failed? && reason == "SPEECH_FAILED" <==> t.look == Some(None) && t.spoken == Some(true))
      && (state.Failed? && reason == "TEXT_REALIZATION_FAILED" <==> t.look == Some(None) && t.realized == Some(None))
      && (state.TimedOut? <==> t.look == Some(Some(DeadlineElapsed)) || t.look == Some(Some(ParentDeadline)))
      && (state.Cancelled? && reason == "STOP_ALL" <==> t.look == Some(Some(Stopped)))
      && (state.Cancelled? && reason == "CONTEXT_CANCELLED" <==> t.look == Some(Some(ParentCancelled)))
      && (t.look == Some(None) ==> t.read.value < r.command.deadline)
  {
    Always(hasSpeaker, now, steps, states, |steps|);
    AlwaysTrue(hasSpeaker, now, steps, states, id, |steps|);
    assert RecordOk(Last(states), id) && SpeechOk(Last(states), id);
    DistinctReasons();
  }

  lemma DistinctReasons()
    ensures "SPEECH_FAILED" != "TEXT_REALIZATION_FAILED" && "STOP_ALL" != "CONTEXT_CANCELLED"
  {
    assert "SPEECH_FAILED"[0] != "TEXT_REALIZATION_FAILED"[0] && "STOP_ALL"[0] != "CONTEXT_CANCELLED"[0];
  }

  // ---------------------------------------------------------------------------
  // The cause.

  /** The cancellation a step brings to a speech: StopAll finds it active, its parent
      context ends, its timer fires, its worker finds the deadline reached or is done. */
  function Brings(s: Avatar, step: Step, id: string): Option<Cause> {
    match step
    case StopBegins => if s.driver.active == Some(id) then Some(Stopped) else None
    case ParentEnds(k, timedOut) => if k != id then None else if timedOut then Some(ParentDeadline) else Some(ParentCancelled)
    case TimerFires(k) => if k == id then Some(DeadlineElapsed) else None
    case Work(k, _, _) =>
      if k != id || id !in s.speeches || id !in s.driver.records then None
      else if s.speeches[id].worker.AtDeadline? && s.driver.records[id].command.deadline <= s.now then Some(DeadlineElapsed)
      else if s.speeches[id].worker.Ending? then Some(Finished)
      else None
    case _ => None
  }

  /** The first cancellation since the speech was taken on. */
  function FirstCause(steps: seq<Step>, states: seq<Avatar>, id: string, n: nat): Option<Cause>
    requires n <= |steps| <= |states|
  {
    if n == 0 || id !in states[n - 1].speeches then None
    else
      var before := FirstCause(steps, states, id, n - 1);
      if before.Some? then before else Brings(states[n - 1], steps[n - 1], id)
  }

  lemma CauseStep(s: Avatar, step: Step, id: string)
    requires Inv(s) && Enabled(s, step)
    ensures id in s.speeches ==>
      && id in Next(s, step).speeches
      && Next(s, step).speeches[id].cause == if s.speeches[id].cause.Some? then s.speeches[id].cause else Brings(s, step, id)
    ensures id !in s.speeches && id in Next(s, step).speeches ==> Next(s, step).speeches[id].cause.None?
  {
    assert SpeechOk(s, id) && RecordOk(s, id);
  }

  /** In every interleaving the cause of a speech is its first cancellation, and no later
      one changes it. */
  lemma {:induction false} CauseIsFirst(hasSpeaker: bool, now: Time, steps: seq<Step>, states: seq<Avatar>, id: string, n: nat)
    requires Run(hasSpeaker, now, steps, states) && n <= |steps| && id in states[n].speeches
    ensures states[n].speeches[id].cause == FirstCause(steps, states, id, n)
  {
    if n > 0 {
      Always(hasSpeaker, now, steps, states, n - 1);
      assert Enabled(states[n - 1], steps[n - 1]) && states[n] == Next(states[n - 1], steps[n - 1]);
      CauseStep(states[n - 1], steps[n - 1], id);
      if id in states[n - 1].speeches {
        CauseIsFirst(hasSpeaker, now, steps, states, id, n - 1);
      }
    }
  }
}
