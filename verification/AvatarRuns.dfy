/** Whole runs of the avatar driver: callers of Execute and StopAll, speech workers,
    their deadline watchers, parent contexts and the clock, interleaved in any way. */
module AvatarRuns {
  import opened Prelude
  import opened Behaviors
  import opened Avatars
  import Dispatch

  /** What a speech worker has behind it when it checks whether to go on. A text is
      missing when realizing it failed or gave a blank. */
  datatype Stage = Begun | Realized(utterance: Option<string>) | Spoken(text: string, failed: bool)

  datatype Worker =
    | AtDeadline(stage: Stage)
    | AtCause(stage: Stage)
    | Realizing
    | Showing(text: string)
    | Talking(text: string)
    | Ending(t: Terminal)
    | Joining(t: Terminal)
    | Finishing(t: Terminal)
    | ClosingStream
    | ClosingDone
    | Gone

  /** One speech ever taken on. The cause is written once. read and seen are the last
      clock value and the last cause the worker looked at, at the stage it had
      reached; stream is all that was sent to the caller. */
  datatype Speech = Speech(
    cause: Option<Cause>,
    watching: bool,
    worker: Worker,
    read: Time,
    seen: Option<Cause>,
    stage: Stage,
    stream: seq<ActionStatus>,
    closed: bool)

  /** A call of StopAll and the speech it cancelled. */
  datatype Stop = Stop(target: Option<string>, asked: bool, returned: bool)

  datatype Avatar = Avatar(now: Time, driver: Driver, speeches: map<string, Speech>, stops: seq<Stop>)

  datatype Step =
    | Tick(to: Time)
    | Execute(command: ActionCommand, context: Option<Fault>)
    | ParentEnds(id: string, timedOut: bool)
    | Work(id: string, text: Option<string>, failed: bool)
    | TimerFires(id: string)
    | WatcherLeaves(id: string)
    | StopBegins
    | StopAsks(call: nat)
    | StopReturns(call: nat)

  function Initial(hasSpeaker: bool, now: Time): Avatar {
    Avatar(now, Driver(hasSpeaker, map[], None, Update(0, Idle, "", false, "", now)), map[], [])
  }

  /** Only the first cancellation counts. */
  function Cancel(p: Speech, c: Cause): Speech { if p.cause.None? then p.(cause := Some(c)) else p }

  /** How the speech ends at a check, if it does not go on. */
  function Decided(seen: Option<Cause>, stage: Stage): Option<Terminal> {
    var text := if stage.Spoken? then stage.text else "";
    match TerminalFromCause(seen)
    case Some((state, reason)) => Some(Terminal(state, reason, text, stage.Spoken?))
    case None =>
      match stage
      case Begun => None
      case Realized(t) => if t.None? then Some(Terminal(Failed, "TEXT_REALIZATION_FAILED", "", false)) else None
      case Spoken(t, failed) => Some(if failed then Terminal(Failed, "SPEECH_FAILED", t, true) else Terminal(Completed, "", t, true))
  }

  /** Where the worker goes when it goes on. */
  function Onward(stage: Stage): Worker {
    match stage
    case Begun => Realizing
    case Realized(t) => if t.Some? then Showing(t.value) else Gone
    case Spoken(_, _) => Gone
  }

  /** One worker step that touches its own speech only. */
  function Worked(p: Speech, deadline: Time, now: Time, text: Option<string>, failed: bool): Speech {
    match p.worker
    case AtDeadline(stage) => (if now >= deadline then Cancel(p, DeadlineElapsed) else p).(worker := AtCause(stage), read := now)
    case AtCause(stage) =>
      var looked := p.(seen := p.cause, stage := stage);
      (match Decided(p.cause, stage)
       case Some(t) => looked.(worker := Ending(t))
       case None => looked.(worker := Onward(stage)))
    case Realizing => p.(worker := AtDeadline(Realized(text)))
    case Talking(said) => p.(worker := AtDeadline(Spoken(said, failed)))
    case Ending(t) => Cancel(p, Finished).(worker := Joining(t))
    case Joining(t) => p.(worker := Finishing(t))
    case ClosingStream => p.(closed := true, worker := ClosingDone)
    case ClosingDone => p.(worker := Gone)
    case _ => p
  }

  predicate HasWorker(s: Avatar, id: string) {
    id in s.speeches && id in s.driver.records && !s.speeches[id].worker.Gone?
  }

  predicate Enabled(s: Avatar, step: Step) {
    match step
    case Tick(to) => to >= s.now
    case Execute(_, _) => true
    case ParentEnds(id, _) => id in s.speeches
    case Work(id, _, _) => HasWorker(s, id) && (s.speeches[id].worker.Joining? ==> !s.speeches[id].watching)
    case TimerFires(id) => id in s.speeches && id in s.driver.records && s.speeches[id].watching && s.now >= s.driver.records[id].command.deadline
    case WatcherLeaves(id) => id in s.speeches && s.speeches[id].watching && s.speeches[id].cause.Some?
    case StopBegins => true
    case StopAsks(k) => k < |s.stops| && !s.stops[k].asked
    case StopReturns(k) =>
      && k < |s.stops| && s.stops[k].asked && !s.stops[k].returned
      && (s.stops[k].target.Some? ==> s.stops[k].target.value in s.speeches && s.speeches[s.stops[k].target.value].worker.Gone?)
  }

  function WithSpeech(s: Avatar, id: string, p: Speech): Avatar { s.(speeches := s.speeches[id := p]) }

  /** A worker step, including the two that take the driver's lock. */
  function WorkStep(s: Avatar, id: string, text: Option<string>, failed: bool): Avatar
    requires HasWorker(s, id)
  {
    var p := s.speeches[id];
    match p.worker
    case Showing(t) =>
      WithSpeech(s, id, p.(worker := Talking(t))).(driver := Published(s.driver, Mode.Speaking, t, true, id, s.now))
    case Finishing(t) =>
      var status := NewStatus(s.driver.records[id].command, t.state, s.now, t.reason);
      WithSpeech(s, id, p.(worker := ClosingStream, stream := p.stream + [status])).(driver := FinishedSpeech(s.driver, id, t, s.now))
    case _ => WithSpeech(s, id, Worked(p, s.driver.records[id].command.deadline, s.now, text, failed))
  }

  function ExecuteStep(s: Avatar, c: ActionCommand, context: Option<Fault>): Avatar {
    var t := s.(driver := Executed(s.driver, s.now, c, context));
    if Takes(s.driver, s.now, c, context) && c.action.actionType.Speak? then
      WithSpeech(t, c.id, Speech(None, true, AtDeadline(Begun), s.now, None, Begun, InitialStatuses(c, s.now), false))
    else t
  }

  function StopStep(s: Avatar): Avatar {
    var stopping := s.(stops := s.stops + [Stop(s.driver.active, false, false)]);
    if s.driver.active.Some? && s.driver.active.value in s.speeches then
      WithSpeech(stopping, s.driver.active.value, Cancel(s.speeches[s.driver.active.value], Stopped))
    else stopping
  }

  function Next(s: Avatar, step: Step): Avatar
    requires Enabled(s, step)
  {
    match step
    case Tick(to) => s.(now := to)
    case Execute(c, context) => ExecuteStep(s, c, context)
    case ParentEnds(id, timedOut) => WithSpeech(s, id, Cancel(s.speeches[id], if timedOut then ParentDeadline else ParentCancelled))
    case Work(id, text, failed) => WorkStep(s, id, text, failed)
    case TimerFires(id) => WithSpeech(s, id, Cancel(s.speeches[id], DeadlineElapsed).(watching := false))
    case WatcherLeaves(id) => WithSpeech(s, id, s.speeches[id].(watching := false))
    case StopBegins => StopStep(s)
    case StopAsks(k) => s.(stops := s.stops[k := s.stops[k].(asked := true)])
    case StopReturns(k) =>
      s.(stops := s.stops[k := s.stops[k].(returned := true)], driver := Published(s.driver, Idle, "", false, "", s.now))
  }

  predicate Run(hasSpeaker: bool, now: Time, steps: seq<Step>, states: seq<Avatar>) {
    && |states| == |steps| + 1 && states[0] == Initial(hasSpeaker, now)
    && forall i {:trigger steps[i]} :: 0 <= i < |steps| ==> Enabled(states[i], steps[i]) && states[i + 1] == Next(states[i], steps[i])
  }

  // ---------------------------------------------------------------------------
  // The invariant.

  predicate StatesAre(statuses: seq<ActionStatus>, c: ActionCommand) {
    forall i :: 0 <= i < |statuses| ==>
      statuses[i].actionID == c.id && statuses[i].interactionID == c.interactionID && statuses[i].traceID == c.traceID
  }

  /** Dispatched, accepted, started, and one terminal exactly when finalized. */
  predicate Lifecycle(r: Record) {
    && |r.statuses| == (if r.finalized then 4 else 3)
    && r.statuses[0].state.Dispatched? && r.statuses[1].state.Accepted? && r.statuses[2].state.Started?
    && (r.finalized ==> Dispatch.Terminal(r.statuses[3].state))
    && StatesAre(r.statuses, r.command)
  }

  /** Whether the worker has yet to record how its speech ended. */
  predicate Unfinished(w: Worker) { !w.ClosingStream? && !w.ClosingDone? && !w.Gone? }

  predicate Deciding(w: Worker) { w.Ending? || w.Joining? || w.Finishing? }

  /** A decision rests on the cause and the clock the worker last looked at; a cause
      it saw is still the cause. */
  predicate DecisionOk(p: Speech, deadline: Time) {
    && (p.seen.Some? ==> p.cause == p.seen) && p.seen != Some(Finished)
    && (p.worker.AtCause? && p.read >= deadline ==> p.cause.Some?)
    && (Deciding(p.worker) || !Unfinished(p.worker) ==> Decided(p.seen, p.stage).Some? && (p.seen.None? ==> p.read < deadline))
    && (Deciding(p.worker) ==> p.worker.t == Decided(p.seen, p.stage).value)
    && (p.worker.Joining? || p.worker.Finishing? || !Unfinished(p.worker) ==> p.cause.Some?)
    && (p.cause == Some(Finished) ==> p.worker.Joining? || p.worker.Finishing? || !Unfinished(p.worker))
  }

  /** A speech and its record tell the same story. */
  predicate Together(r: Record, p: Speech) {
    && r.command.action.actionType.Speak?
    && (Unfinished(p.worker) <==> !r.finalized)
    && p.stream == r.statuses
    && (p.closed <==> p.worker.ClosingDone? || p.worker.Gone?)
    && DecisionOk(p, r.command.deadline)
    && (r.finalized && |p.stream| == 4 ==>
          var t := Decided(p.seen, p.stage);
          t.Some? && p.stream[3].state == t.value.state && p.stream[3].reason == t.value.reason)
  }

  predicate SpeechOk(s: Avatar, id: string) {
    id in s.speeches ==> id in s.driver.records && Together(s.driver.records[id], s.speeches[id])
  }

  predicate RecordOk(s: Avatar, id: string) {
    id in s.driver.records ==>
      && s.driver.records[id].command.id == id && Lifecycle(s.driver.records[id])
      && (!s.driver.records[id].finalized <==> s.driver.active == Some(id))
      && (!s.driver.records[id].finalized ==> id in s.speeches)
      && (s.driver.records[id].command.action.actionType.Speak? ==> id in s.speeches)
      && (!s.driver.records[id].command.action.actionType.Speak? ==> Last(s.driver.records[id].statuses).state.Completed?)
  }

  predicate StopOk(s: Avatar, stop: Stop) {
    stop.target.Some? ==>
      && stop.target.value in s.speeches && s.speeches[stop.target.value].cause.Some?
      && (stop.returned ==> s.speeches[stop.target.value].worker.Gone?)
  }

  ghost predicate Inv(s: Avatar) {
    && (forall id :: RecordOk(s, id))
    && (forall id :: SpeechOk(s, id))
    && (forall k :: 0 <= k < |s.stops| ==> StopOk(s, s.stops[k]))
    && (s.driver.active.Some? ==> s.driver.active.value in s.driver.records)
  }

  // ---------------------------------------------------------------------------
  // Every step keeps it.

  /** A speech only moves forward: its cause stays, and a gone worker stays gone. */
  predicate Forward(p: Speech, q: Speech) {
    && (p.cause.Some? ==> q.cause == p.cause)
    && (p.worker.Gone? ==> q.worker.Gone?)
  }

  /** A step that moves one speech and leaves the records alone. */
  lemma SpeechMoves(s: Avatar, t: Avatar, id: string, q: Speech)
    requires Inv(s) && id in s.speeches && id in s.driver.records && Together(s.driver.records[id], q) && Forward(s.speeches[id], q)
    requires t.speeches == s.speeches[id := q] && t.driver.records == s.driver.records && t.driver.active == s.driver.active
    requires t.stops == s.stops
    ensures Inv(t)
  {
    forall i ensures RecordOk(t, i) && SpeechOk(t, i) {
      assert RecordOk(s, i) && SpeechOk(s, i);
    }
    forall k | 0 <= k < |t.stops| ensures StopOk(t, t.stops[k]) {
      assert StopOk(s, s.stops[k]);
    }
  }

  lemma CancelTogether(r: Record, p: Speech, c: Cause)
    requires Together(r, p) && c != Finished
    ensures Together(r, Cancel(p, c)) && Forward(p, Cancel(p, c))
  {
  }

  lemma WorkedTogether(r: Record, p: Speech, now: Time, text: Option<string>, failed: bool)
    requires Together(r, p) && !p.worker.Finishing? && !p.worker.Showing?
    ensures Together(r, Worked(p, r.command.deadline, now, text, failed)) && Forward(p, Worked(p, r.command.deadline, now, text, failed))
  {
  }

  /** A decision is always terminal. */
  lemma DecidedIsTerminal(seen: Option<Cause>, stage: Stage)
    ensures Decided(seen, stage).Some? ==> Dispatch.Terminal(Decided(seen, stage).value.state)
  {
  }

  lemma FinishTogether(r: Record, p: Speech, status: ActionStatus)
    requires Together(r, p) && Lifecycle(r) && p.worker.Finishing?
    requires status == NewStatus(r.command, p.worker.t.state, status.occurredAt, p.worker.t.reason)
    ensures var finished := r.(statuses := r.statuses + [status], finalized := true);
      Lifecycle(finished) && Together(finished, p.(worker := ClosingStream, stream := p.stream + [status]))
  {
    DecidedIsTerminal(p.seen, p.stage);
  }

  lemma FinishKeeps(s: Avatar, id: string)
    requires Inv(s) && HasWorker(s, id) && s.speeches[id].worker.Finishing?
    ensures Inv(WorkStep(s, id, None, false))
  {
    var t, p, r := WorkStep(s, id, None, false), s.speeches[id], s.driver.records[id];
    assert RecordOk(s, id) && SpeechOk(s, id);
    FinishTogether(r, p, NewStatus(r.command, p.worker.t.state, s.now, p.worker.t.reason));
    assert t.driver.active.None?;
    OthersUntouched(s, t, id);
  }

  /** Finishing one speech leaves every other record and speech as it was. */
  lemma OthersUntouched(s: Avatar, t: Avatar, id: string)
    requires Inv(s) && s.driver.active == Some(id) && t.driver.active.None?
    requires id in s.speeches && id in t.speeches && id in t.driver.records && t.stops == s.stops
    requires t.speeches == s.speeches[id := t.speeches[id]] && t.driver.records == s.driver.records[id := t.driver.records[id]]
    requires t.driver.records[id].finalized && t.driver.records[id].command.id == id && Lifecycle(t.driver.records[id])
    requires Together(t.driver.records[id], t.speeches[id]) && Forward(s.speeches[id], t.speeches[id])
    ensures Inv(t)
  {
    forall i ensures RecordOk(t, i) && SpeechOk(t, i) {
      assert RecordOk(s, i) && SpeechOk(s, i);
    }
    forall k | 0 <= k < |t.stops| ensures StopOk(t, t.stops[k]) {
      assert StopOk(s, s.stops[k]);
    }
  }

  lemma WorkKeeps(s: Avatar, id: string, text: Option<string>, failed: bool)
    requires Inv(s) && Enabled(s, Work(id, text, failed))
    ensures Inv(WorkStep(s, id, text, failed))
  {
    var p := s.speeches[id];
    assert RecordOk(s, id) && SpeechOk(s, id);
    var t := WorkStep(s, id, text, failed);
    if p.worker.Finishing? {
      FinishKeeps(s, id);
    } else if p.worker.Showing? {
      SpeechMoves(s, t, id, p.(worker := Talking(p.worker.text)));
    } else {
      WorkedTogether(s.driver.records[id], p, s.now, text, failed);
      SpeechMoves(s, t, id, Worked(p, s.driver.records[id].command.deadline, s.now, text, failed));
    }
  }

  lemma ExecuteKeeps(s: Avatar, c: ActionCommand, context: Option<Fault>)
    requires Inv(s)
    ensures Inv(ExecuteStep(s, c, context))
  {
    var t := ExecuteStep(s, c, context);
    assert SpeechOk(s, c.id);
    forall i ensures RecordOk(t, i) {
      assert RecordOk(s, i) && SpeechOk(s, i);
    }
    forall i ensures SpeechOk(t, i) {
      assert RecordOk(s, i) && SpeechOk(s, i);
    }
    ExecuteStops(s, c, context);
  }

  lemma ExecuteStops(s: Avatar, c: ActionCommand, context: Option<Fault>)
    requires Inv(s)
    ensures var t := ExecuteStep(s, c, context); forall k :: 0 <= k < |t.stops| ==> StopOk(t, t.stops[k])
  {
    var t := ExecuteStep(s, c, context);
    assert SpeechOk(s, c.id);
    forall k | 0 <= k < |t.stops| ensures StopOk(t, t.stops[k]) {
      assert StopOk(s, s.stops[k]);
    }
  }

  lemma StopKeeps(s: Avatar)
    requires Inv(s)
    ensures Inv(StopStep(s))
  {
    var t := StopStep(s);
    if s.driver.active.Some? {
      var id := s.driver.active.value;
      assert RecordOk(s, id) && SpeechOk(s, id);
      CancelTogether(s.driver.records[id], s.speeches[id], Stopped);
      SpeechMoves(s, t.(stops := s.stops), id, Cancel(s.speeches[id], Stopped));
    }
    SameDriver(t.(stops := s.stops), t);
    forall k | 0 <= k < |t.stops| ensures StopOk(t, t.stops[k]) {
      if k < |s.stops| {
        assert StopOk(t.(stops := s.stops), s.stops[k]);
      }
    }
  }

  /** Records and speeches do not depend on the stops, the clock or what is shown. */
  lemma SameDriver(s: Avatar, t: Avatar)
    requires (forall id :: RecordOk(s, id)) && (forall id :: SpeechOk(s, id))
    requires t.speeches == s.speeches && t.driver.records == s.driver.records && t.driver.active == s.driver.active
    ensures (forall id :: RecordOk(t, id)) && (forall id :: SpeechOk(t, id))
  {
    forall i ensures RecordOk(t, i) && SpeechOk(t, i) {
      assert RecordOk(s, i) && SpeechOk(s, i);
    }
  }

  lemma StepKeeps(s: Avatar, step: Step)
    requires Inv(s) && Enabled(s, step)
    ensures Inv(Next(s, step))
  {
    var t := Next(s, step);
    match step {
      case Execute(c, context) => ExecuteKeeps(s, c, context);
      case Work(id, text, failed) => WorkKeeps(s, id, text, failed);
      case ParentEnds(id, timedOut) =>
        assert SpeechOk(s, id);
        CancelTogether(s.driver.records[id], s.speeches[id], if timedOut then ParentDeadline else ParentCancelled);
        SpeechMoves(s, t, id, t.speeches[id]);
      case TimerFires(id) =>
        assert SpeechOk(s, id);
        CancelTogether(s.driver.records[id], s.speeches[id], DeadlineElapsed);
        SpeechMoves(s, t, id, t.speeches[id]);
      case WatcherLeaves(id) =>
        assert SpeechOk(s, id);
        SpeechMoves(s, t, id, t.speeches[id]);
      case StopBegins => StopKeeps(s);
      case _ =>
        SameDriver(s, t);
        forall k | 0 <= k < |t.stops| ensures StopOk(t, t.stops[k]) {
          assert StopOk(s, s.stops[k]);
        }
    }
  }

  lemma {:induction false} Always(hasSpeaker: bool, now: Time, steps: seq<Step>, states: seq<Avatar>, n: nat)
    requires Run(hasSpeaker, now, steps, states) && n < |states|
    ensures Inv(states[n])
  {
    if n > 0 {
      Always(hasSpeaker, now, steps, states, n - 1);
      StepKeeps(states[n - 1], steps[n - 1]);
    }
  }

  // ---------------------------------------------------------------------------
  // The theorems.

  /** Every action ever taken on has the statuses dispatched, accepted, started, and
      then one terminal status exactly when it is finalized. */
  lemma StatusListsAreLifecycles(hasSpeaker: bool, now: Time, steps: seq<Step>, states: seq<Avatar>, id: string)
    requires Run(hasSpeaker, now, steps, states) && id in Last(states).driver.records
    ensures Last(states).driver.records[id].command.id == id && Lifecycle(Last(states).driver.records[id])
  {
    Always(hasSpeaker, now, steps, states, |steps|);
    assert RecordOk(Last(states), id);
  }

  /** An unfinalized record exists exactly while a speech is active; it is that
      speech's, so there is never a second one. */
  lemma UnfinalizedIffActive(hasSpeaker: bool, now: Time, steps: seq<Step>, states: seq<Avatar>, id: string)
    requires Run(hasSpeaker, now, steps, states)
    ensures var d := Last(states).driver;
      d.active == Some(id) <==> id in d.records && !d.records[id].finalized
  {
    Always(hasSpeaker, now, steps, states, |steps|);
    assert RecordOk(Last(states), id);
  }

  /** How a finalized speech ended follows from what its worker saw at its last
      check. Cancelled and timed out name a cause that is still the cause; completed
      and failed mean that no cancellation had happened, and that the clock was still
      before the deadline, when the worker looked after its last foreign call. */
  lemma TerminalFollowsCause(hasSpeaker: bool, now: Time, steps: seq<Step>, states: seq<Avatar>, id: string)
    requires Run(hasSpeaker, now, steps, states) && id in Last(states).speeches
    requires id in Last(states).driver.records && Last(states).driver.records[id].finalized
    ensures |Last(states).driver.records[id].statuses| == 4
    ensures var r, p := Last(states).driver.records[id], Last(states).speeches[id];
      var end := r.statuses[3];
      && (end.state.Completed? || end.state.Failed? || end.state.Cancelled? || end.state.TimedOut?)
      && (end.state.Cancelled? || end.state.TimedOut? <==> TerminalFromCause(p.seen).Some?)
      && (end.state.Cancelled? || end.state.TimedOut? ==> p.cause == p.seen && TerminalFromCause(p.cause) == Some((end.state, end.reason)))
      && (end.state.Completed? || end.state.Failed? ==> p.seen.None? && p.read < r.command.deadline)
      && (end.state.Completed? <==> p.seen.None? && p.stage.Spoken? && !p.stage.failed)
  {
    Always(hasSpeaker, now, steps, states, |steps|);
    assert RecordOk(Last(states), id) && SpeechOk(Last(states), id);
  }

  /** The stream a speech's caller reads holds the record's statuses. There is always
      room for the terminal one, so the worker never blocks on a slow reader, and a
      closed stream is complete. */
  lemma StreamCarriesTheRecord(hasSpeaker: bool, now: Time, steps: seq<Step>, states: seq<Avatar>, id: string)
    requires Run(hasSpeaker, now, steps, states) && id in Last(states).speeches
    ensures id in Last(states).driver.records
    ensures var r, p := Last(states).driver.records[id], Last(states).speeches[id];
      && p.stream == r.statuses && |p.stream| <= 4
      && (p.worker.Finishing? ==> |p.stream| == 3)
      && (p.closed ==> r.finalized && |r.statuses| == 4)
      && (p.closed ==> (Dispatch.Judge(Dispatch.Stream(p.stream, Dispatch.Closed)).None? <==> r.statuses[3].state.Completed?))
  {
    Always(hasSpeaker, now, steps, states, |steps|);
    assert SpeechOk(Last(states), id) && RecordOk(Last(states), id);
    var p := Last(states).speeches[id];
    if p.closed {
      Dispatch.JudgeClean(Dispatch.Stream(p.stream, Dispatch.Closed));
    }
  }

  /** When StopAll returns, the speech it found active has ended and its stream is
      closed. */
  lemma StopAllJoins(hasSpeaker: bool, now: Time, steps: seq<Step>, states: seq<Avatar>, k: nat)
    requires Run(hasSpeaker, now, steps, states) && k < |Last(states).stops|
    requires Last(states).stops[k].returned && Last(states).stops[k].target.Some?
    ensures var id := Last(states).stops[k].target.value;
      && id in Last(states).speeches && Last(states).speeches[id].closed
      && id in Last(states).driver.records && Last(states).driver.records[id].finalized
      && Last(states).driver.active != Some(id)
  {
    Always(hasSpeaker, now, steps, states, |steps|);
    var id := Last(states).stops[k].target.value;
    assert StopOk(Last(states), Last(states).stops[k]) && SpeechOk(Last(states), id) && RecordOk(Last(states), id);
  }

  /** Nothing inside the driver waits forever: whenever a speech is active, its worker
      can move, or its watcher can and then lets the worker move. */
  lemma ActiveSpeechCanMove(hasSpeaker: bool, now: Time, steps: seq<Step>, states: seq<Avatar>, text: Option<string>, failed: bool)
    requires Run(hasSpeaker, now, steps, states) && Last(states).driver.active.Some?
    ensures var s := Last(states);
      var id := s.driver.active.value;
      Enabled(s, Work(id, text, failed)) ||
      (Enabled(s, WatcherLeaves(id)) && Enabled(Next(s, WatcherLeaves(id)), Work(id, text, failed)))
  {
    Always(hasSpeaker, now, steps, states, |steps|);
    var id := Last(states).driver.active.value;
    assert RecordOk(Last(states), id) && SpeechOk(Last(states), id);
  }

  /** How many steps a worker is at most from its end. */
  function ToGo(w: Worker): nat {
    match w
    case AtDeadline(stage) => (match stage case Begun => 14 case Realized(_) => 11 case Spoken(_, _) => 7)
    case AtCause(stage) => (match stage case Begun => 13 case Realized(_) => 10 case Spoken(_, _) => 6)
    case Realizing => 12
    case Showing(_) => 9
    case Talking(_) => 8
    case Ending(_) => 5
    case Joining(_) => 4
    case Finishing(_) => 3
    case ClosingStream => 2
    case ClosingDone => 1
    case Gone => 0
  }

  /** A speech cannot go on forever: every step of its worker brings it closer to its end,
      and no other step takes it back. So it ends after at most fourteen of them. */
  lemma {:induction false} WorkersEnd(hasSpeaker: bool, now: Time, steps: seq<Step>, states: seq<Avatar>, n: nat, id: string)
    requires Run(hasSpeaker, now, steps, states) && n < |steps| && id in states[n].speeches
    ensures id in states[n + 1].speeches
    ensures var before, after := ToGo(states[n].speeches[id].worker), ToGo(states[n + 1].speeches[id].worker);
      before <= 14 && (if steps[n].Work? && steps[n].id == id then after < before else after == before)
  {
    Always(hasSpeaker, now, steps, states, n);
    assert Enabled(states[n], steps[n]) && states[n + 1] == Next(states[n], steps[n]);
    ToGoStep(states[n], steps[n], id);
  }

  lemma ToGoStep(s: Avatar, step: Step, id: string)
    requires Inv(s) && Enabled(s, step) && id in s.speeches
    ensures id in Next(s, step).speeches
    ensures var before, after := ToGo(s.speeches[id].worker), ToGo(Next(s, step).speeches[id].worker);
      before <= 14 && (if step.Work? && step.id == id then after < before else after == before)
  {
    assert SpeechOk(s, id);
  }

  /** Without a speaker there is never a speech. */
  lemma {:induction false} SilentWithoutSpeaker(now: Time, steps: seq<Step>, states: seq<Avatar>, n: nat)
    requires Run(false, now, steps, states) && n < |states|
    ensures !states[n].driver.hasSpeaker && states[n].speeches == map[]
  {
    if n > 0 {
      SilentWithoutSpeaker(now, steps, states, n - 1);
      assert Enabled(states[n - 1], steps[n - 1]) && states[n] == Next(states[n - 1], steps[n - 1]);
    }
  }

  // ---------------------------------------------------------------------------
  // Replay.

  lemma StepKeepsFinalized(s: Avatar, step: Step, id: string)
    requires Inv(s) && Enabled(s, step) && id in s.driver.records && s.driver.records[id].finalized
    ensures id in Next(s, step).driver.records && Next(s, step).driver.records[id] == s.driver.records[id]
  {
    if step.Work? {
      assert SpeechOk(s, step.id);
    }
  }

  lemma {:induction false} FinalizedForever(hasSpeaker: bool, now: Time, steps: seq<Step>, states: seq<Avatar>, id: string, m: nat, n: nat)
    requires Run(hasSpeaker, now, steps, states) && m <= n < |states|
    requires id in states[m].driver.records && states[m].driver.records[id].finalized
    ensures id in states[n].driver.records && states[n].driver.records[id] == states[m].driver.records[id]
  {
    if m < n {
      FinalizedForever(hasSpeaker, now, steps, states, id, m, n - 1);
      Always(hasSpeaker, now, steps, states, n - 1);
      StepKeepsFinalized(states[n - 1], steps[n - 1], id);
    }
  }

  /** Sending a finalized command again, at any later moment and even after its
      deadline, gives back the very statuses it ended with and changes nothing. */
  lemma ReplayIsInert(hasSpeaker: bool, now: Time, steps: seq<Step>, states: seq<Avatar>, c: ActionCommand, m: nat, n: nat)
    requires Run(hasSpeaker, now, steps, states) && m <= n < |states|
    requires c.id in states[m].driver.records && states[m].driver.records[c.id].finalized && states[m].driver.records[c.id].command == c
    requires ValidCommand(c)
    ensures ExecuteResult(states[n].driver, states[n].now, c, None) == Ok(states[m].driver.records[c.id].statuses)
    ensures ExecuteStep(states[n], c, None) == states[n]
  {
    FinalizedForever(hasSpeaker, now, steps, states, c.id, m, n);
  }
}
