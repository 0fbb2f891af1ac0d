/** What the avatar shows, over whole runs: the last visible thing that happened, and
    speaking only while a speech speaks. */
module AvatarShown {
  import opened Prelude
  import opened Behaviors
  import opened Avatars
  import opened AvatarRuns
  import opened AvatarTrace

  datatype Picture = Picture(mode: Mode, text: string, speaking: bool, actionID: string)

  function Shown(u: Update): Picture { Picture(u.mode, u.text, u.speaking, u.actionID) }

  /** What a visual action shows. */
  predicate Pictures(a: ActionType, p: Picture, id: string) {
    && p.text == "" && !p.speaking && p.actionID == id
    && (p.mode.Attending? <==> a.AttendUser?) && (p.mode.Acknowledging? <==> a.Acknowledge?) && (p.mode.Expressing? <==> a.Express?)
    && (p.mode.Idle? <==> a.ReturnIdle?) && !p.mode.Speaking?
  }

  /** A step that shows this: a visual action that is taken on; a speech that begins to
      say the text it was given; its end, when it spoke; and the return of StopAll. */
  predicate Presents(s: Avatar, step: Step, t: Trace, p: Picture) {
    match step
    case Execute(c, context) => Takes(s.driver, s.now, c, context) && !c.action.actionType.Speak? && Pictures(c.action.actionType, p, c.id)
    case Work(id, _, _) =>
      && id in s.speeches && t.realized.Some? && t.realized.value.Some? && p.mode.Speaking? && p.text == t.realized.value.value && p.actionID == id
      && (if p.speaking then s.speeches[id].worker.Showing? else s.speeches[id].worker.Finishing? && t.spoken.Some?)
    case StopReturns(_) => p == Picture(Idle, "", false, "")
    case _ => false
  }

  /** A step that shows nothing new. */
  predicate Silent(s: Avatar, step: Step, t: Trace) {
    match step
    case Execute(c, context) => !Takes(s.driver, s.now, c, context) || c.action.actionType.Speak?
    case Work(id, _, _) => id in s.speeches && !s.speeches[id].worker.Showing? && (s.speeches[id].worker.Finishing? ==> t.spoken.None?)
    case StopReturns(_) => false
    case _ => true
  }

  /** The worker's trace, for the steps that have one. */
  function TraceOf(steps: seq<Step>, states: seq<Avatar>, n: nat): Trace
    requires n < |steps| <= |states|
  {
    if steps[n].Work? then TraceAt(steps, states, steps[n].id, n) else UNTOUCHED
  }

  lemma ShowsStep(s: Avatar, step: Step, t: Trace)
    requires Inv(s) && Enabled(s, step) && (step.Work? ==> True(s, step.id, t))
    ensures var u, v := s.driver.current, Next(s, step).driver.current;
      || (v == u && Silent(s, step, t))
      || (v.revision == u.revision + 1 && v.occurredAt == s.now && Presents(s, step, t, Shown(v)))
  {
    if step.Work? {
      assert SpeechOk(s, step.id) && RecordOk(s, step.id);
    }
  }

  /** In every interleaving each step either shows nothing new and leaves the update
      alone, or shows exactly what it should, under the next revision and at the time of
      the step. */
  lemma {:induction false} EveryStepShows(hasSpeaker: bool, now: Time, steps: seq<Step>, states: seq<Avatar>, n: nat)
    requires Run(hasSpeaker, now, steps, states) && n < |steps|
    ensures var u, v := states[n].driver.current, states[n + 1].driver.current;
      || (v == u && Silent(states[n], steps[n], TraceOf(steps, states, n)))
      || (v.revision == u.revision + 1 && v.occurredAt == states[n].now && Presents(states[n], steps[n], TraceOf(steps, states, n), Shown(v)))
  {
    Always(hasSpeaker, now, steps, states, n);
    assert Enabled(states[n], steps[n]) && states[n + 1] == Next(states[n], steps[n]);
    if steps[n].Work? {
      AlwaysTrue(hasSpeaker, now, steps, states, steps[n].id, n);
    }
    ShowsStep(states[n], steps[n], TraceOf(steps, states, n));
  }

  // ---------------------------------------------------------------------------
  // Speaking.

  /** The worker has shown its text and not yet finished. */
  predicate Voiced(p: Speech) {
    match p.worker
    case Talking(_) => true
    case AtDeadline(stage) => stage.Spoken?
    case AtCause(stage) => stage.Spoken?
    case Ending(t) => t.visualized
    case Joining(t) => t.visualized
    case Finishing(t) => t.visualized
    case _ => false
  }

  predicate SpeakingOk(s: Avatar) {
    s.driver.current.speaking ==>
      var id := s.driver.current.actionID;
      s.driver.active == Some(id) && id in s.speeches && Voiced(s.speeches[id])
  }

  lemma SpeakingStep(s: Avatar, step: Step)
    requires Inv(s) && Enabled(s, step) && SpeakingOk(s)
    ensures SpeakingOk(Next(s, step))
  {
    if step.Work? {
      assert SpeechOk(s, step.id) && RecordOk(s, step.id);
    }
  }

  lemma {:induction false} SpeakingAlways(hasSpeaker: bool, now: Time, steps: seq<Step>, states: seq<Avatar>, n: nat)
    requires Run(hasSpeaker, now, steps, states) && n < |states|
    ensures SpeakingOk(states[n])
  {
    if n > 0 {
      SpeakingAlways(hasSpeaker, now, steps, states, n - 1);
      Always(hasSpeaker, now, steps, states, n - 1);
      assert Enabled(states[n - 1], steps[n - 1]) && states[n] == Next(states[n - 1], steps[n - 1]);
      SpeakingStep(states[n - 1], steps[n - 1]);
    }
  }

  /** In every interleaving the avatar is shown speaking only for the active speech, while
      that has not ended: no speech that ended, however it did, leaves the avatar shown
      as speaking. */
  lemma {:induction false} SpeakingOnlyWhileActive(hasSpeaker: bool, now: Time, steps: seq<Step>, states: seq<Avatar>)
    requires Run(hasSpeaker, now, steps, states) && Last(states).driver.current.speaking
    ensures var d := Last(states).driver;
      d.active == Some(d.current.actionID) && d.current.actionID in d.records && !d.records[d.current.actionID].finalized
  {
    SpeakingAlways(hasSpeaker, now, steps, states, |steps|);
    UnfinalizedIffActive(hasSpeaker, now, steps, states, Last(states).driver.current.actionID);
  }
}
