/** When a speech that ended by itself carries a cancel cause all the same. */
module AvatarCauses {
  import opened Prelude
  import opened Behaviors
  import opened Avatars
  import opened AvatarRuns

  /** The step cancels the speech's context: a stop that finds it active, its timer, or
      the end of its parent context. */
  predicate Cancels(s: Avatar, step: Step, id: string) {
    match step
    case StopBegins => s.driver.active == Some(id)
    case TimerFires(i) => i == id
    case ParentEnds(i, _) => i == id
    case _ => false
  }

  /** It does so after the worker's last look at the cause and before the worker
      declares the speech finished. */
  predicate Interrupts(s: Avatar, step: Step, id: string) {
    id in s.speeches && s.speeches[id].worker.Ending? && Cancels(s, step, id)
  }

  ghost predicate Interrupted(steps: seq<Step>, states: seq<Avatar>, id: string, n: nat) {
    exists k :: 0 <= k < n && k < |steps| && k < |states| && Interrupts(states[k], steps[k], id)
  }

  predicate Declared(w: Worker) { w.Joining? || w.Finishing? || !Unfinished(w) }

  /** What a speech shows of whether it was interrupted, if its worker saw no cause. */
  predicate SpeechTells(p: Speech, interrupted: bool) {
    if Declared(p.worker) then p.seen.None? ==> (p.cause == Some(Finished) <==> !interrupted)
    else if p.worker.Ending? then p.seen.None? ==> (p.cause.Some? <==> interrupted)
    else !interrupted
  }

  predicate Tells(s: Avatar, id: string, interrupted: bool) {
    if id in s.speeches then SpeechTells(s.speeches[id], interrupted) else !interrupted
  }

  lemma WorkedTells(r: Record, p: Speech, now: Time, text: Option<string>, failed: bool, interrupted: bool)
    requires Together(r, p) && SpeechTells(p, interrupted) && !p.worker.Finishing? && !p.worker.Showing?
    ensures SpeechTells(Worked(p, r.command.deadline, now, text, failed), interrupted)
  {
  }

  lemma WorkTells(s: Avatar, id: string, text: Option<string>, failed: bool, interrupted: bool)
    requires Inv(s) && Enabled(s, Work(id, text, failed)) && Tells(s, id, interrupted)
    ensures Tells(Next(s, Work(id, text, failed)), id, interrupted)
  {
    assert SpeechOk(s, id);
    var p := s.speeches[id];
    if !p.worker.Finishing? && !p.worker.Showing? {
      WorkedTells(s.driver.records[id], p, s.now, text, failed, interrupted);
    }
  }

  lemma CancelTells(s: Avatar, step: Step, id: string, interrupted: bool)
    requires Inv(s) && Enabled(s, step) && Tells(s, id, interrupted) && Cancels(s, step, id)
    ensures Tells(Next(s, step), id, interrupted || Interrupts(s, step, id))
  {
    assert SpeechOk(s, id) && RecordOk(s, id);
  }

  lemma OtherTells(s: Avatar, step: Step, id: string, interrupted: bool)
    requires Inv(s) && Enabled(s, step) && Tells(s, id, interrupted) && !Cancels(s, step, id)
    requires step.Work? ==> step.id != id
    ensures Tells(Next(s, step), id, interrupted)
  {
    assert SpeechOk(s, id);
  }

  lemma StepTells(s: Avatar, step: Step, id: string, interrupted: bool)
    requires Inv(s) && Enabled(s, step) && Tells(s, id, interrupted)
    ensures Tells(Next(s, step), id, interrupted || Interrupts(s, step, id))
  {
    if Cancels(s, step, id) {
      CancelTells(s, step, id, interrupted);
    } else if step.Work? && step.id == id {
      WorkTells(s, id, step.text, step.failed, interrupted);
    } else {
      OtherTells(s, step, id, interrupted);
    }
  }

  lemma {:induction false} AlwaysTells(hasSpeaker: bool, now: Time, steps: seq<Step>, states: seq<Avatar>, id: string, n: nat)
    requires Run(hasSpeaker, now, steps, states) && n < |states|
    ensures Tells(states[n], id, Interrupted(steps, states, id, n))
  {
    if n > 0 {
      AlwaysTells(hasSpeaker, now, steps, states, id, n - 1);
      Always(hasSpeaker, now, steps, states, n - 1);
      StepTells(states[n - 1], steps[n - 1], id, Interrupted(steps, states, id, n - 1));
      assert Interrupted(steps, states, id, n) <==> Interrupted(steps, states, id, n - 1) || Interrupts(states[n - 1], steps[n - 1], id);
    }
  }

  /** In every interleaving, a completed speech carries no cancel cause exactly when no
      stop, timer or parent context cancelled it between its worker's last look at the
      cause and the worker's own declaration that it finished. */
  lemma CompletedUncancelledIff(hasSpeaker: bool, now: Time, steps: seq<Step>, states: seq<Avatar>, id: string)
    requires Run(hasSpeaker, now, steps, states) && id in Last(states).speeches
    requires id in Last(states).driver.records && Last(states).driver.records[id].finalized
    requires |Last(states).driver.records[id].statuses| == 4 && Last(states).driver.records[id].statuses[3].state.Completed?
    ensures Last(states).speeches[id].cause == Some(Finished) <==> !Interrupted(steps, states, id, |steps|)
    ensures Last(states).speeches[id].cause.Some?
  {
    TerminalFollowsCause(hasSpeaker, now, steps, states, id);
    AlwaysTells(hasSpeaker, now, steps, states, id, |steps|);
    Always(hasSpeaker, now, steps, states, |steps|);
    assert SpeechOk(Last(states), id);
  }

  // ---------------------------------------------------------------------------
  // A speech that completed although it was stopped.

  /** A run that leads to a state. */
  ghost predicate Leads(steps: seq<Step>, states: seq<Avatar>, s: Avatar) {
    Run(true, 1, steps, states) && Last(states) == s
  }

  lemma Then(steps: seq<Step>, states: seq<Avatar>, s: Avatar, step: Step) returns (more: seq<Step>, after: seq<Avatar>, t: Avatar)
    requires Leads(steps, states, s) && Enabled(s, step)
    ensures Leads(more, after, t) && t == Next(s, step)
  {
    t := Next(s, step);
    more, after := steps + [step], states + [t];
    forall i | 0 <= i < |more| ensures Enabled(after[i], more[i]) && after[i + 1] == Next(after[i], more[i]) {
      if i < |steps| {
        assert more[i] == steps[i] && Enabled(states[i], steps[i]);
      }
    }
  }

  const HELLO := ActionCommand("a1", "i1", "t1", 100, Speak, ActionSpec(Speak, "welcome", Voice, 10))

  /** A worker step. */
  function Works(text: Option<string>): Step { Work("a1", text, false) }

  /** The speech is taken on and its text realized. */
  lemma Realize() returns (steps: seq<Step>, states: seq<Avatar>, s: Avatar)
    ensures Leads(steps, states, s) && s.now == 1 && "a1" in s.speeches && "a1" in s.driver.records
    ensures s.driver.active == Some("a1") && s.driver.records["a1"] == Record(HELLO, InitialStatuses(HELLO, 1), false)
    ensures s.speeches["a1"].worker == AtDeadline(Realized(Some("hi"))) && s.speeches["a1"].cause.None? && s.speeches["a1"].watching
    ensures s.speeches["a1"].stream == InitialStatuses(HELLO, 1)
  {
    s := Initial(true, 1);
    steps, states := [], [s];
    steps, states, s := Then(steps, states, s, Execute(HELLO, None));
    steps, states, s := Then(steps, states, s, Works(None));
    steps, states, s := Then(steps, states, s, Works(None));
    steps, states, s := Then(steps, states, s, Works(Some("hi")));
  }

  /** It is shown and about to be spoken. */
  lemma ShowText() returns (steps: seq<Step>, states: seq<Avatar>, s: Avatar)
    ensures Leads(steps, states, s) && s.now == 1 && "a1" in s.speeches && "a1" in s.driver.records
    ensures s.driver.active == Some("a1") && s.driver.records["a1"] == Record(HELLO, InitialStatuses(HELLO, 1), false)
    ensures s.speeches["a1"].worker == Talking("hi") && s.speeches["a1"].cause.None? && s.speeches["a1"].watching
  {
    steps, states, s := Realize();
    steps, states, s := Then(steps, states, s, Works(None));
    steps, states, s := Then(steps, states, s, Works(None));
    steps, states, s := Then(steps, states, s, Works(None));
  }

  /** It is spoken, and the worker decides that it completed. */
  lemma SpeakOut() returns (steps: seq<Step>, states: seq<Avatar>, s: Avatar)
    ensures Leads(steps, states, s) && s.now == 1 && "a1" in s.speeches && "a1" in s.driver.records
    ensures s.driver.active == Some("a1") && s.driver.records["a1"] == Record(HELLO, InitialStatuses(HELLO, 1), false)
    ensures s.speeches["a1"].worker == Ending(Terminal(Completed, "", "hi", true)) && s.speeches["a1"].cause.None? && s.speeches["a1"].watching
  {
    steps, states, s := ShowText();
    steps, states, s := Then(steps, states, s, Works(None));
    steps, states, s := Then(steps, states, s, Works(None));
    steps, states, s := Then(steps, states, s, Works(None));
  }

  /** "A completed speech was not cancelled" fails: StopAll cancels the speech after the
      worker's last look, and the speech is recorded as completed with that cause. */
  lemma CompletedThoughStopped() returns (steps: seq<Step>, states: seq<Avatar>)
    ensures Run(true, 1, steps, states) && "a1" in Last(states).driver.records && "a1" in Last(states).speeches
    ensures var r := Last(states).driver.records["a1"];
      r.finalized && |r.statuses| == 4 && r.statuses[3].state.Completed?
    ensures Last(states).speeches["a1"].cause == Some(Stopped)
  {
    var s;
    steps, states, s := SpeakOut();
    steps, states, s := Then(steps, states, s, StopBegins);
    steps, states, s := Then(steps, states, s, Works(None));
    steps, states, s := Then(steps, states, s, WatcherLeaves("a1"));
    steps, states, s := Then(steps, states, s, Works(None));
    steps, states, s := Then(steps, states, s, Works(None));
  }
}
