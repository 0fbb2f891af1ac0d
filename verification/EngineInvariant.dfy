/** What every engine operation keeps, with any observations, clock readings and
    driver replies. */
module EngineInvariant {
  import opened Prelude
  import opened Ids
  import opened Observations
  import opened Events
  import opened World
  import opened Decisions
  import opened Behaviors
  import opened Episodes
  import opened Dispatch
  import opened Engines

  /** The window is held three times: in the tracker, as the pending continuation
      and as the published view. All three exist together and say the same. */
  predicate WindowsAgree(s: EngineState) {
    && (s.pending.Some? <==> s.tracker.window.Some?)
    && (s.published.Some? <==> s.tracker.window.Some?)
    && (s.tracker.window.Some? ==>
          var p, w := s.pending.value, s.tracker.window.value;
          && s.tracker.active.Some?
          && var a := s.tracker.active.value;
          && p.episodeID == a.id && p.interactionID == a.interactionID && p.subjectID == a.subjectID && p.traceID == a.traceID
          && p.wakeup == Wakeup(w.token, w.deadline)
          && w.token == WakeupToken(a.id)
          && s.published.value == ReplyWindow(a.subjectID, w.openedAt, w.deadline))
  }

  /** Nothing in the tracker can clash with an observation not yet admitted, and
      the active episode has not expired before. */
  ghost predicate IdsFresh(s: EngineState) {
    && (forall o: string :: o !in s.ingress.seenIDs ==> EventId(o, UserReplied) !in s.tracker.feedback)
    && (forall o: string :: o !in s.ingress.seenIDs ==> ExpiryFor(o) !in s.tracker.expirations)
    && (s.tracker.active.Some? ==>
          && ExpiryOf(s.tracker.active.value.id) !in s.tracker.expirations
          && forall o: string :: o !in s.ingress.seenIDs ==> EpisodeFor(o) != s.tracker.active.value.id)
  }

  ghost predicate Inv(c: Config, s: EngineState) {
    && ValidConfig(c)
    && Sound(s.tracker)
    && s.world.subjectID == c.subjectID
    && (s.tracker.active.Some? ==> s.tracker.active.value.subjectID == c.subjectID)
    && WindowsAgree(s)
    && IdsFresh(s)
  }

  /** What a step may do to the active episode, as its report shows it: nothing,
      start one, or end one with a valid outcome. */
  predicate Nothing(s: EngineState, t: EngineState, r: StepReport) {
    t.tracker.active == s.tracker.active && r.plans == [] && r.outcomes == []
  }

  predicate Starts(s: EngineState, t: EngineState, r: StepReport) {
    && s.tracker.active.None? && t.tracker.active.Some?
    && |r.plans| == 1 && r.outcomes == []
    && t.tracker.active.value.id == EpisodeId(r.plans[0].interactionID)
  }

  predicate EndsEpisode(s: EngineState, t: EngineState, r: StepReport) {
    && s.tracker.active.Some? && t.tracker.active.None?
    && r.plans == [] && |r.outcomes| == 1
    && ValidOutcome(r.outcomes[0])
    && r.outcomes[0].episodeID == s.tracker.active.value.id
  }

  predicate Moves(s: EngineState, t: EngineState, r: StepReport) {
    Nothing(s, t, r) || Starts(s, t, r) || EndsEpisode(s, t, r)
  }

  lemma InitialInv(c: Config)
    requires ValidConfig(c)
    ensures Inv(c, Initial(c))
  {
  }

  // ---------------------------------------------------------------------------
  // Freshness of ids through the three kinds of tracker change.

  /** Marking a feedback id keeps freshness if the id belongs to an admitted reply
      or to a rejection. */
  lemma MarkKeepsFresh(s: EngineState, t: EngineState, source: string, kind: EventKind)
    requires IdsFresh(s) && kind in {UserReplied, UserRejected}
    requires kind == UserReplied ==> source in t.ingress.seenIDs
    requires s.ingress.seenIDs <= t.ingress.seenIDs
    requires t.tracker.feedback <= s.tracker.feedback + {EventId(source, kind)}
    requires t.tracker.expirations == s.tracker.expirations
    requires t.tracker.active == s.tracker.active || t.tracker.active.None?
    ensures IdsFresh(t)
  {
    forall o: string | o !in t.ingress.seenIDs ensures EventId(o, UserReplied) !in t.tracker.feedback {
      EventIdInjective(o, UserReplied, source, kind);
    }
  }

  /** So does recording the expiration of the episode that was active. */
  lemma ExpireKeepsFresh(s: EngineState, t: EngineState, e: SemanticEvent)
    requires IdsFresh(s) && s.tracker.active.Some? && e.id == ExpiryOf(s.tracker.active.value.id)
    requires t.ingress == s.ingress && t.tracker.feedback == s.tracker.feedback && t.tracker.active.None?
    requires t.tracker.expirations == s.tracker.expirations[e.id := e]
    ensures IdsFresh(t)
  {
    forall o: string | o !in t.ingress.seenIDs ensures ExpiryFor(o) !in t.tracker.expirations {
      WakeupTokenInjective(EpisodeFor(o), s.tracker.active.value.id);
    }
  }

  /** So does starting the episode of an observation admitted in this step. */
  lemma StartKeepsFresh(s: EngineState, t: EngineState, o: string)
    requires IdsFresh(s) && o !in s.ingress.seenIDs && t.ingress.seenIDs == s.ingress.seenIDs + {o}
    requires t.tracker.feedback == s.tracker.feedback && t.tracker.expirations == s.tracker.expirations
    requires t.tracker.active.Some? && t.tracker.active.value.id == EpisodeFor(o)
    ensures IdsFresh(t)
  {
    forall x: string | x !in t.ingress.seenIDs ensures EpisodeFor(x) != t.tracker.active.value.id {
      EpisodeForInjective(x, o);
    }
  }

  /** And admitting an observation alone. */
  lemma AdmitKeeps(c: Config, s: EngineState, o: Observation, subjects: map<string, Timeline>)
    requires Inv(c, s)
    ensures Inv(c, s.(ingress := Admit(s.ingress, o), subjects := subjects))
  {
  }

  // ---------------------------------------------------------------------------
  // The operations.

  lemma AcceptReplyKeeps(c: Config, s: EngineState, o: Observation, e: SemanticEvent, env: ProcessEnv)
    requires Inv(c, s) && o.id in s.ingress.seenIDs
    requires e.id == EventId(o.id, UserReplied)
    ensures var (t, r) := AcceptReply(s, e, env); Inv(c, t) && Moves(s, t, r)
  {
    if s.pending.Some? && s.pending.value.subjectID == e.subjectID {
      var p := s.pending.value;
      var (u, v) := Replied(s.tracker, p.episodeID, e);
      FeedbackEndsOrKeeps(s.tracker, p.episodeID, e);
      MarkKeepsFresh(s, s.(tracker := u), o.id, UserReplied);
    }
  }

  lemma GreetKeeps(c: Config, s: EngineState, r: StepReport, o: string, d: Decision, e: SemanticEvent, plan: BehaviorPlan,
                   phases: UserReplyPhases, env: ProcessEnv, before: EngineState)
    requires Inv(c, before) && o !in before.ingress.seenIDs && s.ingress.seenIDs == before.ingress.seenIDs + {o}
    requires s.tracker == before.tracker && Inv(c, s)
    requires e.subjectID == c.subjectID && d.interactionID == InteractionId(EventId(o, PersonReturned))
    requires plan.interactionID == d.interactionID && r.plans == [] && r.outcomes == []
    ensures var (t, q) := Greet(s, r, d, e, plan, phases, env); Inv(c, t) && Moves(s, t, q)
  {
    var episode := EpisodeOf(d, e, env.now);
    assert episode.id == EpisodeFor(o);
    if s.pending.None? && StartFault(s.tracker, episode).None? {
      assert s.tracker.active.None?;
      var begun := s.(tracker := s.tracker.(active := Some(episode)));
      StartKeepsFresh(before, begun, o);
    }
  }

  lemma RespondKeeps(c: Config, s: EngineState, r: StepReport, o: string, d: Decision, e: SemanticEvent, prepared: Result<Prepared>,
                     env: ProcessEnv, before: EngineState)
    requires Inv(c, before) && o !in before.ingress.seenIDs && s.ingress.seenIDs == before.ingress.seenIDs + {o}
    requires s.tracker == before.tracker && Inv(c, s)
    requires e.subjectID == c.subjectID && d.interactionID == InteractionId(EventId(o, PersonReturned))
    requires prepared.Ok? ==> prepared.value.plan.interactionID == d.interactionID
    requires r.plans == [] && r.outcomes == []
    ensures var (t, q) := Respond(s, r, d, e, prepared, env); Inv(c, t) && Moves(s, t, q)
  {
    if prepared.Ok? {
      GreetKeeps(c, s, r, o, d, e, prepared.value.plan, prepared.value.phases, env, before);
    }
  }

  /** A plan belongs to the interaction its decision names. */
  lemma PreparedInteraction(d: Decision, capabilities: Option<Capabilities>, actionTimeout: int)
    ensures Prepare(d, capabilities, actionTimeout).Ok? ==> Prepare(d, capabilities, actionTimeout).value.plan.interactionID == d.interactionID
  {
  }

  lemma AnswerKeeps(c: Config, s: EngineState, o: string, e: SemanticEvent, evaluated: Result<Option<Decision>>, env: ProcessEnv,
                    before: EngineState)
    requires Inv(c, before) && o !in before.ingress.seenIDs && s.ingress.seenIDs == before.ingress.seenIDs + {o}
    requires s.tracker == before.tracker && Inv(c, s) && e.subjectID == c.subjectID
    requires evaluated.Ok? && evaluated.value.Some? ==> evaluated.value.value.interactionID == InteractionId(EventId(o, PersonReturned))
    ensures var (t, r) := Answer(c, s, e, evaluated, env); Inv(c, t) && Moves(s, t, r)
  {
    if evaluated.Ok? && evaluated.value.Some? && evaluated.value.value.kind != Silent {
      var d := evaluated.value.value;
      PreparedInteraction(d, env.capabilities, c.actionTimeout);
      RespondKeeps(c, s, NOTHING.(events := [e], decisions := [d]), o, d, e, Prepare(d, env.capabilities, c.actionTimeout), env, before);
    }
  }

  /** Projecting an event does not concern the invariant. */
  lemma ProjectionKeeps(c: Config, s: EngineState, e: SemanticEvent)
    requires Inv(c, s)
    ensures Inv(c, s.(world := Projected(s.world, e)))
  {
  }

  lemma ReactKeeps(c: Config, s: EngineState, o: Observation, e: SemanticEvent, env: ProcessEnv, before: EngineState)
    requires Inv(c, before) && o.id !in before.ingress.seenIDs && s.ingress.seenIDs == before.ingress.seenIDs + {o.id}
    requires s.tracker == before.tracker && Inv(c, s)
    requires e.id == EventId(o.id, e.kind) && e.subjectID == c.subjectID
    ensures var (t, r) := React(c, s, e, env); Inv(c, t) && Moves(s, t, r)
  {
    var seen := s.(world := Projected(s.world, e));
    ProjectionKeeps(c, s, e);
    AnswerKeeps(c, seen, o.id, e, Evaluate(seen.world, e, c.configHash), env, before);
  }

  lemma ProcessKeeps(c: Config, s: EngineState, o: Observation, env: ProcessEnv)
    requires Inv(c, s)
    ensures var (t, r) := Process(c, s, o, env); Inv(c, t) && Moves(s, t, r)
  {
    if env.context.Live? && o.subjectID == c.subjectID && AcceptFault(s.ingress, o, env.now).None? {
      var line := TimelineOf(s.subjects, o.subjectID);
      var subjects := s.subjects[o.subjectID := NextTimeline(line, o)];
      var heard := s.(ingress := Admit(s.ingress, o), subjects := subjects);
      AdmitKeeps(c, s, o, subjects);
      match Transition(c.returnAbsenceThreshold, line, o)
      case None =>
      case Some(change) =>
        var e := TransitionEvent(o, change);
        if e.kind == UserReplied {
          AcceptReplyKeeps(c, heard, o, e, env);
        } else {
          ReactKeeps(c, heard, o, e, env, s);
        }
    }
  }

  lemma AdvanceKeeps(c: Config, s: EngineState, wakeup: Wakeup, env: AdvanceEnv)
    requires Inv(c, s)
    ensures var (t, r) := AdvanceAt(c, s, wakeup, env); Inv(c, t) && Moves(s, t, r)
  {
    if env.context.Live? && NextWakeup(s) == Some(wakeup) && env.now >= wakeup.deadline {
      var p := s.pending.value;
      var e := ExpirationOf(p);
      if ValidExpiration(e) {
        var (u, v) := Expired(s.tracker, p.episodeID, e);
        FeedbackEndsOrKeeps(s.tracker, p.episodeID, e);
        if v.outcome.Some? {
          ExpireKeepsFresh(s, s.(tracker := u), e);
        }
      }
    }
  }

  lemma CommitKeeps(c: Config, s: EngineState, command: ControlCommand, context: Context)
    requires Inv(c, s)
    ensures var (t, r) := CommitUserRejection(c, s, command, context); Inv(c, t) && Moves(s, t, r)
  {
    if CommitFault(c, command, context).None? {
      var e := RejectionOf(command);
      if ValidFeedback(e, UserRejected) {
        var (u, v) := RejectedBy(s.tracker, e);
        FeedbackEndsOrKeeps(s.tracker, "", e);
        MarkKeepsFresh(s, s.(tracker := u), command.id, UserRejected);
      }
    }
  }
}
