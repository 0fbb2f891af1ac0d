/** The episode tracker: at most one active interaction, its one reply window and
    the feedback facts already applied. */
module Episodes {
  import opened Prelude
  import opened Ids
  import opened Events

  datatype Episode = Episode(
    id: string,
    interactionID: string,
    subjectID: string,
    decisionID: string,
    triggerEventID: string,
    traceID: string,
    configHash: string,
    startedAt: Time)

  predicate ValidEpisode(e: Episode) {
    && e.id != "" && e.interactionID != "" && e.subjectID != "" && e.decisionID != ""
    && e.triggerEventID != "" && e.traceID != "" && e.configHash != ""
    && e.startedAt != UNSET
  }

  datatype OutcomeKind = Rejected | Accepted | NoResponse
  datatype OutcomeReason = ExplicitUserRejection | UserHasReplied | ResponseWindowElapsed

  datatype Outcome = Outcome(
    id: string,
    kind: OutcomeKind,
    reason: OutcomeReason,
    episodeID: string,
    interactionID: string,
    subjectID: string,
    decisionID: string,
    triggerEventID: string,
    feedbackEventID: string,
    traceID: string,
    feedbackTraceID: string,
    configHash: string,
    occurredAt: Time)

  predicate ValidOutcome(o: Outcome) {
    && (o.kind, o.reason) in {(Rejected, ExplicitUserRejection), (Accepted, UserHasReplied), (NoResponse, ResponseWindowElapsed)}
    && o.id != "" && o.episodeID != "" && o.interactionID != "" && o.subjectID != "" && o.decisionID != ""
    && o.triggerEventID != "" && o.feedbackEventID != "" && o.traceID != "" && o.feedbackTraceID != "" && o.configHash != ""
    && o.occurredAt != UNSET
  }

  datatype ResponseWindow = ResponseWindow(token: string, openedAt: Time, deadline: Time)

  predicate Contains(w: ResponseWindow, t: Time) { w.openedAt <= t < w.deadline }

  datatype TrackerState = TrackerState(
    active: Option<Episode>,
    window: Option<ResponseWindow>,
    feedback: set<string>,
    expirations: map<string, SemanticEvent>)

  const NO_EPISODE := TrackerState(None, None, {}, map[])

  /** What a feedback operation reports: an outcome, whether the fact was applied,
      and a fault. */
  datatype Verdict = Verdict(outcome: Option<Outcome>, applied: bool, fault: Option<Fault>)

  function Refuse(f: Fault): Verdict { Verdict(None, false, Some(f)) }

  function OutcomeOf(e: Episode, kind: OutcomeKind, reason: OutcomeReason, input: SemanticEvent): Outcome {
    Outcome(OutcomeId(input.id), kind, reason, e.id, e.interactionID, e.subjectID, e.decisionID, e.triggerEventID,
            input.id, e.traceID, input.traceID, e.configHash, input.occurredAt)
  }

  /** The outcome is validated after the episode was already cleared. */
  function Conclude(o: Outcome): Verdict {
    if ValidOutcome(o) then Verdict(Some(o), true, None) else Refuse(InvalidInput)
  }

  function Cleared(t: TrackerState): TrackerState { t.(active := None, window := None) }

  function StartFault(t: TrackerState, e: Episode): Option<Fault> {
    if !ValidEpisode(e) then Some(InvalidInput)
    else if t.active.Some? && t.active.value != e then Some(PolicyBlocked)
    else None
  }

  function OpenFault(t: TrackerState, episodeID: string, token: string, openedAt: Time, duration: int): Option<Fault> {
    if t.active.None? then Some(PolicyBlocked)
    else if episodeID == "" || episodeID != t.active.value.id || duration <= 0 || token == "" then Some(InvalidInput)
    else if openedAt == UNSET || openedAt < t.active.value.startedAt then Some(InvalidInput)
    else if t.window.Some? && t.window.value != ResponseWindow(token, openedAt, openedAt + duration) then Some(PolicyBlocked)
    else None
  }

  function Expired(t: TrackerState, episodeID: string, input: SemanticEvent): (TrackerState, Verdict) {
    if !ValidExpiration(input) || episodeID == "" || input.responseEpisodeID != episodeID then (t, Refuse(InvalidInput))
    else if input.id in t.expirations then
      (t, if t.expirations[input.id] != input then Refuse(InvalidInput) else Verdict(None, false, None))
    else if t.active.None? || t.window.None? then (t, Refuse(PolicyBlocked))
    else if episodeID != t.active.value.id || input.subjectID != t.active.value.subjectID ||
            input.wakeupToken != t.window.value.token then (t, Refuse(InvalidInput))
    else if input.occurredAt < t.window.value.deadline then (t, Verdict(None, false, None))
    else
      (Cleared(t.(expirations := t.expirations[input.id := input])),
       Conclude(OutcomeOf(t.active.value, NoResponse, ResponseWindowElapsed, input)))
  }

  function Replied(t: TrackerState, episodeID: string, input: SemanticEvent): (TrackerState, Verdict) {
    if !ValidFeedback(input, UserReplied) || episodeID == "" then (t, Refuse(InvalidInput))
    else if t.active.None? then (t, Refuse(PolicyBlocked))
    else if episodeID != t.active.value.id then (t, Refuse(InvalidInput))
    else if input.id in t.feedback then (t, Verdict(None, false, None))
    else
      var marked := t.(feedback := t.feedback + {input.id});
      if t.window.None? || t.active.value.subjectID != input.subjectID || !Contains(t.window.value, input.occurredAt) then
        (marked, Verdict(None, true, None))
      else
        (Cleared(marked), Conclude(OutcomeOf(t.active.value, Accepted, UserHasReplied, input)))
  }

  function RejectedBy(t: TrackerState, input: SemanticEvent): (TrackerState, Verdict) {
    if !ValidFeedback(input, UserRejected) then (t, Refuse(InvalidInput))
    else if input.id in t.feedback then (t, Verdict(None, false, None))
    else
      var marked := t.(feedback := t.feedback + {input.id});
      if t.active.None? || t.active.value.subjectID != input.subjectID || input.occurredAt < t.active.value.startedAt then
        (marked, Verdict(None, true, None))
      else
        (Cleared(marked), Conclude(OutcomeOf(t.active.value, Rejected, ExplicitUserRejection, input)))
  }

  class Tracker {
    var active: Option<Episode>
    var responseWindow: Option<ResponseWindow>
    var processedFeedbackEvents: set<string>
    var processedExpirations: map<string, SemanticEvent>

    ghost function State(): TrackerState
      reads this
    {
      TrackerState(active, responseWindow, processedFeedbackEvents, processedExpirations)
    }

    constructor ()
      ensures State() == NO_EPISODE
    {
      active, responseWindow, processedFeedbackEvents, processedExpirations := None, None, {}, map[];
    }

    method Start(input: Episode) returns (fault: Option<Fault>)
      modifies this
      ensures fault == StartFault(old(State()), input)
      ensures State() == if fault.None? then old(State()).(active := Some(input)) else old(State())
    {
      if !ValidEpisode(input) {
        return Some(InvalidInput);
      }
      if active.Some? {
        return if active.value == input then None else Some(PolicyBlocked);
      }
      active := Some(input);
      fault := None;
    }

    method OpenResponseWindow(episodeID: string, token: string, openedAt: Time, duration: int) returns (fault: Option<Fault>)
      modifies this
      ensures fault == OpenFault(old(State()), episodeID, token, openedAt, duration)
      ensures State() == if fault.None? then old(State()).(window := Some(ResponseWindow(token, openedAt, openedAt + duration)))
                         else old(State())
    {
      if active.None? {
        return Some(PolicyBlocked);
      }
      if episodeID == "" || episodeID != active.value.id || duration <= 0 || token == "" {
        return Some(InvalidInput);
      }
      if openedAt == UNSET || openedAt < active.value.startedAt {
        return Some(InvalidInput);
      }
      var window := ResponseWindow(token, openedAt, openedAt + duration);
      if responseWindow.Some? {
        return if responseWindow.value == window then None else Some(PolicyBlocked);
      }
      responseWindow := Some(window);
      fault := None;
    }

    method Expire(episodeID: string, input: SemanticEvent) returns (verdict: Verdict)
      modifies this
      ensures (State(), verdict) == Expired(old(State()), episodeID, input)
    {
      if !ValidExpiration(input) || episodeID == "" || input.responseEpisodeID != episodeID {
        return Refuse(InvalidInput);
      }
      if input.id in processedExpirations {
        return if processedExpirations[input.id] != input then Refuse(InvalidInput) else Verdict(None, false, None);
      }
      if active.None? || responseWindow.None? {
        return Refuse(PolicyBlocked);
      }
      if episodeID != active.value.id || input.subjectID != active.value.subjectID || input.wakeupToken != responseWindow.value.token {
        return Refuse(InvalidInput);
      }
      if input.occurredAt < responseWindow.value.deadline {
        return Verdict(None, false, None);
      }
      processedExpirations := processedExpirations[input.id := input];
      var ended := active.value;
      active, responseWindow := None, None;
      verdict := Conclude(OutcomeOf(ended, NoResponse, ResponseWindowElapsed, input));
    }

    method Accept(episodeID: string, input: SemanticEvent) returns (verdict: Verdict)
      modifies this
      ensures (State(), verdict) == Replied(old(State()), episodeID, input)
    {
      if !ValidFeedback(input, UserReplied) || episodeID == "" {
        return Refuse(InvalidInput);
      }
      if active.None? {
        return Refuse(PolicyBlocked);
      }
      if episodeID != active.value.id {
        return Refuse(InvalidInput);
      }
      if input.id in processedFeedbackEvents {
        return Verdict(None, false, None);
      }
      processedFeedbackEvents := processedFeedbackEvents + {input.id};
      if responseWindow.None? || active.value.subjectID != input.subjectID {
        return Verdict(None, true, None);
      }
      if input.occurredAt < responseWindow.value.openedAt || input.occurredAt >= responseWindow.value.deadline {
        return Verdict(None, true, None);
      }
      var ended := active.value;
      active, responseWindow := None, None;
      verdict := Conclude(OutcomeOf(ended, Accepted, UserHasReplied, input));
    }

    method Reject(input: SemanticEvent) returns (verdict: Verdict)
      modifies this
      ensures (State(), verdict) == RejectedBy(old(State()), input)
    {
      if !ValidFeedback(input, UserRejected) {
        return Refuse(InvalidInput);
      }
      if input.id in processedFeedbackEvents {
        return Verdict(None, false, None);
      }
      processedFeedbackEvents := processedFeedbackEvents + {input.id};
      if active.None? || active.value.subjectID != input.subjectID {
        return Verdict(None, true, None);
      }
      if input.occurredAt < active.value.startedAt {
        return Verdict(None, true, None);
      }
      var ended := active.value;
      active, responseWindow := None, None;
      verdict := Conclude(OutcomeOf(ended, Rejected, ExplicitUserRejection, input));
    }
  }

  /** A window belongs to a valid active episode. Every operation keeps this. */
  predicate Sound(t: TrackerState) {
    && (t.active.Some? ==> ValidEpisode(t.active.value))
    && (t.window.Some? ==> t.active.Some? && t.active.value.startedAt <= t.window.value.openedAt < t.window.value.deadline)
  }

  /** The outcome tells of this episode, as it was started, and of this feedback. */
  predicate Tells(o: Outcome, e: Episode, input: SemanticEvent) {
    && o.episodeID == e.id && o.interactionID == e.interactionID && o.subjectID == e.subjectID && o.decisionID == e.decisionID
    && o.triggerEventID == e.triggerEventID && o.traceID == e.traceID && o.configHash == e.configHash
    && o.feedbackEventID == input.id && o.feedbackTraceID == input.traceID && o.occurredAt == input.occurredAt
  }

  /** The step ended the active episode, and reports it with a valid outcome. */
  predicate Ends(t: TrackerState, kind: OutcomeKind, input: SemanticEvent, t': TrackerState, v: Verdict) {
    && t.active.Some? && t'.active.None? && t'.window.None?
    && v.fault.None? && v.applied && v.outcome.Some?
    && ValidOutcome(v.outcome.value)
    && v.outcome.value.kind == kind
    && Tells(v.outcome.value, t.active.value, input)
  }

  /** The step left the active episode and its window alone, and reports nothing. */
  predicate Keeps(t: TrackerState, t': TrackerState, v: Verdict) {
    t'.active == t.active && t'.window == t.window && v.outcome.None?
  }

  /** An episode is cleared only together with a valid outcome for it: outcome
      validation can never fail after the active episode was cleared. */
  lemma FeedbackEndsOrKeeps(t: TrackerState, episodeID: string, input: SemanticEvent)
    requires Sound(t)
    ensures var (u, v) := Expired(t, episodeID, input); Sound(u) && (Ends(t, NoResponse, input, u, v) || Keeps(t, u, v))
    ensures var (u, v) := Replied(t, episodeID, input); Sound(u) && (Ends(t, Accepted, input, u, v) || Keeps(t, u, v))
    ensures var (u, v) := RejectedBy(t, input); Sound(u) && (Ends(t, Rejected, input, u, v) || Keeps(t, u, v))
  {
    assert OutcomeId(input.id) != "";
  }

  /** An applied reply ends the episode exactly when it falls inside the window. */
  lemma ReplyAcceptedIffInWindow(t: TrackerState, input: SemanticEvent)
    requires Sound(t) && t.active.Some?
    requires ValidFeedback(input, UserReplied) && input.id !in t.feedback
    ensures var (u, v) := Replied(t, t.active.value.id, input);
      Ends(t, Accepted, input, u, v) <==>
        t.window.Some? && t.active.value.subjectID == input.subjectID && Contains(t.window.value, input.occurredAt)
  {
    FeedbackEndsOrKeeps(t, t.active.value.id, input);
  }

  /** An expiration ends the episode exactly when it is valid, new, and about the active
      episode, its subject and its window, at or after the deadline. */
  lemma ExpirationEndsIff(t: TrackerState, episodeID: string, input: SemanticEvent)
    requires Sound(t)
    ensures var (u, v) := Expired(t, episodeID, input);
      Ends(t, NoResponse, input, u, v) <==>
        && ValidExpiration(input) && input.responseEpisodeID == episodeID && input.id !in t.expirations
        && t.active.Some? && t.window.Some? && episodeID == t.active.value.id && input.subjectID == t.active.value.subjectID
        && input.wakeupToken == t.window.value.token && input.occurredAt >= t.window.value.deadline
  {
    FeedbackEndsOrKeeps(t, episodeID, input);
  }

  /** A rejection ends the episode exactly when it is valid, new, about the active
      episode's subject, and not older than the episode. */
  lemma RejectionEndsEpisodeIff(t: TrackerState, input: SemanticEvent)
    requires Sound(t)
    ensures var (u, v) := RejectedBy(t, input);
      Ends(t, Rejected, input, u, v) <==>
        && ValidFeedback(input, UserRejected) && input.id !in t.feedback
        && t.active.Some? && input.subjectID == t.active.value.subjectID && input.occurredAt >= t.active.value.startedAt
  {
    FeedbackEndsOrKeeps(t, "", input);
  }

  /** The expiration is not about the active episode's window. */
  predicate Misdirected(t: TrackerState, episodeID: string, input: SemanticEvent)
    requires t.active.Some? && t.window.Some?
  {
    episodeID != t.active.value.id || input.subjectID != t.active.value.subjectID || input.wakeupToken != t.window.value.token
  }

  /** Exactly when feedback is refused, which changes nothing: as invalid when it is not
      valid, names no episode or another one, or repeats a consumed expiration with other
      contents; as blocked when it is valid, new, and nothing is there to answer. */
  lemma FeedbackRefusedIff(t: TrackerState, episodeID: string, input: SemanticEvent)
    requires Sound(t)
    ensures var (u, v) := Replied(t, episodeID, input);
      && (v.fault == Some(InvalidInput) <==> !ValidFeedback(input, UserReplied) || episodeID == "" || (t.active.Some? && episodeID != t.active.value.id))
      && (v.fault == Some(PolicyBlocked) <==> ValidFeedback(input, UserReplied) && episodeID != "" && t.active.None?)
      && (v.fault.Some? ==> u == t && (v.fault.value == InvalidInput || v.fault.value == PolicyBlocked))
    ensures var (u, v) := Expired(t, episodeID, input);
      var aimed := ValidExpiration(input) && episodeID != "" && input.responseEpisodeID == episodeID;
      && (v.fault == Some(InvalidInput) <==>
            || !aimed
            || (input.id in t.expirations && t.expirations[input.id] != input)
            || (input.id !in t.expirations && t.active.Some? && t.window.Some? && Misdirected(t, episodeID, input)))
      && (v.fault == Some(PolicyBlocked) <==> aimed && input.id !in t.expirations && (t.active.None? || t.window.None?))
      && (v.fault.Some? ==> u == t && (v.fault.value == InvalidInput || v.fault.value == PolicyBlocked))
    ensures var (u, v) := RejectedBy(t, input);
      (v.fault.Some? <==> !ValidFeedback(input, UserRejected)) && (v.fault.Some? ==> u == t && v.fault.value == InvalidInput)
  {
    FeedbackEndsOrKeeps(t, episodeID, input);
  }

  /** Whatever was applied once is consumed: delivered again it changes nothing, is not
      applied and is no fault, whatever happened in between. */
  lemma AppliedOnce(t: TrackerState, episodeID: string, input: SemanticEvent, later: TrackerState)
    requires later.active.Some? && later.active.value.id == episodeID && episodeID != ""
    ensures var (u, v) := RejectedBy(t, input);
      v.applied && u.feedback <= later.feedback ==> RejectedBy(later, input) == (later, Verdict(None, false, None))
    ensures var (u, v) := Replied(t, episodeID, input);
      v.applied && u.feedback <= later.feedback ==> Replied(later, episodeID, input) == (later, Verdict(None, false, None))
    ensures var (u, v) := Expired(t, episodeID, input);
      v.applied && (input.id in u.expirations && input.id in later.expirations && later.expirations[input.id] == u.expirations[input.id]) ==>
        Expired(later, episodeID, input) == (later, Verdict(None, false, None))
    ensures var (u, v) := Expired(t, episodeID, input); v.applied ==> input.id in u.expirations
  {
  }

  /** An episode starts exactly when it is complete and no other is active. */
  lemma StartsIff(t: TrackerState, e: Episode)
    ensures StartFault(t, e).None? <==>
      && "" !in {e.id, e.interactionID, e.subjectID, e.decisionID, e.triggerEventID, e.traceID, e.configHash} && e.startedAt != UNSET
      && (t.active.None? || t.active == Some(e))
    ensures StartFault(t, e) == Some(PolicyBlocked) <==> ValidEpisode(e) && t.active.Some? && t.active != Some(e)
  {
  }

  /** A window opens exactly for the active episode, with a token, a positive duration and
      a time not before the episode's start, if it has no other window. */
  lemma OpensIff(t: TrackerState, episodeID: string, token: string, openedAt: Time, duration: int)
    ensures OpenFault(t, episodeID, token, openedAt, duration).None? <==>
      && t.active.Some? && episodeID == t.active.value.id && episodeID != "" && token != "" && duration > 0
      && openedAt != UNSET && t.active.value.startedAt <= openedAt
      && (t.window.None? || t.window == Some(ResponseWindow(token, openedAt, openedAt + duration)))
  {
  }
}
