/** Opportunity detection, hard guards and the rule policy. All pure. */
module Decisions {
  import opened Prelude
  import opened Ids
  import opened Events
  import opened World

  datatype DecisionKind = Silent | GreetShort
  datatype Style = StyleNone | StyleWarm
  datatype Reason =
    | LongAbsence | UserAttending | NoRecentReject
    | QuietModeOn | UserOnCall | UserIsBusy | RecentRejection | RecentNoResponse

  /** The replay hash of the snapshot is represented by the snapshot itself. */
  datatype Decision = Decision(
    id: string,
    interactionID: string,
    kind: DecisionKind,
    style: Style,
    reasons: seq<Reason>,
    eventID: string,
    traceID: string,
    configHash: string,
    snapshot: WorldSnapshot)

  predicate Inside(c: Cooldown, t: Time) {
    c.start != UNSET && c.until > c.start && c.start <= t < c.until
  }

  /** The first hard guard that applies, in the fixed order quiet, busy, rejection
      cooldown, no-response cooldown. */
  function HardGuard(w: WorldSnapshot, at: Time): (reasons: seq<Reason>)
    ensures reasons == [] <==> !w.quietMode && !w.userBusy && !Inside(w.rejection, at) && !Inside(w.noResponse, at)
  {
    if w.quietMode then [QuietModeOn]
    else if w.userBusy then [if w.busyReason == "ON_CALL" then UserOnCall else UserIsBusy]
    else if Inside(w.rejection, at) then [RecentRejection]
    else if Inside(w.noResponse, at) then [RecentNoResponse]
    else []
  }

  function Decide(w: WorldSnapshot, e: SemanticEvent, configHash: string): Decision {
    var guards := HardGuard(w, e.occurredAt);
    var greet := guards == [];
    Decision(
      DecisionId(e.id), InteractionId(e.id),
      if greet then GreetShort else Silent,
      if greet then StyleWarm else StyleNone,
      if greet then [LongAbsence, UserAttending, NoRecentReject] else guards,
      e.id, e.traceID, configHash, w)
  }

  predicate ValidDecision(d: Decision) {
    && d.id != "" && d.eventID != "" && d.interactionID != "" && d.traceID != ""
    && d.reasons != []
    && (d.kind == Silent ==> d.style == StyleNone)
  }

  /** Opportunity, guard and policy, validation. Only a return is an opportunity. */
  function Evaluate(w: WorldSnapshot, e: SemanticEvent, configHash: string): Result<Option<Decision>> {
    if e.kind != PersonReturned then Ok(None)
    else
      var d := Decide(w, e, configHash);
      if ValidDecision(d) then Ok(Some(d)) else Err(Uncategorized)
  }

  /** A validated return event always gets a decision, and it greets exactly when
      no guard applies at the event's time. */
  lemma EvaluateReturn(w: WorldSnapshot, e: SemanticEvent, configHash: string)
    requires e.kind == PersonReturned && e.id != "" && e.traceID != ""
    ensures Evaluate(w, e, configHash) == Ok(Some(Decide(w, e, configHash)))
    ensures Decide(w, e, configHash).kind == GreetShort <==>
            !w.quietMode && !w.userBusy && !Inside(w.rejection, e.occurredAt) && !Inside(w.noResponse, e.occurredAt)
  {
    assert DecisionId(e.id) != "" && InteractionId(e.id) != "";
  }

  /** The one reason given for silence is that of the first guard that holds: quiet, then
      busy, told apart by whether the user is on a call, then a recent rejection, then a
      recent unanswered greeting. A greeting is warm and gives its three reasons. */
  lemma ReasonsSay(w: WorldSnapshot, e: SemanticEvent, configHash: string)
    ensures var d := Decide(w, e, configHash);
      && (d.reasons == [QuietModeOn] <==> w.quietMode)
      && (d.reasons == [UserOnCall] <==> !w.quietMode && w.userBusy && w.busyReason == "ON_CALL")
      && (d.reasons == [UserIsBusy] <==> !w.quietMode && w.userBusy && w.busyReason != "ON_CALL")
      && (d.reasons == [RecentRejection] <==> !w.quietMode && !w.userBusy && Inside(w.rejection, e.occurredAt))
      && (d.reasons == [RecentNoResponse] <==>
            !w.quietMode && !w.userBusy && !Inside(w.rejection, e.occurredAt) && Inside(w.noResponse, e.occurredAt))
      && (d.kind == GreetShort <==> d.reasons == [LongAbsence, UserAttending, NoRecentReject])
      && (d.kind == GreetShort <==> d.style == StyleWarm)
      && d.eventID == e.id && d.traceID == e.traceID && d.configHash == configHash && d.snapshot == w
  {
  }
}
