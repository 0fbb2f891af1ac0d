/** Semantic events and the temporal compiler that derives them. */
module Events {
  import opened Prelude
  import opened Ids
  import opened Observations

  datatype SemanticEvent = SemanticEvent(
    id: string,
    kind: EventKind,
    subjectID: string,
    occurredAt: Time,
    confidence: real,
    traceID: string,
    sourceObservationID: string,
    absenceDuration: int,
    busyReason: string,
    responseEpisodeID: string,
    wakeupToken: string)

  /** The fields every feedback fact needs, whichever kind it has. */
  predicate ValidFeedback(e: SemanticEvent, kind: EventKind) {
    e.kind == kind && e.id != "" && e.subjectID != "" && e.traceID != "" && e.occurredAt != UNSET
  }

  predicate ValidExpiration(e: SemanticEvent) {
    ValidFeedback(e, ResponseWindowExpired) && e.responseEpisodeID != "" && e.wakeupToken != ""
  }

  function UserRejection(id: string, subjectID: string, occurredAt: Time, traceID: string): SemanticEvent {
    SemanticEvent(id, UserRejected, subjectID, occurredAt, 0.0, traceID, "", 0, "", "", "")
  }

  function WindowExpiration(id: string, episodeID: string, token: string, subjectID: string, occurredAt: Time,
                            traceID: string): SemanticEvent {
    SemanticEvent(id, ResponseWindowExpired, subjectID, occurredAt, 0.0, traceID, "", 0, "", episodeID, token)
  }

  function NewEvent(o: Observation, kind: EventKind): SemanticEvent {
    SemanticEvent(EventId(o.id, kind), kind, o.subjectID, o.occurredAt, o.confidence, o.traceID, o.id, 0, "", "", "")
  }

  /** What the compiler remembers about one subject. */
  datatype Timeline = Timeline(
    presenceKnown: bool, present: bool, absentSince: Time,
    busyKnown: bool, busy: bool,
    quietKnown: bool, quiet: bool)

  const BLANK := Timeline(false, false, UNSET, false, false, false, false)

  function TimelineOf(subjects: map<string, Timeline>, subject: string): Timeline {
    if subject in subjects then subjects[subject] else BLANK
  }

  /** The timeline after one observation: the first payload present decides. */
  function NextTimeline(t: Timeline, o: Observation): Timeline {
    if o.personPresence.Some? then
      var left := !o.personPresence.value && (!t.presenceKnown || t.present);
      t.(presenceKnown := true, present := o.personPresence.value,
         absentSince := if left then o.occurredAt else t.absentSince)
    else if o.userBusy.Some? then t.(busyKnown := true, busy := o.userBusy.value.busy)
    else if o.quietMode.Some? then t.(quietKnown := true, quiet := o.quietMode.value)
    else t
  }

  /** The transition an observation makes, if any: its kind, and for a presence
      after an absence how long the absence lasted. */
  function Transition(threshold: int, t: Timeline, o: Observation): Option<(EventKind, int)> {
    if o.personPresence.Some? then
      var value := o.personPresence.value;
      if t.presenceKnown && value == t.present then None
      else if !value then Some((PersonLeft, 0))
      else if !t.presenceKnown then Some((PersonDetected, 0))
      else
        var absence := o.occurredAt - t.absentSince;
        Some((if absence >= threshold then PersonReturned else PersonDetected, absence))
    else if o.userBusy.Some? then
      var value := o.userBusy.value.busy;
      if t.busyKnown && value == t.busy then None
      else Some((if value then UserBecameBusy else UserBecameAvailable, 0))
    else if o.quietMode.Some? then
      var value := o.quietMode.value;
      if t.quietKnown && value == t.quiet then None
      else Some((if value then QuietModeEnabled else QuietModeDisabled, 0))
    else if o.userReply then Some((UserReplied, 0))
    else None
  }

  /** The event that reports a transition; busy transitions carry their reason. */
  function TransitionEvent(o: Observation, change: (EventKind, int)): SemanticEvent {
    NewEvent(o, change.0).(
      absenceDuration := change.1,
      busyReason := if change.0 in {UserBecameBusy, UserBecameAvailable} && o.userBusy.Some? then o.userBusy.value.reason else "")
  }

  function CompiledEvents(threshold: int, t: Timeline, o: Observation): seq<SemanticEvent> {
    match Transition(threshold, t, o)
    case None => []
    case Some(change) => [TransitionEvent(o, change)]
  }

  /** The compiler as the engine owns it: one timeline per subject, updated in place. */
  class Compiler {
    const returnAbsenceThreshold: int
    var subjects: map<string, Timeline>

    constructor (returnAbsenceThreshold: int)
      ensures this.returnAbsenceThreshold == returnAbsenceThreshold && subjects == map[]
    {
      this.returnAbsenceThreshold := returnAbsenceThreshold;
      subjects := map[];
    }

    method Compile(input: Observation) returns (events: seq<SemanticEvent>)
      modifies this
      ensures var t := TimelineOf(old(subjects), input.subjectID);
        && subjects == old(subjects)[input.subjectID := NextTimeline(t, input)]
        && events == CompiledEvents(returnAbsenceThreshold, t, input)
    {
      var timeline := TimelineOf(subjects, input.subjectID);
      events := [];
      if input.personPresence.Some? {
        var value := input.personPresence.value;
        if !timeline.presenceKnown || value != timeline.present {
          var kind, absence := PersonDetected, 0;
          if !value {
            kind := PersonLeft;
            timeline := timeline.(absentSince := input.occurredAt);
          } else if timeline.presenceKnown && !timeline.present {
            absence := input.occurredAt - timeline.absentSince;
            if absence >= returnAbsenceThreshold {
              kind := PersonReturned;
            }
          }
          events := [NewEvent(input, kind).(absenceDuration := absence)];
        }
        timeline := timeline.(presenceKnown := true, present := value);
      } else if input.userBusy.Some? {
        var value := input.userBusy.value.busy;
        if !timeline.busyKnown || value != timeline.busy {
          var kind := if value then UserBecameBusy else UserBecameAvailable;
          events := [NewEvent(input, kind).(busyReason := input.userBusy.value.reason)];
        }
        timeline := timeline.(busyKnown := true, busy := value);
      } else if input.quietMode.Some? {
        var value := input.quietMode.value;
        if !timeline.quietKnown || value != timeline.quiet {
          events := [NewEvent(input, if value then QuietModeEnabled else QuietModeDisabled)];
        }
        timeline := timeline.(quietKnown := true, quiet := value);
      } else if input.userReply {
        events := [NewEvent(input, UserReplied)];
      }
      subjects := subjects[input.subjectID := timeline];
    }
  }

  // ---------------------------------------------------------------------------
  // History specification: what each signal currently is, and since when, read off
  // the whole sequence of observations instead of an incremental timeline.

  function Presence(o: Observation): Option<bool> { o.personPresence }

  function Busy(o: Observation): Option<bool> {
    if o.personPresence.None? && o.userBusy.Some? then Some(o.userBusy.value.busy) else None
  }

  function Quiet(o: Observation): Option<bool> {
    if o.personPresence.None? && o.userBusy.None? then o.quietMode else None
  }

  /** Observation i starts the run of value v that is still current after h: nothing
      after it reports the opposite value, and just before it the signal was
      unknown or the opposite. */
  ghost predicate CurrentRun(h: seq<Observation>, signal: Observation -> Option<bool>, v: bool, i: int) {
    && 0 <= i < |h|
    && signal(h[i]) == Some(v)
    && (forall j :: i < j < |h| ==> signal(h[j]) != Some(!v))
    && (forall j :: 0 <= j < i && signal(h[j]) == Some(v) ==> exists k :: j < k < i && signal(h[k]) == Some(!v))
  }

  ghost predicate Silent(h: seq<Observation>, signal: Observation -> Option<bool>) {
    forall i :: 0 <= i < |h| ==> signal(h[i]).None?
  }

  /** Extending a history by one observation. */
  lemma ExtendRun(h: seq<Observation>, o: Observation, signal: Observation -> Option<bool>, v: bool, i: int)
    requires CurrentRun(h, signal, v, i)
    ensures signal(o) != Some(!v) ==> CurrentRun(h + [o], signal, v, i)
    ensures signal(o) == Some(!v) ==> CurrentRun(h + [o], signal, !v, |h|)
  {
    var g := h + [o];
    if signal(o) == Some(!v) {
      forall j | 0 <= j < |h| && signal(g[j]) == Some(!v)
        ensures exists k :: j < k < |h| && signal(g[k]) == Some(v)
      {
        assert j < i && signal(g[i]) == Some(v);
      }
    } else {
      forall j | 0 <= j < i && signal(g[j]) == Some(v)
        ensures exists k :: j < k < i && signal(g[k]) == Some(!v)
      {
        assert signal(h[j]) == Some(v);
        var k :| j < k < i && signal(h[k]) == Some(!v);
        assert signal(g[k]) == Some(!v);
      }
    }
  }

  /** The current run is unique: both its value and its first observation. */
  lemma CurrentRunUnique(h: seq<Observation>, signal: Observation -> Option<bool>, v: bool, i: int, w: bool, j: int)
    requires CurrentRun(h, signal, v, i) && CurrentRun(h, signal, w, j)
    ensures v == w && i == j
  {
  }

  /** The state of one signal as a timeline keeps it, related to the history. */
  ghost predicate Tracks(h: seq<Observation>, signal: Observation -> Option<bool>, known: bool, value: bool) {
    if known then exists i :: CurrentRun(h, signal, value, i) else Silent(h, signal) && !value
  }

  lemma TrackSignal(h: seq<Observation>, o: Observation, signal: Observation -> Option<bool>, known: bool, value: bool)
    requires Tracks(h, signal, known, value)
    ensures signal(o).None? ==> Tracks(h + [o], signal, known, value)
    ensures signal(o).Some? ==> Tracks(h + [o], signal, true, signal(o).value)
  {
    var g := h + [o];
    if known {
      var i :| CurrentRun(h, signal, value, i);
      ExtendRun(h, o, signal, value, i);
    } else if signal(o).Some? {
      assert forall j :: 0 <= j < |h| ==> signal(g[j]) == signal(h[j]);
      assert CurrentRun(g, signal, signal(o).value, |h|);
    }
  }

  /** The timeline after compiling a whole history of one subject. */
  function TimelineAfter(h: seq<Observation>): Timeline {
    if h == [] then BLANK else NextTimeline(TimelineAfter(h[..|h| - 1]), Last(h))
  }

  ghost predicate TimelineMatches(t: Timeline, h: seq<Observation>) {
    && Tracks(h, Presence, t.presenceKnown, t.present)
    && Tracks(h, Busy, t.busyKnown, t.busy)
    && Tracks(h, Quiet, t.quietKnown, t.quiet)
    && (forall i :: CurrentRun(h, Presence, false, i) ==> t.absentSince == h[i].occurredAt)
  }

  lemma TimelineStep(t: Timeline, h: seq<Observation>, o: Observation)
    requires TimelineMatches(t, h)
    ensures TimelineMatches(NextTimeline(t, o), h + [o])
  {
    TrackSignal(h, o, Presence, t.presenceKnown, t.present);
    TrackSignal(h, o, Busy, t.busyKnown, t.busy);
    TrackSignal(h, o, Quiet, t.quietKnown, t.quiet);
    forall i | CurrentRun(h + [o], Presence, false, i)
      ensures NextTimeline(t, o).absentSince == (h + [o])[i].occurredAt
    {
      AbsentRunStep(t, h, o, i);
    }
  }

  /** An absent run that is current after one more observation either was current
      already or starts with that observation. */
  lemma AbsentRunStep(t: Timeline, h: seq<Observation>, o: Observation, i: int)
    requires Tracks(h, Presence, t.presenceKnown, t.present)
    requires CurrentRun(h + [o], Presence, false, i)
    ensures if Presence(o) == Some(false) && (!t.presenceKnown || t.present) then i == |h|
            else t.presenceKnown && !t.present && CurrentRun(h, Presence, false, i) && (h + [o])[i] == h[i]
  {
    var g := h + [o];
    assert forall j :: 0 <= j < |h| ==> g[j] == h[j];
    if t.presenceKnown {
      var k :| CurrentRun(h, Presence, t.present, k);
      ExtendRun(h, o, Presence, t.present, k);
      if Presence(o) == Some(!t.present) {
        CurrentRunUnique(g, Presence, false, i, !t.present, |h|);
      } else {
        CurrentRunUnique(g, Presence, false, i, t.present, k);
      }
    }
  }

  /** The incremental timeline is a faithful summary of the whole history. */
  lemma {:induction false} TimelineRefinesHistory(h: seq<Observation>)
    ensures TimelineMatches(TimelineAfter(h), h)
  {
    if h != [] {
      var g, o := h[..|h| - 1], Last(h);
      TimelineRefinesHistory(g);
      TimelineStep(TimelineAfter(g), g, o);
      assert g + [o] == h;
    }
  }

  /** PERSON_RETURNED is emitted exactly when presence follows a maximal absent run
      whose first observation is at least the threshold older, and the event then
      carries that age. */
  lemma {:induction false} ReturnedExactlyAfterLongAbsence(threshold: int, h: seq<Observation>, o: Observation)
    ensures (exists age :: Transition(threshold, TimelineAfter(h), o) == Some((PersonReturned, age))) <==>
            Presence(o) == Some(true) &&
            exists i :: CurrentRun(h, Presence, false, i) && o.occurredAt - h[i].occurredAt >= threshold
    ensures forall age, i ::
              (Transition(threshold, TimelineAfter(h), o) == Some((PersonReturned, age)) && CurrentRun(h, Presence, false, i)) ==>
                age == o.occurredAt - h[i].occurredAt
  {
    TimelineRefinesHistory(h);
    var t := TimelineAfter(h);
    RunOfTracked(h, Presence, t.presenceKnown, t.present);
    if Transition(threshold, t, o).Some? {
      var (kind, age) := Transition(threshold, t, o).value;
      assert Transition(threshold, t, o) == Some((kind, age));
    }
  }

  /** No transition is emitted exactly when the observation repeats the value its
      signal has had since some earlier observation. */
  lemma {:induction false} TransitionsAreChanges(threshold: int, h: seq<Observation>, o: Observation)
    requires Payloads(o) == 1 && !o.userReply
    ensures Transition(threshold, TimelineAfter(h), o) == None <==>
            Repeats(h, Presence, o) || Repeats(h, Busy, o) || Repeats(h, Quiet, o)
  {
    TimelineRefinesHistory(h);
    var t := TimelineAfter(h);
    RunOfTracked(h, Presence, t.presenceKnown, t.present);
    RunOfTracked(h, Busy, t.busyKnown, t.busy);
    RunOfTracked(h, Quiet, t.quietKnown, t.quiet);
  }

  /** The observation reports the value its signal already has. */
  ghost predicate Repeats(h: seq<Observation>, signal: Observation -> Option<bool>, o: Observation) {
    exists v, i :: CurrentRun(h, signal, v, i) && signal(o) == Some(v)
  }

  lemma RunOfTracked(h: seq<Observation>, signal: Observation -> Option<bool>, known: bool, value: bool)
    requires Tracks(h, signal, known, value)
    ensures forall v, i :: CurrentRun(h, signal, v, i) ==> known && v == value
  {
    forall v, i | CurrentRun(h, signal, v, i) ensures known && v == value {
      if known {
        var k :| CurrentRun(h, signal, value, k);
        CurrentRunUnique(h, signal, v, i, value, k);
      }
    }
  }
}
