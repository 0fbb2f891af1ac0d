/** The projected world snapshot: presence, busy and quiet signals, and the two
    cooldown intervals that follow a rejection and an unanswered interaction. */
module World {
  import opened Prelude
  import opened Ids
  import opened Observations
  import opened Events

  /** A half-open interval [start, until); start is 0 while no cooldown was applied. */
  datatype Cooldown = Cooldown(start: Time, until: Time)

  datatype WorldSnapshot = WorldSnapshot(
    subjectID: string,
    version: nat,
    updatedAt: Time,
    personPresent: bool,
    userBusy: bool,
    busyReason: string,
    quietMode: bool,
    rejection: Cooldown,
    noResponse: Cooldown,
    lastReturnedAt: Time)

  function InitialSnapshot(subjectID: string): WorldSnapshot {
    WorldSnapshot(subjectID, 0, UNSET, false, false, "", false, Cooldown(UNSET, UNSET), Cooldown(UNSET, UNSET), UNSET)
  }

  function Bump(w: WorldSnapshot, e: SemanticEvent): WorldSnapshot {
    w.(version := w.version + 1, updatedAt := e.occurredAt)
  }

  function Projected(w: WorldSnapshot, e: SemanticEvent): WorldSnapshot {
    if e.subjectID != w.subjectID then w else
    match e.kind
    case PersonLeft => Bump(w.(personPresent := false), e)
    case PersonDetected => Bump(w.(personPresent := true), e)
    case PersonReturned => Bump(w.(personPresent := true, lastReturnedAt := e.occurredAt), e)
    case UserBecameBusy => Bump(w.(userBusy := true, busyReason := e.busyReason), e)
    case UserBecameAvailable => Bump(w.(userBusy := false, busyReason := ""), e)
    case QuietModeEnabled => Bump(w.(quietMode := true), e)
    case QuietModeDisabled => Bump(w.(quietMode := false), e)
    case _ => Bump(w, e)
  }

  /** A cooldown moves to the fact's time unless it already started later. */
  predicate Supersedes(c: Cooldown, at: Time) { c.start == UNSET || at >= c.start }

  function RejectionProjected(w: WorldSnapshot, e: SemanticEvent, cooldown: int): WorldSnapshot {
    if e.subjectID != w.subjectID || !Supersedes(w.rejection, e.occurredAt) then w
    else Bump(w.(rejection := Cooldown(e.occurredAt, e.occurredAt + cooldown)), e)
  }

  function NoResponseProjected(w: WorldSnapshot, e: SemanticEvent, cooldown: int): WorldSnapshot {
    if e.subjectID != w.subjectID || !Supersedes(w.noResponse, e.occurredAt) then w
    else Bump(w.(noResponse := Cooldown(e.occurredAt, e.occurredAt + cooldown)), e)
  }

  /** The single writer of one snapshot. */
  class Projector {
    var snapshot: WorldSnapshot

    constructor (subjectID: string)
      ensures snapshot == InitialSnapshot(subjectID)
    {
      snapshot := InitialSnapshot(subjectID);
    }

    method Apply(input: SemanticEvent) returns (copy: WorldSnapshot)
      modifies this
      ensures snapshot == Projected(old(snapshot), input) && copy == snapshot
    {
      if input.subjectID != snapshot.subjectID {
        return snapshot;
      }
      match input.kind {
        case PersonLeft => snapshot := snapshot.(personPresent := false);
        case PersonDetected => snapshot := snapshot.(personPresent := true);
        case PersonReturned => snapshot := snapshot.(personPresent := true, lastReturnedAt := input.occurredAt);
        case UserBecameBusy => snapshot := snapshot.(userBusy := true, busyReason := input.busyReason);
        case UserBecameAvailable => snapshot := snapshot.(userBusy := false, busyReason := "");
        case QuietModeEnabled => snapshot := snapshot.(quietMode := true);
        case QuietModeDisabled => snapshot := snapshot.(quietMode := false);
        case _ =>
      }
      snapshot := snapshot.(version := snapshot.version + 1, updatedAt := input.occurredAt);
      copy := snapshot;
    }

    method ApplyUserRejection(input: SemanticEvent, cooldown: int) returns (fault: Option<Fault>)
      modifies this
      ensures fault.None? <==> ValidFeedback(input, UserRejected) && cooldown > 0
      ensures snapshot == if fault.None? then RejectionProjected(old(snapshot), input, cooldown) else old(snapshot)
    {
      if !ValidFeedback(input, UserRejected) || cooldown <= 0 {
        return Some(InvalidInput);
      }
      fault := None;
      if input.subjectID != snapshot.subjectID {
        return;
      }
      if snapshot.rejection.start != UNSET && input.occurredAt < snapshot.rejection.start {
        return;
      }
      snapshot := snapshot.(rejection := Cooldown(input.occurredAt, input.occurredAt + cooldown));
      snapshot := snapshot.(version := snapshot.version + 1, updatedAt := input.occurredAt);
    }

    method ApplyNoResponse(input: SemanticEvent, cooldown: int) returns (fault: Option<Fault>)
      modifies this
      ensures fault.None? <==> ValidExpiration(input) && cooldown > 0
      ensures snapshot == if fault.None? then NoResponseProjected(old(snapshot), input, cooldown) else old(snapshot)
    {
      if !ValidExpiration(input) || cooldown <= 0 {
        return Some(InvalidInput);
      }
      fault := None;
      if input.subjectID != snapshot.subjectID {
        return;
      }
      if snapshot.noResponse.start != UNSET && input.occurredAt < snapshot.noResponse.start {
        return;
      }
      snapshot := snapshot.(noResponse := Cooldown(input.occurredAt, input.occurredAt + cooldown));
      snapshot := snapshot.(version := snapshot.version + 1, updatedAt := input.occurredAt);
    }
  }

  // ---------------------------------------------------------------------------
  // What a cooldown is, over every arrival order.

  /** c is the cooldown the facts at these times leave: it starts at the latest of
      them, however they arrived, and lasts the configured time. */
  ghost predicate LatestCooldown(c: Cooldown, times: seq<Time>, length: int) {
    if times == [] then c == Cooldown(UNSET, UNSET)
    else c.start in times && (forall t :: t in times ==> t <= c.start) && c.until == c.start + length
  }

  lemma CooldownStep(c: Cooldown, times: seq<Time>, length: int, at: Time)
    requires LatestCooldown(c, times, length) && (forall t :: t in times ==> t != UNSET)
    ensures LatestCooldown(if Supersedes(c, at) then Cooldown(at, at + length) else c, times + [at], length)
  {
  }

  /** Two arrival orders of the same facts leave the same cooldown. */
  lemma CooldownIgnoresOrder(c: Cooldown, d: Cooldown, times: seq<Time>, reordered: seq<Time>, length: int)
    requires multiset(times) == multiset(reordered)
    requires LatestCooldown(c, times, length) && LatestCooldown(d, reordered, length)
    ensures c == d
  {
    assert |times| == |multiset(times)| == |multiset(reordered)| == |reordered|;
    if times != [] {
      assert c.start in multiset(times) && d.start in multiset(reordered);
      assert c.start in reordered && d.start in times;
    }
  }

  // ---------------------------------------------------------------------------
  // What the three signals are, over every history.

  /** A snapshot shows what a timeline knows. */
  predicate Shows(w: WorldSnapshot, t: Timeline) {
    && w.personPresent == (t.presenceKnown && t.present)
    && w.userBusy == (t.busyKnown && t.busy)
    && w.quietMode == (t.quietKnown && t.quiet)
    && (!w.userBusy ==> w.busyReason == "")
  }

  /** A busy user's reason is the one reported when the current busy run began. */
  ghost predicate ReasonOfRun(w: WorldSnapshot, h: seq<Observation>) {
    forall i :: CurrentRun(h, Busy, true, i) ==> h[i].userBusy.Some? && w.busyReason == h[i].userBusy.value.reason
  }

  /** The reason a busy signal leaves behind. */
  function ReasonAfter(busy: bool, reason: string, o: Observation): string {
    if Busy(o).None? then reason
    else if !Busy(o).value then ""
    else if busy then reason else o.userBusy.value.reason
  }

  /** Projecting the one transition of an observation, and nothing for a reply,
      keeps showing what the timeline knows. */
  lemma ShowsStep(threshold: int, t: Timeline, w: WorldSnapshot, o: Observation, after: WorldSnapshot)
    requires w.subjectID == o.subjectID && Payloads(o) == 1 && Shows(w, t)
    requires var change := Transition(threshold, t, o);
      after == if change.Some? && change.value.0 != UserReplied then Projected(w, TransitionEvent(o, change.value)) else w
    ensures Shows(after, NextTimeline(t, o))
    ensures after.busyReason == ReasonAfter(w.userBusy, w.busyReason, o)
  {
    if Transition(threshold, t, o).Some? {
      var change := Transition(threshold, t, o).value;
      ProjectedSignals(w, TransitionEvent(o, change));
    }
  }

  /** What one event of the snapshot's own subject does to the signals. */
  lemma ProjectedSignals(w: WorldSnapshot, e: SemanticEvent)
    requires e.subjectID == w.subjectID
    ensures var p := Projected(w, e);
      && p.personPresent == (if e.kind in {PersonDetected, PersonReturned} then true
                             else if e.kind == PersonLeft then false else w.personPresent)
      && p.userBusy == (if e.kind == UserBecameBusy then true
                        else if e.kind == UserBecameAvailable then false else w.userBusy)
      && p.quietMode == (if e.kind == QuietModeEnabled then true
                         else if e.kind == QuietModeDisabled then false else w.quietMode)
      && p.busyReason == (if e.kind == UserBecameBusy then e.busyReason
                          else if e.kind == UserBecameAvailable then "" else w.busyReason)
  {
  }

  lemma ReasonStep(t: Timeline, w: WorldSnapshot, h: seq<Observation>, o: Observation, after: WorldSnapshot)
    requires Tracks(h, Busy, t.busyKnown, t.busy) && w.userBusy == (t.busyKnown && t.busy)
    requires ReasonOfRun(w, h) && after.busyReason == ReasonAfter(w.userBusy, w.busyReason, o)
    ensures ReasonOfRun(after, h + [o])
  {
    forall i | CurrentRun(h + [o], Busy, true, i)
      ensures (h + [o])[i].userBusy.Some? && after.busyReason == (h + [o])[i].userBusy.value.reason
    {
      BusyRunStep(t, h, o, i);
    }
  }

  /** A busy run current after one more observation is the old one or starts there. */
  lemma BusyRunStep(t: Timeline, h: seq<Observation>, o: Observation, i: int)
    requires Tracks(h, Busy, t.busyKnown, t.busy)
    requires CurrentRun(h + [o], Busy, true, i)
    ensures if Busy(o) == Some(true) && !(t.busyKnown && t.busy) then i == |h| && (h + [o])[i] == o
            else t.busyKnown && t.busy && Busy(o) != Some(false) && CurrentRun(h, Busy, true, i) && (h + [o])[i] == h[i]
    ensures (h + [o])[i].userBusy.Some?
  {
    var g := h + [o];
    assert forall j :: 0 <= j < |h| ==> g[j] == h[j];
    if t.busyKnown {
      var k :| CurrentRun(h, Busy, t.busy, k);
      ExtendRun(h, o, Busy, t.busy, k);
      if Busy(o) == Some(!t.busy) {
        CurrentRunUnique(g, Busy, true, i, !t.busy, |h|);
      } else {
        CurrentRunUnique(g, Busy, true, i, t.busy, k);
      }
    }
  }

  /** The last value each signal was observed with. */
  ghost predicate LastValue(h: seq<Observation>, signal: Observation -> Option<bool>, v: bool) {
    exists i :: 0 <= i < |h| && signal(h[i]) == Some(v) && forall j :: i < j < |h| ==> signal(h[j]).None?
  }

  lemma LastReport(h: seq<Observation>, signal: Observation -> Option<bool>) returns (k: int)
    requires exists i :: 0 <= i < |h| && signal(h[i]).Some?
    ensures 0 <= k < |h| && signal(h[k]).Some? && forall j :: k < j < |h| ==> signal(h[j]).None?
  {
    k := |h| - 1;
    while signal(h[k]).None?
      invariant 0 <= k < |h| && forall j :: k < j < |h| ==> signal(h[j]).None?
      decreases k
    {
      k := k - 1;
    }
  }

  /** The value of the current run is the last value observed. */
  lemma RunIsLastValue(h: seq<Observation>, signal: Observation -> Option<bool>, known: bool, value: bool)
    requires Tracks(h, signal, known, value)
    ensures LastValue(h, signal, true) <==> known && value
  {
    if known {
      var i :| CurrentRun(h, signal, value, i);
      var k := LastReport(h, signal);
      assert k >= i && signal(h[k]) != Some(!value);
      var report := signal(h[k]);
      assert report == Some(report.value) && report.value == value;
    }
  }

  /** The snapshot equals the last observation of each kind. */
  lemma SnapshotIsLastObserved(w: WorldSnapshot, t: Timeline, h: seq<Observation>)
    requires Shows(w, t) && TimelineMatches(t, h)
    ensures w.personPresent <==> LastValue(h, Presence, true)
    ensures w.userBusy <==> LastValue(h, Busy, true)
    ensures w.quietMode <==> LastValue(h, Quiet, true)
  {
    RunIsLastValue(h, Presence, t.presenceKnown, t.present);
    RunIsLastValue(h, Busy, t.busyKnown, t.busy);
    RunIsLastValue(h, Quiet, t.quietKnown, t.quiet);
  }
}
