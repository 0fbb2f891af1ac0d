/** Canonical observations and the per-engine ingress that admits them. */
module Observations {
  import opened Prelude

  datatype UserBusy = UserBusy(busy: bool, reason: string)

  /** Exactly one of the four payloads must be present; ValidateAt checks it. */
  datatype Observation = Observation(
    id: string,
    sourceID: string,
    sourceSeq: nat,
    occurredAt: Time,
    ttl: int,
    subjectID: string,
    confidence: real,
    traceID: string,
    personPresence: Option<bool>,
    userBusy: Option<UserBusy>,
    quietMode: Option<bool>,
    userReply: bool)

  function Payloads(o: Observation): nat {
    (if o.personPresence.Some? then 1 else 0) + (if o.userBusy.Some? then 1 else 0) +
    (if o.quietMode.Some? then 1 else 0) + (if o.userReply then 1 else 0)
  }

  /** Everything names itself, its source, its subject and its trace, has a place in its
      source's sequence, a time, a life span and a confidence between zero and one. */
  predicate Identified(o: Observation) {
    && "" !in {o.id, o.sourceID, o.subjectID, o.traceID}
    && o.sourceSeq >= 1 && o.occurredAt != UNSET && o.ttl >= 1 && 0.0 <= o.confidence <= 1.0
  }

  /** The fault an observation is refused with at time now, if any: none exactly for an
      identified observation of one thing that has not outlived its life span; stale
      exactly for an identified one that has. */
  function ValidateAt(o: Observation, now: Time): (fault: Option<Fault>)
    ensures fault.None? <==>
      && Identified(o) && now <= o.occurredAt + o.ttl
      && Payloads(o) == 1 && (o.userBusy.Some? && o.userBusy.value.busy ==> o.userBusy.value.reason != "")
    ensures fault == Some(StaleInput) <==> Identified(o) && now > o.occurredAt + o.ttl
    ensures fault.Some? ==> fault.value == StaleInput || fault.value == InvalidInput
  {
    if o.id == "" || o.sourceID == "" || o.subjectID == "" || o.traceID == "" then Some(InvalidInput)
    else if o.sourceSeq == 0 || o.occurredAt == UNSET || o.ttl <= 0 then Some(InvalidInput)
    else if o.confidence < 0.0 || o.confidence > 1.0 then Some(InvalidInput)
    else if now > o.occurredAt + o.ttl then Some(StaleInput)
    else if Payloads(o) != 1 then Some(InvalidInput)
    else if o.userBusy.Some? && o.userBusy.value.busy && o.userBusy.value.reason == "" then Some(InvalidInput)
    else None
  }

  datatype IngressState = IngressState(seenIDs: set<string>, lastSeq: map<string, nat>)

  const EMPTY_INGRESS := IngressState({}, map[])

  /** An observation is fresh when its id is new and its source moves forward. */
  predicate Fresh(s: IngressState, o: Observation) {
    o.id !in s.seenIDs && (o.sourceID in s.lastSeq ==> o.sourceSeq > s.lastSeq[o.sourceID])
  }

  function Admit(s: IngressState, o: Observation): IngressState {
    IngressState(s.seenIDs + {o.id}, s.lastSeq[o.sourceID := o.sourceSeq])
  }

  function AcceptFault(s: IngressState, o: Observation, now: Time): Option<Fault> {
    if ValidateAt(o, now).Some? then ValidateAt(o, now)
    else if !Fresh(s, o) then Some(StaleInput)
    else None
  }

  /** Validation, deduplication and per-source sequencing, owned by one engine. */
  class Ingress {
    var seenIDs: set<string>
    var lastSeq: map<string, nat>

    ghost function State(): IngressState
      reads this
    {
      IngressState(seenIDs, lastSeq)
    }

    constructor ()
      ensures State() == EMPTY_INGRESS
    {
      seenIDs, lastSeq := {}, map[];
    }

    method Accept(input: Observation, now: Time) returns (fault: Option<Fault>)
      modifies this
      ensures fault == old(AcceptFault(State(), input, now))
      ensures State() == if fault.None? then Admit(old(State()), input) else old(State())
    {
      fault := ValidateAt(input, now);
      if fault.Some? {
        return;
      }
      if input.id in seenIDs {
        return Some(StaleInput);
      }
      if input.sourceID in lastSeq && input.sourceSeq <= lastSeq[input.sourceID] {
        return Some(StaleInput);
      }
      seenIDs := seenIDs + {input.id};
      lastSeq := lastSeq[input.sourceID := input.sourceSeq];
    }
  }

  /** The observations a stream offered to one ingress gets admitted, each with
      the clock reading it is checked against. */
  function Admitted(offered: seq<(Observation, Time)>): seq<Observation> {
    if offered == [] then []
    else
      var (o, now) := Last(offered);
      var before := Admitted(offered[..|offered| - 1]);
      if AcceptFault(IngressAfter(offered[..|offered| - 1]), o, now).None? then before + [o] else before
  }

  function IngressAfter(offered: seq<(Observation, Time)>): IngressState {
    if offered == [] then EMPTY_INGRESS
    else
      var (o, now) := Last(offered);
      var s := IngressAfter(offered[..|offered| - 1]);
      if AcceptFault(s, o, now).None? then Admit(s, o) else s
  }

  /** What the ingress remembers is exactly its admitted stream: ids never repeat,
      and within one source the sequence numbers strictly increase. */
  lemma {:induction false} AdmittedStreamIsOrdered(offered: seq<(Observation, Time)>)
    ensures var a, s := Admitted(offered), IngressAfter(offered);
      && (forall i, j :: 0 <= i < j < |a| ==> a[i].id != a[j].id)
      && (forall i, j :: 0 <= i < j < |a| && a[i].sourceID == a[j].sourceID ==> a[i].sourceSeq < a[j].sourceSeq)
      && s.seenIDs == (set i | 0 <= i < |a| :: a[i].id)
      && (forall i :: 0 <= i < |a| ==> a[i].sourceID in s.lastSeq && a[i].sourceSeq <= s.lastSeq[a[i].sourceID])
  {
    if offered != [] {
      AdmittedStreamIsOrdered(offered[..|offered| - 1]);
      var a, b := Admitted(offered), Admitted(offered[..|offered| - 1]);
      if a != b {
        assert forall i :: 0 <= i < |b| ==> a[i] == b[i];
        assert a[|b|] == Last(offered).0;
      }
    }
  }

  /** And it admits as much as it may: after any stream an observation is admitted exactly
      when it is valid at that time, its id was not admitted before, and its sequence
      number is beyond every one admitted from its source. */
  lemma {:induction false} AdmittedIff(offered: seq<(Observation, Time)>, o: Observation, now: Time)
    ensures AcceptFault(IngressAfter(offered), o, now).None? <==>
      && ValidateAt(o, now).None?
      && forall i :: 0 <= i < |Admitted(offered)| ==>
           Admitted(offered)[i].id != o.id && (Admitted(offered)[i].sourceID == o.sourceID ==> Admitted(offered)[i].sourceSeq < o.sourceSeq)
    ensures ValidateAt(o, now).None? && AcceptFault(IngressAfter(offered), o, now).Some? ==> AcceptFault(IngressAfter(offered), o, now) == Some(StaleInput)
  {
    AdmittedStreamIsOrdered(offered);
    if o.sourceID in IngressAfter(offered).lastSeq {
      LastSeqIsAdmitted(offered, o.sourceID);
    }
  }

  predicate SeqAdmitted(a: seq<Observation>, source: string, n: nat) {
    exists i :: 0 <= i < |a| && a[i].sourceID == source && a[i].sourceSeq == n
  }

  /** The sequence number remembered for a source is one that was admitted. */
  lemma {:induction false} LastSeqIsAdmitted(offered: seq<(Observation, Time)>, source: string)
    requires source in IngressAfter(offered).lastSeq
    ensures SeqAdmitted(Admitted(offered), source, IngressAfter(offered).lastSeq[source])
  {
    var before := offered[..|offered| - 1];
    var (o, now) := Last(offered);
    if AcceptFault(IngressAfter(before), o, now).None? && o.sourceID == source {
      assert Admitted(offered)[|Admitted(before)|] == o;
    } else {
      LastSeqIsAdmitted(before, source);
      var i :| 0 <= i < |Admitted(before)| && Admitted(before)[i].sourceID == source && Admitted(before)[i].sourceSeq == IngressAfter(before).lastSeq[source];
      assert Admitted(offered)[i] == Admitted(before)[i];
    }
  }
}
