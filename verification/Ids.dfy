/** The identifiers the engine derives from observation and control ids, as text.

    Deduplication, episode identity and wakeup tokens compare these texts, so the
    safety of every run rests on the derivations being injective. */
module Ids {

  datatype EventKind =
    | PersonLeft | PersonDetected | PersonReturned
    | UserBecameBusy | UserBecameAvailable
    | QuietModeEnabled | QuietModeDisabled
    | UserRejected | UserReplied | ResponseWindowExpired

  function KindText(kind: EventKind): string {
    match kind
    case PersonLeft => "PERSON_LEFT"
    case PersonDetected => "PERSON_DETECTED"
    case PersonReturned => "PERSON_RETURNED"
    case UserBecameBusy => "USER_BECAME_BUSY"
    case UserBecameAvailable => "USER_BECAME_AVAILABLE"
    case QuietModeEnabled => "QUIET_MODE_ENABLED"
    case QuietModeDisabled => "QUIET_MODE_DISABLED"
    case UserRejected => "USER_REJECTED"
    case UserReplied => "USER_REPLIED"
    case ResponseWindowExpired => "RESPONSE_WINDOW_EXPIRED"
  }

  function EventId(source: string, kind: EventKind): string {
    "evt:" + source + ":" + KindText(kind)
  }

  function InteractionId(eventId: string): string { "interaction:" + eventId }

  function DecisionId(eventId: string): string { "decision:" + eventId }

  function EpisodeId(interactionId: string): string { "episode:" + interactionId }

  function WakeupToken(episodeId: string): string { "wakeup:" + episodeId + ":user.reply" }

  function OutcomeId(feedbackId: string): string { "outcome:" + feedbackId }

  /** The episode a return observation would start. */
  function EpisodeFor(observationId: string): string {
    EpisodeId(InteractionId(EventId(observationId, PersonReturned)))
  }

  /** The expiration event of an episode's reply window. */
  function ExpiryOf(episodeId: string): string { EventId(WakeupToken(episodeId), ResponseWindowExpired) }

  function ExpiryFor(observationId: string): string { ExpiryOf(EpisodeFor(observationId)) }

  /** The colon before a colon-free last word is the last colon of the text. */
  lemma LastColon(a: string, x: string)
    requires ':' !in x
    ensures var s := a + ":" + x;
      |s| == |a| + 1 + |x| && s[|a|] == ':' && forall i :: |a| < i < |s| ==> s[i] != ':'
  {
    var s := a + ":" + x;
    forall i | |a| < i < |s| ensures s[i] != ':' {
      assert s[i] == x[i - |a| - 1];
    }
  }

  /** So a text that ends in a colon-free word determines where that word starts. */
  lemma SplitAtLastColon(a: string, x: string, b: string, y: string)
    requires ':' !in x && ':' !in y
    requires a + ":" + x == b + ":" + y
    ensures a == b && x == y
  {
    LastColon(a, x);
    LastColon(b, y);
    var s, t := a + ":" + x, b + ":" + y;
    assert |a| == |b|;
    assert a == s[..|a|] && b == t[..|b|];
    assert x == s[|a| + 1..] && y == t[|b| + 1..];
  }

  lemma KindTextInjective(k: EventKind, l: EventKind)
    ensures KindText(k) == KindText(l) <==> k == l
    ensures ':' !in KindText(k)
  {
    var s, t := KindText(k), KindText(l);
    assert |s| > 7 && |t| > 7;
    assert |s| == |t| && s[7] == t[7] ==> k == l;
  }

  /** Distinct sources or distinct kinds never share an event id, whatever the
      source ids look like (they may themselves contain colons). */
  lemma EventIdInjective(a: string, k: EventKind, b: string, l: EventKind)
    ensures EventId(a, k) == EventId(b, l) <==> a == b && k == l
  {
    if EventId(a, k) == EventId(b, l) {
      KindTextInjective(k, l);
      KindTextInjective(l, k);
      SplitAtLastColon("evt:" + a, KindText(k), "evt:" + b, KindText(l));
      PrefixInjective("evt:", a, b);
    }
  }

  lemma PrefixInjective(p: string, a: string, b: string)
    requires p + a == p + b
    ensures a == b
  {
    assert a == (p + a)[|p|..] && b == (p + b)[|p|..];
  }

  /** Two episodes never share a wakeup token or an expiration. */
  lemma WakeupTokenInjective(a: string, b: string)
    ensures WakeupToken(a) == WakeupToken(b) <==> a == b
    ensures ExpiryOf(a) == ExpiryOf(b) <==> a == b
  {
    if WakeupToken(a) == WakeupToken(b) {
      assert ":user.reply" == ":" + "user.reply";
      assert WakeupToken(a) == "wakeup:" + a + ":" + "user.reply" && WakeupToken(b) == "wakeup:" + b + ":" + "user.reply";
      SplitAtLastColon("wakeup:" + a, "user.reply", "wakeup:" + b, "user.reply");
      PrefixInjective("wakeup:", a, b);
    }
    EventIdInjective(WakeupToken(a), ResponseWindowExpired, WakeupToken(b), ResponseWindowExpired);
  }

  /** Two observations never name the same episode or the same expiration. */
  lemma EpisodeForInjective(a: string, b: string)
    ensures EpisodeFor(a) == EpisodeFor(b) <==> a == b
    ensures ExpiryFor(a) == ExpiryFor(b) <==> a == b
  {
    if EpisodeFor(a) == EpisodeFor(b) {
      PrefixInjective("episode:", InteractionId(EventId(a, PersonReturned)), InteractionId(EventId(b, PersonReturned)));
      PrefixInjective("interaction:", EventId(a, PersonReturned), EventId(b, PersonReturned));
      EventIdInjective(a, PersonReturned, b, PersonReturned);
    }
    WakeupTokenInjective(EpisodeFor(a), EpisodeFor(b));
  }
}
