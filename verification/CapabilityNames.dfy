/** The names readiness sorts by, and why their rank is their alphabetical place. */
module CapabilityNames {
  import opened Prelude
  import opened Capability
  import opened Readiness

  function Name(k: CapabilityKind): string {
    match k
    case PersonPresence => "PERSON_PRESENCE"
    case FaceDetection => "FACE_DETECTION"
    case FaceIdentification => "FACE_IDENTIFICATION"
    case FaceLiveness => "FACE_LIVENESS"
    case VoiceActivity => "VOICE_ACTIVITY"
    case SpeakerIdentification => "SPEAKER_IDENTIFICATION"
    case SpeakerVerification => "SPEAKER_VERIFICATION"
    case SpeechTranscription => "SPEECH_TRANSCRIPTION"
    case AttentionEstimation => "ATTENTION_ESTIMATION"
    case BusyState => "BUSY_STATE"
    case GestureDetection => "GESTURE_DETECTION"
    case DeviceState => "DEVICE_STATE"
    case DisplayText => "DISPLAY_TEXT"
    case AvatarAttend => "AVATAR_ATTEND"
    case AvatarExpression => "AVATAR_EXPRESSION"
    case SpeechSynthesis => "SPEECH_SYNTHESIS"
    case Gesture => "GESTURE"
    case Light => "LIGHT"
    case Locomotion => "LOCOMOTION"
    case OtherKind(name) => name
  }

  /** The two texts agree up to i, and there the first ends or has the smaller letter. */
  predicate PartsAt(a: string, b: string, i: nat) {
    && i <= |a| && i < |b| && a[..i] == b[..i]
    && (i == |a| || a[i] < b[i])
  }

  ghost predicate Alphabetical(a: string, b: string) { exists i: nat :: PartsAt(a, b, i) }

  lemma AlphabeticalTransitive(a: string, b: string, c: string)
    requires Alphabetical(a, b) && Alphabetical(b, c)
    ensures Alphabetical(a, c)
  {
    var i: nat :| PartsAt(a, b, i);
    var j: nat :| PartsAt(b, c, j);
    var k := if i <= j then i else j;
    assert a[..k] == a[..i][..k] == b[..i][..k] == b[..k] == b[..j][..k] == c[..j][..k] == c[..k];
    if i < j {
      assert b[i] == b[..j][i] == c[..j][i] == c[i];
    } else if j < i {
      assert a[j] == a[..i][j] == b[..i][j] == b[j];
    }
    assert PartsAt(a, c, k);
  }

  lemma PartingsClash(a: string, b: string, i: nat, j: nat)
    requires PartsAt(a, b, i)
    ensures !PartsAt(b, a, j)
  {
    if j < i {
      assert a[j] == a[..i][j] && b[j] == b[..i][j];
    } else if i < j <= |a| && j <= |b| {
      assert a[i] == a[..j][i] && b[i] == b[..j][i];
    }
  }

  /** Two texts are never each before the other. */
  lemma AlphabeticalOneWay(a: string, b: string)
    requires Alphabetical(a, b)
    ensures !Alphabetical(b, a)
  {
    var i: nat :| PartsAt(a, b, i);
    forall j: nat ensures !PartsAt(b, a, j) {
      PartingsClash(a, b, i, j);
    }
  }

  const SORTED: seq<CapabilityKind> := [
    AttentionEstimation, AvatarAttend, AvatarExpression, BusyState, DeviceState, DisplayText, FaceDetection,
    FaceIdentification, FaceLiveness, Gesture, GestureDetection, Light, Locomotion, PersonPresence,
    SpeakerIdentification, SpeakerVerification, SpeechSynthesis, SpeechTranscription, VoiceActivity]

  lemma SortedByRank(k: CapabilityKind)
    requires !k.OtherKind?
    ensures Rank(k) < |SORTED| && SORTED[Rank(k)] == k
  {
  }

  /** Where each name parts from its successor. */
  const PARTINGS: seq<nat> := [1, 7, 0, 0, 1, 0, 5, 5, 0, 7, 0, 1, 0, 0, 8, 3, 7, 0]

  lemma NeighboursFirst(i: nat)
    requires i < 9
    ensures PartsAt(Name(SORTED[i]), Name(SORTED[i + 1]), PARTINGS[i])
  {
    if i == 0 {
      assert PartsAt("ATTENTION_ESTIMATION", "AVATAR_ATTEND", 1);
    } else if i == 1 {
      assert PartsAt("AVATAR_ATTEND", "AVATAR_EXPRESSION", 7);
    } else if i == 2 {
      assert PartsAt("AVATAR_EXPRESSION", "BUSY_STATE", 0);
    } else if i == 3 {
      assert PartsAt("BUSY_STATE", "DEVICE_STATE", 0);
    } else if i == 4 {
      assert PartsAt("DEVICE_STATE", "DISPLAY_TEXT", 1);
    } else if i == 5 {
      assert PartsAt("DISPLAY_TEXT", "FACE_DETECTION", 0);
    } else if i == 6 {
      assert PartsAt("FACE_DETECTION", "FACE_IDENTIFICATION", 5);
    } else if i == 7 {
      assert PartsAt("FACE_IDENTIFICATION", "FACE_LIVENESS", 5);
    } else {
      assert PartsAt("FACE_LIVENESS", "GESTURE", 0);
    }
  }

  lemma NeighboursLast(i: nat)
    requires 9 <= i < 18
    ensures PartsAt(Name(SORTED[i]), Name(SORTED[i + 1]), PARTINGS[i])
  {
    if i == 9 {
      assert PartsAt("GESTURE", "GESTURE_DETECTION", 7);
    } else if i == 10 {
      assert PartsAt("GESTURE_DETECTION", "LIGHT", 0);
    } else if i == 11 {
      assert PartsAt("LIGHT", "LOCOMOTION", 1);
    } else if i == 12 {
      assert PartsAt("LOCOMOTION", "PERSON_PRESENCE", 0);
    } else if i == 13 {
      assert PartsAt("PERSON_PRESENCE", "SPEAKER_IDENTIFICATION", 0);
    } else if i == 14 {
      assert PartsAt("SPEAKER_IDENTIFICATION", "SPEAKER_VERIFICATION", 8);
    } else if i == 15 {
      assert PartsAt("SPEAKER_VERIFICATION", "SPEECH_SYNTHESIS", 3);
    } else if i == 16 {
      assert PartsAt("SPEECH_SYNTHESIS", "SPEECH_TRANSCRIPTION", 7);
    } else {
      assert PartsAt("SPEECH_TRANSCRIPTION", "VOICE_ACTIVITY", 0);
    }
  }

  lemma Neighbours(i: nat)
    requires i + 1 < |SORTED|
    ensures Alphabetical(Name(SORTED[i]), Name(SORTED[i + 1]))
  {
    if i < 9 {
      NeighboursFirst(i);
    } else {
      NeighboursLast(i);
    }
  }

  lemma {:induction false} SortedAlphabetically(i: nat, j: nat)
    requires i < j < |SORTED|
    ensures Alphabetical(Name(SORTED[i]), Name(SORTED[j]))
  {
    Neighbours(j - 1);
    if i < j - 1 {
      SortedAlphabetically(i, j - 1);
      AlphabeticalTransitive(Name(SORTED[i]), Name(SORTED[j - 1]), Name(SORTED[j]));
    }
  }

  /** Sorting by rank is sorting by name. */
  lemma RankIsAlphabetical(k: CapabilityKind, l: CapabilityKind)
    requires !k.OtherKind? && !l.OtherKind?
    ensures Rank(k) < Rank(l) <==> Alphabetical(Name(k), Name(l))
  {
    SortedByRank(k);
    SortedByRank(l);
    if Rank(k) < Rank(l) {
      SortedAlphabetically(Rank(k), Rank(l));
    } else if Rank(l) < Rank(k) {
      SortedAlphabetically(Rank(l), Rank(k));
      AlphabeticalOneWay(Name(l), Name(k));
    } else {
      assert forall i: nat :: !PartsAt(Name(k), Name(k), i);
    }
  }
}
