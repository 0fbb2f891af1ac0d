/** The camera worker's presence hysteresis: it enters on enough detections in a
    sliding window and exits on consecutive misses. */
module Presence {
  import opened Prelude
  import opened Sliding

  datatype Thresholds = Thresholds(window: nat, hits: nat, absent: nat)

  predicate ValidThresholds(t: Thresholds) { 0 < t.hits <= t.window && t.absent > 0 }

  /** What the past amounts to: the state last entered, the misses at the end, and the
      number of frames since the window was last cleared. */
  datatype Memory = Memory(current: Option<bool>, misses: nat, since: nat)

  const NEW := Memory(None, 0, 0)

  function Misses(m: Memory, detected: bool): nat { if detected then 0 else m.misses + 1 }

  /** What a frame emits, given whether the window now holds enough hits. */
  function Emitted(t: Thresholds, m: Memory, detected: bool, enough: bool): Option<bool> {
    if m.current != Some(true) && enough then Some(true)
    else if m.current != Some(false) && Misses(m, detected) >= t.absent then Some(false)
    else None
  }

  function Updated(t: Thresholds, m: Memory, detected: bool, enough: bool): Memory {
    match Emitted(t, m, detected, enough)
    case Some(true) => Memory(Some(true), 0, m.since + 1)
    case Some(false) => Memory(Some(false), Misses(m, detected), 0)
    case None => Memory(m.current, Misses(m, detected), m.since + 1)
  }

  /** Hits in the window that ends with the first n frames. */
  function Hits(t: Thresholds, frames: seq<bool>, n: nat, since: nat): nat
    requires since <= n <= |frames|
  {
    CountIn(frames, n - Min(since, t.window), n)
  }

  function MemoryAt(t: Thresholds, frames: seq<bool>, n: nat): (m: Memory)
    requires n <= |frames|
    ensures m.since <= n
  {
    if n == 0 then NEW
    else Updated(t, MemoryAt(t, frames, n - 1), frames[n - 1], Enough(t, frames, n - 1, MemoryAt(t, frames, n - 1).since))
  }

  /** Frame n brings the window to enough hits. */
  predicate Enough(t: Thresholds, frames: seq<bool>, n: nat, since: nat)
    requires since <= n < |frames|
  {
    Hits(t, frames, n + 1, since + 1) >= t.hits
  }

  /** What frame n emits, and everything emitted before it. */
  function EmissionAt(t: Thresholds, frames: seq<bool>, n: nat): Option<bool>
    requires n < |frames|
  {
    var m := MemoryAt(t, frames, n);
    Emitted(t, m, frames[n], Enough(t, frames, n, m.since))
  }

  function Emissions(t: Thresholds, frames: seq<bool>, n: nat): seq<bool>
    requires n <= |frames|
  {
    if n == 0 then []
    else
      match EmissionAt(t, frames, n - 1)
      case None => Emissions(t, frames, n - 1)
      case Some(b) => Emissions(t, frames, n - 1) + [b]
  }

  lemma EnoughIsFixed(t: Thresholds, frames: seq<bool>, more: seq<bool>, n: nat, since: nat)
    requires since <= n < |frames|
    ensures Enough(t, frames + more, n, since) == Enough(t, frames, n, since)
  {
    var k := Min(since + 1, t.window);
    CountSame(frames + more, n + 1 - k, frames, n + 1 - k, k);
  }

  /** Later frames do not change what came before. */
  lemma {:induction false} PastIsFixed(t: Thresholds, frames: seq<bool>, more: seq<bool>, n: nat)
    requires n <= |frames|
    ensures MemoryAt(t, frames + more, n) == MemoryAt(t, frames, n)
  {
    if n > 0 {
      PastIsFixed(t, frames, more, n - 1);
      EnoughIsFixed(t, frames, more, n - 1, MemoryAt(t, frames, n - 1).since);
    }
  }

  lemma {:induction false} OneMore(t: Thresholds, frames: seq<bool>, detected: bool)
    ensures var longer, m := frames + [detected], MemoryAt(t, frames, |frames|);
      var enough := Enough(t, longer, |frames|, m.since);
      && EmissionAt(t, longer, |frames|) == Emitted(t, m, detected, enough)
      && MemoryAt(t, longer, |longer|) == Updated(t, m, detected, enough)
  {
    PastIsFixed(t, frames, [detected], |frames|);
  }

  lemma WindowSlides(t: Thresholds, window: seq<bool>, seen: seq<bool>, since: nat, detected: bool)
    requires ValidThresholds(t) && Holds(window, seen, since, t.window)
    ensures var slid, longer := Push(window, detected, t.window), seen + [detected];
      && Holds(slid, longer, since + 1, t.window)
      && (CountIn(slid, 0, |slid|) >= t.hits <==> Enough(t, longer, |seen|, since))
  {
    PushHolds(window, seen, since, t.window, detected);
    HoldsCount(Push(window, detected, t.window), seen + [detected], since + 1, t.window);
  }

  // ---------------------------------------------------------------------------
  // The gate as written: a bounded deque, cleared on every exit.

  datatype Gauge = Gauge(window: seq<bool>, absentRun: nat, current: Option<bool>)

  predicate Full(t: Thresholds, window: seq<bool>) { CountIn(window, 0, |window|) >= t.hits }

  function Shown(t: Thresholds, g: Gauge, detected: bool): Option<bool> {
    var run := if detected then 0 else g.absentRun + 1;
    if g.current != Some(true) && Full(t, Push(g.window, detected, t.window)) then Some(true)
    else if g.current != Some(false) && run >= t.absent then Some(false)
    else None
  }

  function Stepped(t: Thresholds, g: Gauge, detected: bool): Gauge {
    var run := if detected then 0 else g.absentRun + 1;
    var slid := Push(g.window, detected, t.window);
    match Shown(t, g, detected)
    case Some(true) => Gauge(slid, 0, Some(true))
    case Some(false) => Gauge([], run, Some(false))
    case None => Gauge(slid, run, g.current)
  }

  class PresenceHysteresis {
    const thresholds: Thresholds
    var window: seq<bool>
    var absentRun: nat
    var current: Option<bool>

    function Model(): Gauge
      reads this
    {
      Gauge(window, absentRun, current)
    }

    constructor (thresholds: Thresholds)
      ensures this.thresholds == thresholds && Model() == Gauge([], 0, None)
    {
      this.thresholds, window, absentRun, current := thresholds, [], 0, None;
    }

    method Update(detected: bool) returns (transition: Option<bool>)
      modifies this
      ensures transition == Shown(thresholds, old(Model()), detected)
      ensures Model() == Stepped(thresholds, old(Model()), detected)
    {
      window := Push(window, detected, thresholds.window);
      absentRun := if detected then 0 else absentRun + 1;
      var sum := Sum(window);
      if current != Some(true) && sum >= thresholds.hits {
        current, absentRun := Some(true), 0;
        return Some(true);
      }
      if current != Some(false) && absentRun >= thresholds.absent {
        current, window := Some(false), [];
        return Some(false);
      }
      transition := None;
    }
  }

  /** The gate's fields represent everything it has seen. */
  predicate Represents(t: Thresholds, g: Gauge, seen: seq<bool>) {
    var m := MemoryAt(t, seen, |seen|);
    m.current == g.current && m.misses == g.absentRun && Holds(g.window, seen, m.since, t.window)
  }

  /** Starting from nothing seen, every update keeps the fields in step with the whole
      history and emits what the history calls for. */
  lemma UpdateRefines(t: Thresholds, g: Gauge, seen: seq<bool>, detected: bool)
    requires ValidThresholds(t)
    ensures Represents(t, Gauge([], 0, None), [])
    ensures Represents(t, g, seen) ==>
      && Represents(t, Stepped(t, g, detected), seen + [detected])
      && Shown(t, g, detected) == EmissionAt(t, seen + [detected], |seen|)
  {
    if Represents(t, g, seen) {
      OneMore(t, seen, detected);
      WindowSlides(t, g.window, seen, MemoryAt(t, seen, |seen|).since, detected);
    }
  }

  // ---------------------------------------------------------------------------
  // Whole histories.

  function TrailingMisses(frames: seq<bool>, n: nat): nat
    requires n <= |frames|
  {
    if n == 0 || frames[n - 1] then 0 else TrailingMisses(frames, n - 1) + 1
  }

  /** A frame adds at most itself to the hits in the window. */
  lemma HitsGrow(t: Thresholds, frames: seq<bool>, n: nat, since: nat)
    requires since <= n < |frames| && t.window > 0
    ensures Hits(t, frames, n + 1, since + 1) <= Hits(t, frames, n, since) + if frames[n] then 1 else 0
  {
    CountLater(frames, n - Min(since, t.window), n + 1 - Min(since + 1, t.window), n);
  }

  /** What holds after every history: unless present, too few hits are in the window;
      unless absent, too few misses trail. */
  predicate Settled(t: Thresholds, frames: seq<bool>, n: nat)
    requires n <= |frames|
  {
    var m := MemoryAt(t, frames, n);
    && m.misses == TrailingMisses(frames, n)
    && (m.current != Some(true) ==> Hits(t, frames, n, m.since) < t.hits)
    && (m.current != Some(false) ==> m.misses < t.absent)
  }

  lemma {:induction false} AlwaysSettled(t: Thresholds, frames: seq<bool>, n: nat)
    requires ValidThresholds(t) && n <= |frames|
    ensures Settled(t, frames, n)
  {
    if n > 0 {
      AlwaysSettled(t, frames, n - 1);
      HitsGrow(t, frames, n - 1, MemoryAt(t, frames, n - 1).since);
    }
  }

  /** Presence is entered only on a frame with a detection, the one that completes the
      required hits. */
  lemma {:induction false} EntersOnlyOnDetection(t: Thresholds, frames: seq<bool>, n: nat)
    requires ValidThresholds(t) && n < |frames| && EmissionAt(t, frames, n) == Some(true)
    ensures frames[n] && Hits(t, frames, n + 1, MemoryAt(t, frames, n).since + 1) == t.hits
  {
    AlwaysSettled(t, frames, n);
    HitsGrow(t, frames, n, MemoryAt(t, frames, n).since);
  }

  /** Presence is exited exactly when the trailing misses reach the limit, unless it
      already was. */
  lemma {:induction false} ExitsExactlyAtLimit(t: Thresholds, frames: seq<bool>, n: nat)
    requires ValidThresholds(t) && n < |frames|
    ensures EmissionAt(t, frames, n) == Some(false) <==>
      MemoryAt(t, frames, n).current != Some(false) && TrailingMisses(frames, n + 1) == t.absent
  {
    AlwaysSettled(t, frames, n);
    HitsGrow(t, frames, n, MemoryAt(t, frames, n).since);
  }

  /** Emissions strictly alternate, and the last one is the current state. */
  lemma {:induction false} EmissionsAlternate(t: Thresholds, frames: seq<bool>, n: nat)
    requires n <= |frames|
    ensures var e := Emissions(t, frames, n);
      && (forall i :: 0 < i < |e| ==> e[i] != e[i - 1])
      && MemoryAt(t, frames, n).current == if e == [] then None else Some(Last(e))
  {
    if n > 0 {
      EmissionsAlternate(t, frames, n - 1);
    }
  }

  // ---------------------------------------------------------------------------
  // How many transitions fit.

  /** How often the first n frames emitted b. */
  function Transitions(t: Thresholds, frames: seq<bool>, n: nat, b: bool): nat
    requires n <= |frames|
  {
    if n == 0 then 0 else Transitions(t, frames, n - 1, b) + if EmissionAt(t, frames, n - 1) == Some(b) then 1 else 0
  }

  /** Frames an emission uses: an entry its hits, an exit its misses. */
  function Price(t: Thresholds, emitted: Option<bool>): nat {
    match emitted
    case None => 0
    case Some(b) => if b then t.hits else t.absent
  }

  function Used(t: Thresholds, frames: seq<bool>, n: nat): nat
    requires n <= |frames|
  {
    if n == 0 then 0 else Used(t, frames, n - 1) + Price(t, EmissionAt(t, frames, n - 1))
  }

  lemma PricedStep(t: Thresholds, entries: nat, exits: nat, emitted: Option<bool>)
    ensures Lots(entries + (if emitted == Some(true) then 1 else 0), t.hits) + Lots(exits + (if emitted == Some(false) then 1 else 0), t.absent)
            == Lots(entries, t.hits) + Lots(exits, t.absent) + Price(t, emitted)
  {
  }

  lemma {:induction false} UsedIsPriced(t: Thresholds, frames: seq<bool>, n: nat)
    requires n <= |frames|
    ensures Used(t, frames, n) == Lots(Transitions(t, frames, n, true), t.hits) + Lots(Transitions(t, frames, n, false), t.absent)
  {
    if n > 0 {
      UsedIsPriced(t, frames, n - 1);
      PricedStep(t, Transitions(t, frames, n - 1, true), Transitions(t, frames, n - 1, false), EmissionAt(t, frames, n - 1));
    }
  }

  /** What was used, and the hits or misses that trail it, fits in the frames. */
  predicate Accounted(used: nat, m: Memory, hits: nat, n: nat) {
    && (m.current != Some(true) ==> used + hits <= n)
    && (m.current != Some(false) ==> used + m.misses <= n)
    && used <= n
  }

  lemma AccountedStep(t: Thresholds, used: nat, m: Memory, before: nat, after: nat, detected: bool, n: nat)
    requires ValidThresholds(t) && Accounted(used, m, before, n)
    requires (m.current != Some(true) ==> before < t.hits) && after <= before + if detected then 1 else 0
    ensures var emitted := Emitted(t, m, detected, after >= t.hits);
      Accounted(used + Price(t, emitted), Updated(t, m, detected, after >= t.hits), if emitted == Some(false) then 0 else after, n + 1)
  {
  }

  /** Frame n, seen as one step. */
  lemma Advance(t: Thresholds, frames: seq<bool>, n: nat)
    requires ValidThresholds(t) && n < |frames|
    ensures var m, m' := MemoryAt(t, frames, n), MemoryAt(t, frames, n + 1);
      var after := Hits(t, frames, n + 1, m.since + 1);
      && after <= Hits(t, frames, n, m.since) + (if frames[n] then 1 else 0)
      && m' == Updated(t, m, frames[n], after >= t.hits)
      && EmissionAt(t, frames, n) == Emitted(t, m, frames[n], after >= t.hits)
      && Hits(t, frames, n + 1, m'.since) == if EmissionAt(t, frames, n) == Some(false) then 0 else after
  {
    HitsGrow(t, frames, n, MemoryAt(t, frames, n).since);
  }

  ghost predicate AccountedAt(t: Thresholds, frames: seq<bool>, n: nat)
    requires n <= |frames|
  {
    Accounted(Used(t, frames, n), MemoryAt(t, frames, n), Hits(t, frames, n, MemoryAt(t, frames, n).since), n)
  }

  lemma AccountedNext(t: Thresholds, frames: seq<bool>, n: nat)
    requires ValidThresholds(t) && n < |frames| && AccountedAt(t, frames, n) && Settled(t, frames, n)
    ensures AccountedAt(t, frames, n + 1)
  {
    Advance(t, frames, n);
    var m := MemoryAt(t, frames, n);
    AccountedStep(t, Used(t, frames, n), m, Hits(t, frames, n, m.since), Hits(t, frames, n + 1, m.since + 1), frames[n], n);
  }

  lemma {:induction false} AlwaysAccounted(t: Thresholds, frames: seq<bool>, n: nat)
    requires ValidThresholds(t) && n <= |frames|
    ensures AccountedAt(t, frames, n)
  {
    if n > 0 {
      AlwaysAccounted(t, frames, n - 1);
      AlwaysSettled(t, frames, n - 1);
      AccountedNext(t, frames, n - 1);
    }
  }

  /** Every entry uses up its hits and every exit its misses: no frame serves two
      transitions. */
  lemma {:induction false} TransitionsAreRare(t: Thresholds, frames: seq<bool>)
    requires ValidThresholds(t)
    ensures Transitions(t, frames, |frames|, true) * t.hits + Transitions(t, frames, |frames|, false) * t.absent <= |frames|
  {
    AlwaysAccounted(t, frames, |frames|);
    UsedIsPriced(t, frames, |frames|);
    LotsIsProduct(Transitions(t, frames, |frames|, true), t.hits);
    LotsIsProduct(Transitions(t, frames, |frames|, false), t.absent);
  }
}
