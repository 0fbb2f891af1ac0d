/** The microphone worker: PCM framing, the voice activity gate, and the two together. */
module Microphone {
  import opened Prelude
  import opened Sliding

  type Byte = n: nat | n < 256
  type Bytes = seq<Byte>

  // ---------------------------------------------------------------------------
  // Framing.

  /** Frame size of a supported shape: exactly the bytes of its milliseconds, nothing
      rounded away. */
  function FrameBytes(sampleRate: int, frameMs: int, sampleWidth: int): (r: Option<nat>)
    ensures r.Some? ==> r.value > 0 && r.value * 1_000 == sampleRate * frameMs * sampleWidth
    ensures r.Some? <==> (sampleRate % 8_000 == 0 && sampleRate / 8_000 in {1, 2, 4, 6}) && (frameMs % 10 == 0 && 1 <= frameMs / 10 <= 3) && sampleWidth == 2
  {
    if sampleRate !in {8_000, 16_000, 32_000, 48_000} || frameMs !in {10, 20, 30} || sampleWidth != 2 then None
    else Some(sampleRate * frameMs / 1_000 * sampleWidth)
  }

  /** The whole frames at the front of some bytes. */
  function Frames(size: nat, bytes: Bytes): (r: seq<Bytes>)
    requires size > 0
    ensures forall i :: 0 <= i < |r| ==> |r[i]| == size
  {
    if |bytes| < size then [] else [bytes[..size]] + Frames(size, bytes[size..])
  }

  /** What is left after the whole frames. */
  function Tail(size: nat, bytes: Bytes): (r: Bytes)
    requires size > 0
    ensures |r| < size
  {
    if |bytes| < size then bytes else Tail(size, bytes[size..])
  }

  function Concat(parts: seq<Bytes>): Bytes {
    if parts == [] then [] else parts[0] + Concat(parts[1..])
  }

  /** Frames and tail together are the bytes, in order. */
  lemma {:induction false} NothingLost(size: nat, bytes: Bytes)
    requires size > 0
    ensures Concat(Frames(size, bytes)) + Tail(size, bytes) == bytes
  {
    if |bytes| >= size {
      NothingLost(size, bytes[size..]);
      var rest := Frames(size, bytes[size..]);
      assert Frames(size, bytes)[1..] == rest;
      assert bytes == bytes[..size] + bytes[size..];
    }
  }

  lemma {:induction false} FrameCount(size: nat, bytes: Bytes)
    requires size > 0
    ensures |Frames(size, bytes)| * size + |Tail(size, bytes)| == |bytes|
  {
    if |bytes| >= size {
      FrameCount(size, bytes[size..]);
      var n := |Frames(size, bytes[size..])|;
      assert (n + 1) * size == n * size + size;
    }
  }

  /** More bytes add frames after those already cut, starting from the tail. */
  lemma {:induction false} FramesExtend(size: nat, bytes: Bytes, more: Bytes)
    requires size > 0
    ensures Frames(size, bytes + more) == Frames(size, bytes) + Frames(size, Tail(size, bytes) + more)
    ensures Tail(size, bytes + more) == Tail(size, Tail(size, bytes) + more)
  {
    if |bytes| >= size {
      FramesExtend(size, bytes[size..], more);
      assert (bytes + more)[size..] == bytes[size..] + more;
      assert (bytes + more)[..size] == bytes[..size];
    }
  }

  class PCMFramer {
    const frameBytes: nat
    var tail: Bytes

    ghost predicate Valid()
      reads this
    {
      frameBytes > 0 && |tail| < frameBytes
    }

    constructor (frameBytes: nat)
      requires frameBytes > 0
      ensures Valid() && this.frameBytes == frameBytes && tail == []
    {
      this.frameBytes, tail := frameBytes, [];
    }

    static method New(sampleRate: int, frameMs: int, sampleWidth: int) returns (r: Option<PCMFramer>)
      ensures r.Some? <==> FrameBytes(sampleRate, frameMs, sampleWidth).Some?
      ensures r.Some? ==> fresh(r.value) && r.value.Valid() && r.value.tail == [] && Some(r.value.frameBytes) == FrameBytes(sampleRate, frameMs, sampleWidth)
    {
      var size := FrameBytes(sampleRate, frameMs, sampleWidth);
      if size.None? {
        return None;
      }
      var framer := new PCMFramer(size.value);
      r := Some(framer);
    }

    /** Cut whole frames off the buffer, wiping what is cut. */
    method Push(chunk: Bytes) returns (frames: seq<Bytes>)
      requires Valid()
      modifies this`tail
      ensures Valid()
      ensures frames == Frames(frameBytes, old(tail) + chunk) && tail == Tail(frameBytes, old(tail) + chunk)
    {
      if |chunk| > 0 {
        tail := tail + chunk;
      }
      ghost var bytes := old(tail) + chunk;
      assert tail == bytes;
      frames := [];
      while |tail| >= frameBytes
        invariant frameBytes > 0
        invariant Frames(frameBytes, bytes) == frames + Frames(frameBytes, tail)
        invariant Tail(frameBytes, bytes) == Tail(frameBytes, tail)
        decreases |tail|
      {
        frames := frames + [tail[..frameBytes]];
        var wiped: Bytes := seq(frameBytes, _ => 0);
        tail := wiped + tail[frameBytes..];
        tail := tail[frameBytes..];
      }
    }
  }

  /** All frames of a sequence of pushes, and the tail they leave. */
  function PushAll(size: nat, tail: Bytes, chunks: seq<Bytes>): (seq<Bytes>, Bytes)
    requires size > 0
    decreases chunks
  {
    if chunks == [] then ([], tail)
    else
      var (frames, rest) := PushAll(size, Tail(size, tail + chunks[0]), chunks[1..]);
      (Frames(size, tail + chunks[0]) + frames, rest)
  }

  lemma {:induction false} PushAllFrom(size: nat, tail: Bytes, chunks: seq<Bytes>)
    requires size > 0 && |tail| < size
    decreases chunks
    ensures PushAll(size, tail, chunks) == (Frames(size, tail + Concat(chunks)), Tail(size, tail + Concat(chunks)))
  {
    if chunks == [] {
      assert tail + Concat(chunks) == tail;
    } else {
      var first, rest := tail + chunks[0], Concat(chunks[1..]);
      PushAllFrom(size, Tail(size, first), chunks[1..]);
      FramesExtend(size, first, rest);
      assert first + rest == tail + Concat(chunks);
    }
  }

  /** However the bytes are chunked, the frames are those of the whole, they and the
      tail are all the bytes, and the tail is shorter than a frame. */
  lemma {:induction false} ChunkingDoesNotMatter(size: nat, chunks: seq<Bytes>)
    requires size > 0
    ensures var (frames, tail) := PushAll(size, [], chunks);
      && frames == Frames(size, Concat(chunks)) && |tail| < size
      && Concat(frames) + tail == Concat(chunks)
  {
    PushAllFrom(size, [], chunks);
    assert [] + Concat(chunks) == Concat(chunks);
    NothingLost(size, Concat(chunks));
  }

  // ---------------------------------------------------------------------------
  // The gate.

  datatype Limits = Limits(window: nat, voiced: nat, rearm: nat)

  predicate ValidLimits(l: Limits) { 0 < l.voiced <= l.window && l.rearm > 0 }

  /** What the past amounts to: whether the gate is armed, the silence heard while it
      is not, and the number of frames heard since it was armed. */
  datatype Gate = Gate(armed: bool, silence: nat, since: nat)

  const NEW_GATE := Gate(true, 0, 0)

  /** The last full window of frames, up to and including frame n, is voiced enough. */
  predicate Loud(l: Limits, frames: seq<bool>, n: nat)
    requires n < |frames|
  {
    n + 1 >= l.window && CountIn(frames, n + 1 - l.window, n + 1) >= l.voiced
  }

  /** A frame triggers an armed gate that has heard a whole window since. */
  predicate Fires(l: Limits, g: Gate, loud: bool) { g.armed && g.since + 1 >= l.window && loud }

  function Updated(l: Limits, g: Gate, voiced: bool, loud: bool): Gate {
    if Fires(l, g, loud) then Gate(false, 0, 0)
    else if g.armed then g.(since := g.since + 1)
    else if voiced then Gate(false, 0, 0)
    else if g.silence + 1 >= l.rearm then NEW_GATE
    else Gate(false, g.silence + 1, 0)
  }

  /** The gate after the first n frames, whether frame n triggers it, and how often it
      has triggered before. */
  function GateAt(l: Limits, frames: seq<bool>, n: nat): Gate
    requires n <= |frames|
  {
    if n == 0 then NEW_GATE else Updated(l, GateAt(l, frames, n - 1), frames[n - 1], Loud(l, frames, n - 1))
  }

  predicate Trigger(l: Limits, frames: seq<bool>, n: nat)
    requires n < |frames|
  {
    Fires(l, GateAt(l, frames, n), Loud(l, frames, n))
  }

  function TriggersAt(l: Limits, frames: seq<bool>, n: nat): nat
    requires n <= |frames|
  {
    if n == 0 then 0 else TriggersAt(l, frames, n - 1) + if Trigger(l, frames, n - 1) then 1 else 0
  }

  function Triggers(l: Limits, frames: seq<bool>): nat { TriggersAt(l, frames, |frames|) }

  lemma LoudIsFixed(l: Limits, frames: seq<bool>, more: seq<bool>, n: nat)
    requires n < |frames|
    ensures Loud(l, frames + more, n) == Loud(l, frames, n)
  {
    if n + 1 >= l.window {
      CountSame(frames + more, n + 1 - l.window, frames, n + 1 - l.window, l.window);
    }
  }

  /** Later frames do not change what came before. */
  lemma {:induction false} PastIsFixed(l: Limits, frames: seq<bool>, more: seq<bool>, n: nat)
    requires n <= |frames|
    ensures GateAt(l, frames + more, n) == GateAt(l, frames, n) && TriggersAt(l, frames + more, n) == TriggersAt(l, frames, n)
  {
    if n > 0 {
      PastIsFixed(l, frames, more, n - 1);
      LoudIsFixed(l, frames, more, n - 1);
    }
  }

  lemma {:induction false} OneMore(l: Limits, frames: seq<bool>, voiced: bool)
    ensures var longer := frames + [voiced];
      && GateAt(l, longer, |longer|) == Updated(l, GateAt(l, frames, |frames|), voiced, Loud(l, longer, |frames|))
      && Trigger(l, longer, |longer| - 1) == Fires(l, GateAt(l, frames, |frames|), Loud(l, longer, |frames|))
      && Triggers(l, longer) == Triggers(l, frames) + if Trigger(l, longer, |longer| - 1) then 1 else 0
  {
    PastIsFixed(l, frames, [voiced], |frames|);
  }

  /** Pushing a frame slides the deque over the history; it is full and voiced enough
      exactly when the history is. */
  lemma WindowSlides(l: Limits, window: seq<bool>, heard: seq<bool>, since: nat, voiced: bool)
    requires ValidLimits(l) && Holds(window, heard, since, l.window)
    ensures var slid, longer := Push(window, voiced, l.window), heard + [voiced];
      && Holds(slid, longer, since + 1, l.window)
      && (|slid| >= l.window && CountIn(slid, 0, |slid|) >= l.voiced <==> since + 1 >= l.window && Loud(l, longer, |heard|))
  {
    PushHolds(window, heard, since, l.window, voiced);
    HoldsCount(Push(window, voiced, l.window), heard + [voiced], since + 1, l.window);
  }

  // ---------------------------------------------------------------------------
  // The gate as written: a bounded deque, cleared on every trigger and on rearming.

  datatype Detector = Detector(window: seq<bool>, armed: bool, silenceRun: nat)

  predicate Full(l: Limits, window: seq<bool>) { |window| >= l.window && CountIn(window, 0, |window|) >= l.voiced }

  predicate Detects(l: Limits, d: Detector, voiced: bool) { d.armed && Full(l, Push(d.window, voiced, l.window)) }

  function Stepped(l: Limits, d: Detector, voiced: bool): Detector {
    if !d.armed then
      var run := if voiced then 0 else d.silenceRun + 1;
      if run >= l.rearm then Detector([], true, 0) else d.(silenceRun := run)
    else if Detects(l, d, voiced) then Detector([], false, 0)
    else d.(window := Push(d.window, voiced, l.window))
  }

  class VoiceActivityGate {
    const limits: Limits
    var window: seq<bool>
    var armed: bool
    var silenceRun: nat

    function Model(): Detector
      reads this
    {
      Detector(window, armed, silenceRun)
    }

    constructor (limits: Limits)
      ensures this.limits == limits && Model() == Detector([], true, 0)
    {
      this.limits, window, armed, silenceRun := limits, [], true, 0;
    }

    method Update(voiced: bool) returns (triggered: bool)
      modifies this
      ensures triggered == Detects(limits, old(Model()), voiced)
      ensures Model() == Stepped(limits, old(Model()), voiced)
    {
      if !armed {
        silenceRun := if voiced then 0 else silenceRun + 1;
        if silenceRun >= limits.rearm {
          armed, silenceRun, window := true, 0, [];
        }
        return false;
      }
      window := Push(window, voiced, limits.window);
      var sum := Sum(window);
      if |window| < limits.window || sum < limits.voiced {
        return false;
      }
      armed, silenceRun, window := false, 0, [];
      triggered := true;
    }
  }

  /** The gate's fields represent everything it has heard. */
  predicate Represents(l: Limits, d: Detector, heard: seq<bool>) {
    var g := GateAt(l, heard, |heard|);
    && g.armed == d.armed && (if g.armed then d.silenceRun == 0 && g.silence == 0 else g.silence == d.silenceRun)
    && if d.armed then Holds(d.window, heard, g.since, l.window) else d.window == []
  }

  /** Starting from nothing heard, every update keeps the fields in step with the whole
      history and triggers when the history calls for it. */
  lemma UpdateRefines(l: Limits, d: Detector, heard: seq<bool>, voiced: bool)
    requires ValidLimits(l)
    ensures Represents(l, Detector([], true, 0), [])
    ensures Represents(l, d, heard) ==>
      && Represents(l, Stepped(l, d, voiced), heard + [voiced])
      && Detects(l, d, voiced) == Trigger(l, heard + [voiced], |heard|)
      && Triggers(l, heard + [voiced]) == Triggers(l, heard) + if Detects(l, d, voiced) then 1 else 0
  {
    if Represents(l, d, heard) {
      OneMore(l, heard, voiced);
      if d.armed {
        WindowSlides(l, d.window, heard, GateAt(l, heard, |heard|).since, voiced);
      }
    }
  }

  // ---------------------------------------------------------------------------
  // How often it triggers.

  /** Frames used up by k triggers, and by what was heard since. */
  predicate Spent(l: Limits, k: nat, g: Gate, n: nat) {
    if g.armed then Lots(k, l.window + l.rearm) + g.since <= n && g.silence == 0
    else Lots(k, l.window + l.rearm) + g.silence <= n + l.rearm && g.silence < l.rearm && k >= 1
  }

  lemma {:induction false} AlwaysSpent(l: Limits, frames: seq<bool>, n: nat)
    requires ValidLimits(l) && n <= |frames|
    ensures Spent(l, TriggersAt(l, frames, n), GateAt(l, frames, n), n)
  {
    if n > 0 {
      AlwaysSpent(l, frames, n - 1);
    }
  }

  /** k triggers need k windows, and a stable silence between any two of them. */
  lemma TriggersAreRare(l: Limits, frames: seq<bool>)
    requires ValidLimits(l)
    ensures Triggers(l, frames) * (l.window + l.rearm) <= |frames| + l.rearm
  {
    AlwaysSpent(l, frames, |frames|);
    LotsIsProduct(Triggers(l, frames), l.window + l.rearm);
  }

  // The bound cannot be improved.

  /** n voiced frames, then m silent ones. */
  function Burst(n: nat, m: nat): (r: seq<bool>)
    ensures |r| == n + m && (forall i :: 0 <= i < n ==> r[i]) && (forall i :: n <= i < n + m ==> !r[i])
  {
    seq(n + m, i => i < n)
  }

  /** n bursts of a full voiced window, each followed by a full silence. */
  function Bursts(l: Limits, n: nat): (r: seq<bool>)
    ensures |r| == Lots(n, l.window + l.rearm)
  {
    if n == 0 then [] else Bursts(l, n - 1) + Burst(l.window, l.rearm)
  }

  lemma {:induction false} AllVoiced(s: seq<bool>, b: nat, n: nat)
    requires b + n <= |s| && forall i :: b <= i < b + n ==> s[i]
    ensures CountIn(s, b, b + n) == n
  {
    if n > 0 {
      AllVoiced(s, b, n - 1);
    }
  }

  /** From a new gate, a full window of voiced frames triggers once, at its end. */
  lemma {:induction false} WindowFills(l: Limits, frames: seq<bool>, b: nat, n: nat)
    requires ValidLimits(l) && n <= l.window && b + n <= |frames| && GateAt(l, frames, b) == NEW_GATE
    requires forall i :: b <= i < b + n ==> frames[i]
    ensures GateAt(l, frames, b + n) == if n == l.window then Gate(false, 0, 0) else Gate(true, 0, n)
    ensures TriggersAt(l, frames, b + n) == TriggersAt(l, frames, b) + if n == l.window then 1 else 0
  {
    if n > 0 {
      WindowFills(l, frames, b, n - 1);
      if n == l.window {
        AllVoiced(frames, b, n);
        assert Loud(l, frames, b + n - 1);
      }
    }
  }

  /** A full silence then makes it new again. */
  lemma {:induction false} SilenceRearms(l: Limits, frames: seq<bool>, b: nat, n: nat)
    requires ValidLimits(l) && n <= l.rearm && b + n <= |frames| && GateAt(l, frames, b) == Gate(false, 0, 0)
    requires forall i :: b <= i < b + n ==> !frames[i]
    ensures GateAt(l, frames, b + n) == if n == l.rearm then NEW_GATE else Gate(false, n, 0)
    ensures TriggersAt(l, frames, b + n) == TriggersAt(l, frames, b)
  {
    if n > 0 {
      SilenceRearms(l, frames, b, n - 1);
    }
  }

  lemma {:induction false} BurstTriggers(l: Limits, h: seq<bool>, burst: seq<bool>)
    requires ValidLimits(l) && GateAt(l, h, |h|) == NEW_GATE && |burst| >= l.window
    requires forall i :: 0 <= i < l.window ==> burst[i]
    ensures GateAt(l, h + burst, |h| + l.window) == Gate(false, 0, 0)
    ensures TriggersAt(l, h + burst, |h| + l.window) == Triggers(l, h) + 1
  {
    PastIsFixed(l, h, burst, |h|);
    WindowFills(l, h + burst, |h|, l.window);
  }

  lemma {:induction false} BurstRearms(l: Limits, h: seq<bool>, burst: seq<bool>)
    requires ValidLimits(l) && GateAt(l, h, |h|) == NEW_GATE && |burst| == l.window + l.rearm
    requires forall i :: 0 <= i < l.window ==> burst[i]
    requires forall i :: l.window <= i < l.window + l.rearm ==> !burst[i]
    ensures GateAt(l, h + burst, |h + burst|) == NEW_GATE && Triggers(l, h + burst) == Triggers(l, h) + 1
  {
    BurstTriggers(l, h, burst);
    SilenceRearms(l, h + burst, |h| + l.window, l.rearm);
  }

  lemma {:induction false} BurstsReached(l: Limits, n: nat)
    requires ValidLimits(l)
    ensures GateAt(l, Bursts(l, n), |Bursts(l, n)|) == NEW_GATE && Triggers(l, Bursts(l, n)) == n
  {
    if n > 0 {
      BurstsReached(l, n - 1);
      BurstRearms(l, Bursts(l, n - 1), Burst(l.window, l.rearm));
    }
  }

  /** For every k there is a history in which the bound is met with equality. */
  lemma TriggerBoundIsTight(l: Limits, k: nat)
    requires ValidLimits(l) && k > 0
    ensures var frames := Bursts(l, k - 1) + Burst(l.window, 0);
      Triggers(l, frames) == k && k * (l.window + l.rearm) == |frames| + l.rearm
  {
    BurstsReached(l, k - 1);
    BurstTriggers(l, Bursts(l, k - 1), Burst(l.window, 0));
    LotsIsProduct(k, l.window + l.rearm);
  }

  // ---------------------------------------------------------------------------
  // The worker.

  /** What the voice detector says of each frame; the detector is arbitrary. */
  function Voiced(vad: Bytes -> bool, frames: seq<Bytes>): (r: seq<bool>)
    ensures |r| == |frames|
  {
    seq(|frames|, i requires 0 <= i < |frames| => vad(frames[i]))
  }

  class MicrophoneWorker {
    const framer: PCMFramer
    const gate: VoiceActivityGate

    constructor (framer: PCMFramer, gate: VoiceActivityGate)
      ensures this.framer == framer && this.gate == gate
    {
      this.framer, this.gate := framer, gate;
    }

    /** heard is every verdict so far. A chunk extends it by the verdicts on its
        frames, and publishes once per trigger when the session is active. */
    method Process(chunk: Bytes, vad: Bytes -> bool, active: bool, ghost heard: seq<bool>) returns (published: nat)
      requires framer.Valid() && ValidLimits(gate.limits) && Represents(gate.limits, gate.Model(), heard)
      modifies framer, gate
      ensures framer.Valid() && framer.tail == Tail(framer.frameBytes, old(framer.tail) + chunk)
      ensures var all := heard + Voiced(vad, Frames(framer.frameBytes, old(framer.tail) + chunk));
        && Represents(gate.limits, gate.Model(), all)
        && published == if active then Triggers(gate.limits, all) - Triggers(gate.limits, heard) else 0
    {
      var frames := framer.Push(chunk);
      published := Hear(frames, vad, active, heard);
    }

    method Hear(frames: seq<Bytes>, vad: Bytes -> bool, active: bool, ghost heard: seq<bool>) returns (published: nat)
      requires ValidLimits(gate.limits) && Represents(gate.limits, gate.Model(), heard)
      modifies gate
      ensures Represents(gate.limits, gate.Model(), heard + Voiced(vad, frames))
      ensures published == if active then Triggers(gate.limits, heard + Voiced(vad, frames)) - Triggers(gate.limits, heard) else 0
    {
      published := 0;
      ghost var all, fired := heard, 0;
      for i := 0 to |frames|
        invariant Represents(gate.limits, gate.Model(), all) && |all| == |heard| + i
        invariant forall j :: 0 <= j < |all| ==> all[j] == if j < |heard| then heard[j] else vad(frames[j - |heard|])
        invariant fired >= 0 && Triggers(gate.limits, all) == Triggers(gate.limits, heard) + fired
        invariant published == if active then fired else 0
      {
        UpdateRefines(gate.limits, gate.Model(), all, vad(frames[i]));
        var triggered := gate.Update(vad(frames[i]));
        all := all + [vad(frames[i])];
        if triggered {
          fired := fired + 1;
          if active {
            published := published + 1;
          }
        }
      }
      assert all == heard + Voiced(vad, frames);
    }
  }

  /** Over any stream of bytes in any chunks, the gate triggers as it would on the
      whole, and at most once per window and silence of audio received. */
  lemma {:induction false} ActivityIsRare(l: Limits, size: nat, chunks: seq<Bytes>, vad: Bytes -> bool)
    requires ValidLimits(l) && size > 0
    ensures var frames := PushAll(size, [], chunks).0;
      var k := Triggers(l, Voiced(vad, frames));
      && k == Triggers(l, Voiced(vad, Frames(size, Concat(chunks))))
      && |frames| * size <= |Concat(chunks)|
      && k * (l.window + l.rearm) <= |frames| + l.rearm
  {
    ChunkingDoesNotMatter(size, chunks);
    TriggersAreRare(l, Voiced(vad, Frames(size, Concat(chunks))));
    FrameCount(size, Concat(chunks));
  }
}
