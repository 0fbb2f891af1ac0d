/** Latest-only mailboxes: capacity-one channels that a publisher overwrites under a
    lock while their consumers receive without it. The avatar driver, the capability
    registry and the worker supervisor all publish this way. */
module Mailboxes {
  import opened Prelude

  /** A published value is named by its revision: the nth publish has revision n. */
  type Revision = nat

  // ---------------------------------------------------------------------------
  // Every interleaving.

  /** One subscription: its buffer, what its consumer received, the revision it
      started from and the last one sent to it. */
  datatype Box = Box(buffer: Option<Revision>, closed: bool, received: seq<Revision>, since: Revision, sent: Revision)

  datatype Phase = Trying | Draining | Resending

  /** The publisher holds the lock from Publish until its last send. */
  datatype Publisher = Free | Busy(order: seq<nat>, at: nat, phase: Phase)

  datatype Mail = Mail(revision: Revision, boxes: seq<Box>, publisher: Publisher)

  datatype Step = Subscribe | Unsubscribe(id: nat) | Publish(order: seq<nat>) | PublisherMoves | Unlock | Receive(id: nat)

  const EMPTY := Mail(0, [], Free)

  ghost predicate Covers(boxes: seq<Box>, order: seq<nat>) {
    && Distinct(order)
    && (forall k :: 0 <= k < |order| ==> order[k] < |boxes| && !boxes[order[k]].closed)
    && forall id :: 0 <= id < |boxes| && !boxes[id].closed ==> id in order
  }

  /** Whether the publisher's next move can be made now. Only the resend can block. */
  predicate CanMove(s: Mail) {
    && s.publisher.Busy? && s.publisher.at < |s.publisher.order| && s.publisher.order[s.publisher.at] < |s.boxes|
    && (s.publisher.phase.Resending? ==> s.boxes[s.publisher.order[s.publisher.at]].buffer.None?)
  }

  ghost predicate Enabled(s: Mail, step: Step) {
    match step
    case Subscribe => s.publisher.Free?
    case Unsubscribe(id) => s.publisher.Free? && id < |s.boxes|
    case Publish(order) => s.publisher.Free? && Covers(s.boxes, order)
    case PublisherMoves => CanMove(s)
    case Unlock => s.publisher.Busy? && s.publisher.at >= |s.publisher.order|
    case Receive(id) => id < |s.boxes| && s.boxes[id].buffer.Some?
  }

  function Sent(b: Box, r: Revision): Box { b.(buffer := Some(r), sent := r) }

  function Move(s: Mail): Mail
    requires CanMove(s)
  {
    var Busy(order, at, phase) := s.publisher;
    var id := order[at];
    var b := s.boxes[id];
    match phase
    case Trying =>
      if b.buffer.None? then s.(boxes := s.boxes[id := Sent(b, s.revision)], publisher := Busy(order, at + 1, Trying))
      else s.(publisher := Busy(order, at, Draining))
    case Draining => s.(boxes := s.boxes[id := b.(buffer := None)], publisher := Busy(order, at, Resending))
    case Resending => s.(boxes := s.boxes[id := Sent(b, s.revision)], publisher := Busy(order, at + 1, Trying))
  }

  ghost function Next(s: Mail, step: Step): Mail
    requires Enabled(s, step)
  {
    match step
    case Subscribe => s.(boxes := s.boxes + [Box(None, false, [], s.revision, s.revision)])
    case Unsubscribe(id) => s.(boxes := s.boxes[id := s.boxes[id].(closed := true)])
    case Publish(order) => s.(revision := s.revision + 1, publisher := Busy(order, 0, Trying))
    case PublisherMoves => Move(s)
    case Unlock => s.(publisher := Free)
    case Receive(id) =>
      var b := s.boxes[id];
      s.(boxes := s.boxes[id := b.(buffer := None, received := b.received + [b.buffer.value])])
  }

  ghost predicate Run(steps: seq<Step>, states: seq<Mail>) {
    && |states| == |steps| + 1 && states[0] == EMPTY
    && forall i {:trigger steps[i]} :: 0 <= i < |steps| ==> Enabled(states[i], steps[i]) && states[i + 1] == Next(states[i], steps[i])
  }

  /** Received revisions strictly increase, from the one subscribed at. */
  predicate Increasing(since: Revision, received: seq<Revision>) {
    && (forall i :: 0 <= i < |received| ==> received[i] > since)
    && (forall i, j :: 0 <= i < j < |received| ==> received[i] < received[j])
  }

  /** The last revision sent is in the buffer or already taken. */
  predicate Kept(b: Box) {
    b.sent > b.since ==> b.buffer == Some(b.sent) || (b.received != [] && Last(b.received) == b.sent)
  }

  predicate Consistent(b: Box) {
    && b.since <= b.sent
    && Increasing(b.since, b.received)
    && (forall i :: 0 <= i < |b.received| ==> b.received[i] <= b.sent)
    && (b.buffer.Some? ==> b.buffer.value == b.sent > b.since && forall i :: 0 <= i < |b.received| ==> b.received[i] < b.sent)
  }

  /** Where the publisher stands with one open subscription. */
  predicate Turn(s: Mail, id: nat)
    requires id < |s.boxes|
  {
    var b := s.boxes[id];
    && Consistent(b) && b.sent <= s.revision
    && match s.publisher
       case Free => Kept(b) && (!b.closed ==> b.sent == s.revision)
       case Busy(order, at, phase) =>
         && (b.closed ==> Kept(b))
         && (!b.closed ==> id in order)
         && forall k :: 0 <= k < |order| && order[k] == id ==>
              && !b.closed
              && (k < at ==> b.sent == s.revision)
              && (k >= at ==> b.sent < s.revision)
              && (k == at && phase.Resending? ==> b.buffer.None?)
              && (k != at || !phase.Resending? ==> Kept(b))
  }

  ghost predicate Inv(s: Mail) {
    && (s.publisher.Busy? ==>
          && Distinct(s.publisher.order) && s.publisher.at <= |s.publisher.order|
          && (forall k :: 0 <= k < |s.publisher.order| ==> s.publisher.order[k] < |s.boxes|)
          && (s.publisher.at == |s.publisher.order| ==> s.publisher.phase.Trying?))
    && forall id :: 0 <= id < |s.boxes| ==> Turn(s, id)
  }

  datatype Kind = Subscriptions | Publishes | Unlocks

  predicate IsOf(step: Step, kind: Kind) {
    match kind case Subscriptions => step.Subscribe? case Publishes => step.Publish? case Unlocks => step.Unlock?
  }

  /** How many of the steps are of a kind. */
  function Count(steps: seq<Step>, kind: Kind): nat {
    if steps == [] then 0 else Count(steps[..|steps| - 1], kind) + (if IsOf(Last(steps), kind) then 1 else 0)
  }

  /** Over every run there is one mailbox per subscription, closed exactly when it was
      unsubscribed, and as many revisions as publishes; and the publisher is free exactly
      when every publish was followed by its unlock. */
  lemma {:induction false} MailboxesAreSubscriptions(steps: seq<Step>, states: seq<Mail>, n: nat)
    requires Run(steps, states) && n <= |steps|
    ensures var s, before := states[n], steps[..n];
      && |s.boxes| == Count(before, Subscriptions)
      && s.revision == Count(before, Publishes)
      && (forall id :: 0 <= id < |s.boxes| ==> (s.boxes[id].closed <==> Unsubscribe(id) in before))
      && (forall id: nat :: Unsubscribe(id) in before ==> id < |s.boxes|)
      && Count(before, Publishes) == Count(before, Unlocks) + (if s.publisher.Free? then 0 else 1)
  {
    if n > 0 {
      MailboxesAreSubscriptions(steps, states, n - 1);
      assert steps[..n][..n - 1] == steps[..n - 1] && steps[..n] == steps[..n - 1] + [steps[n - 1]] && Last(steps[..n]) == steps[n - 1];
      assert Enabled(states[n - 1], steps[n - 1]) && states[n] == Next(states[n - 1], steps[n - 1]);
    }
  }

  lemma ReceiveKeeps(s: Mail, id: nat)
    requires Inv(s) && Enabled(s, Receive(id))
    ensures Inv(Next(s, Receive(id)))
  {
    var t := Next(s, Receive(id));
    forall i | 0 <= i < |t.boxes| ensures Turn(t, i) {
      assert Turn(s, i);
    }
  }

  lemma MoveKeeps(s: Mail)
    requires Inv(s) && CanMove(s)
    ensures Inv(Move(s))
  {
    var t := Move(s);
    var id := s.publisher.order[s.publisher.at];
    assert Turn(s, id);
    forall i | 0 <= i < |t.boxes| ensures Turn(t, i) {
      assert Turn(s, i);
    }
  }

  lemma StepKeeps(s: Mail, step: Step)
    requires Inv(s) && Enabled(s, step)
    ensures Inv(Next(s, step))
  {
    var t := Next(s, step);
    match step {
      case Receive(id) => ReceiveKeeps(s, id);
      case PublisherMoves => MoveKeeps(s);
      case _ =>
        forall i | 0 <= i < |t.boxes| ensures Turn(t, i) {
          assert i < |s.boxes| ==> Turn(s, i);
        }
    }
  }

  lemma {:induction false} Always(steps: seq<Step>, states: seq<Mail>, n: nat)
    requires Run(steps, states) && n < |states|
    ensures Inv(states[n])
  {
    if n > 0 {
      Always(steps, states, n - 1);
      StepKeeps(states[n - 1], steps[n - 1]);
    }
  }

  // ---------------------------------------------------------------------------
  // The theorems.

  /** However many publishes, receives and cancellations interleave, the publisher's
      next move never blocks, and it never sends on a closed channel. */
  lemma PublisherNeverBlocks(steps: seq<Step>, states: seq<Mail>)
    requires Run(steps, states) && Last(states).publisher.Busy? && Last(states).publisher.at < |Last(states).publisher.order|
    ensures CanMove(Last(states))
    ensures var s := Last(states);
      !s.boxes[s.publisher.order[s.publisher.at]].closed
  {
    Always(steps, states, |steps|);
    var s := Last(states);
    assert Turn(s, s.publisher.order[s.publisher.at]);
  }

  /** Moves left until a publish is over. */
  function Remaining(p: Publisher): int {
    match p
    case Free => 0
    case Busy(order, at, phase) => 3 * (|order| - at) - (match phase case Trying => 0 case Draining => 1 case Resending => 2)
  }

  /** A publish is over after at most three moves per subscriber, whatever the
      consumers do meanwhile. */
  lemma PublishTerminates(s: Mail, step: Step)
    requires Inv(s) && s.publisher.Busy? && Enabled(s, step)
    ensures if step.PublisherMoves? then 0 <= Remaining(Next(s, step).publisher) < Remaining(s.publisher)
            else step.Receive? || (step.Unlock? && Remaining(s.publisher) == 0)
    ensures step.Receive? ==> Next(s, step).publisher == s.publisher
  {
  }

  /** Between publishes, every open subscription has the newest value in its buffer,
      or its consumer has already taken it, or nothing was published since. */
  lemma NewestIsDelivered(steps: seq<Step>, states: seq<Mail>, id: nat)
    requires Run(steps, states) && Last(states).publisher.Free? && id < |Last(states).boxes| && !Last(states).boxes[id].closed
    ensures var s := Last(states);
      var b := s.boxes[id];
      s.revision == b.since || b.buffer == Some(s.revision) || (b.received != [] && Last(b.received) == s.revision)
  {
    Always(steps, states, |steps|);
    assert Turn(Last(states), id);
  }

  /** What a consumer receives is strictly increasing and newer than the snapshot it
      subscribed with; what is buffered is newer still. */
  lemma ReceivedStrictlyIncrease(steps: seq<Step>, states: seq<Mail>, id: nat)
    requires Run(steps, states) && id < |Last(states).boxes|
    ensures var b := Last(states).boxes[id];
      Increasing(b.since, if b.buffer.Some? then b.received + [b.buffer.value] else b.received)
  {
    Always(steps, states, |steps|);
    assert Turn(Last(states), id);
  }

  // ---------------------------------------------------------------------------
  // Steps taken one after the other.

  ghost predicate Path(s: Mail, steps: seq<Step>, t: Mail)
    decreases steps
  {
    if steps == [] then s == t else Enabled(s, steps[0]) && Path(Next(s, steps[0]), steps[1..], t)
  }

  lemma {:induction false} PathJoin(s: Mail, steps: seq<Step>, t: Mail, more: seq<Step>, u: Mail)
    requires Path(s, steps, t) && Path(t, more, u)
    ensures Path(s, steps + more, u)
    decreases steps
  {
    if steps == [] {
      assert steps + more == more;
    } else {
      PathJoin(Next(s, steps[0]), steps[1..], t, more, u);
      assert (steps + more)[1..] == steps[1..] + more;
    }
  }

  lemma OneStep(s: Mail, step: Step) returns (steps: seq<Step>, t: Mail)
    requires Inv(s) && Enabled(s, step)
    ensures Path(s, steps, t) && t == Next(s, step) && Inv(t)
  {
    steps, t := [step], Next(s, step);
    StepKeeps(s, step);
    assert Path(t, [], t);
  }

  /** The consumer receives, if asked to and if there is something. */
  lemma MayReceive(s: Mail, id: nat, asked: bool) returns (steps: seq<Step>, t: Mail)
    requires Inv(s) && id < |s.boxes|
    ensures Path(s, steps, t) && Inv(t) && t.publisher == s.publisher && t.revision == s.revision && |t.boxes| == |s.boxes|
    ensures t.boxes == s.boxes[id := t.boxes[id]] && t.boxes[id].closed == s.boxes[id].closed
    ensures t.boxes[id].buffer == if asked then None else s.boxes[id].buffer
  {
    if asked && s.boxes[id].buffer.Some? {
      steps, t := OneStep(s, Receive(id));
    } else {
      steps, t := [], s;
    }
  }

  /** The whole send to one subscriber. */
  lemma SendPath(s: Mail, early: bool, late: bool) returns (steps: seq<Step>, t: Mail)
    requires Inv(s) && s.publisher.Busy? && s.publisher.at < |s.publisher.order| && s.publisher.phase.Trying?
    ensures Path(s, steps, t) && Inv(t) && t.revision == s.revision && |t.boxes| == |s.boxes|
    ensures t.publisher == Busy(s.publisher.order, s.publisher.at + 1, Trying)
    ensures var id := s.publisher.order[s.publisher.at];
      t.boxes == s.boxes[id := t.boxes[id]] && t.boxes[id].buffer == Some(s.revision) && t.boxes[id].closed == s.boxes[id].closed
  {
    var id := s.publisher.order[s.publisher.at];
    var more;
    steps, t := MayReceive(s, id, early);
    ghost var u := t;
    more, t := OneStep(u, PublisherMoves);
    PathJoin(s, steps, u, more, t);
    steps := steps + more;
    if t.publisher.phase.Draining? {
      u := t;
      more, t := MayReceive(u, id, late);
      PathJoin(s, steps, u, more, t);
      steps := steps + more;
      u := t;
      more, t := OneStep(u, PublisherMoves);
      PathJoin(s, steps, u, more, t);
      steps := steps + more;
      u := t;
      more, t := OneStep(u, PublisherMoves);
      PathJoin(s, steps, u, more, t);
      steps := steps + more;
    }
  }

  // ---------------------------------------------------------------------------
  // The publishing loop as written.

  class Channel {
    var buffer: Option<Revision>
    var closed: bool

    constructor ()
      ensures buffer.None? && !closed
    {
      buffer, closed := None, false;
    }
  }

  class Hub {
    var revision: Revision
    var subscribers: map<nat, Channel>
    var nextSubID: nat

    /** Subscribed channels are open and distinct. */
    ghost predicate Valid()
      reads this, subscribers.Values
    {
      && (forall id :: id in subscribers ==> id < nextSubID && !subscribers[id].closed)
      && (forall i, j :: i in subscribers && j in subscribers && subscribers[i] == subscribers[j] ==> i == j)
    }

    constructor ()
      ensures Valid() && revision == 0 && subscribers == map[]
    {
      revision, subscribers, nextSubID := 0, map[], 0;
    }

    method Subscribe() returns (id: nat, current: Revision, updates: Channel)
      requires Valid()
      modifies this`subscribers, this`nextSubID
      ensures Valid() && id == old(nextSubID) && current == revision
      ensures fresh(updates) && updates.buffer.None? && subscribers == old(subscribers)[id := updates]
    {
      id, current := nextSubID, revision;
      nextSubID := nextSubID + 1;
      updates := new Channel();
      subscribers := subscribers[id := updates];
    }

    /** Cancelling twice closes once. */
    method Cancel(id: nat)
      requires Valid()
      modifies this`subscribers, subscribers.Values
      ensures Valid() && subscribers == old(subscribers) - {id}
      ensures id in old(subscribers) ==> old(subscribers)[id].closed && old(subscribers)[id].buffer == old(subscribers[id].buffer)
      ensures forall i :: i in subscribers ==> subscribers[i].buffer == old(subscribers[i].buffer)
    {
      if id in subscribers {
        var existing := subscribers[id];
        subscribers := subscribers - {id};
        existing.closed := true;
      }
    }

    /** The open boxes are the subscribed channels. */
    ghost predicate Pictures(s: Mail)
      reads this, subscribers.Values
    {
      && revision == s.revision
      && (forall id :: id in subscribers ==> id < |s.boxes| && !s.boxes[id].closed && s.boxes[id].buffer == subscribers[id].buffer)
      && (forall id :: 0 <= id < |s.boxes| && !s.boxes[id].closed ==> id in subscribers)
    }

    /** Publish to the subscribers in the order the map yields them. early and late
        hold the subscribers whose consumers empty their buffers just before the
        first attempt, and between it and the drain. However they interleave, every
        subscriber ends with the new value in its buffer; and the loop does what the
        step system does, from Publish to Unlock. */
    method PublishLocked(order: seq<nat>, early: set<nat>, late: set<nat>, ghost s: Mail) returns (ghost steps: seq<Step>, ghost t: Mail)
      requires Valid() && Pictures(s) && Inv(s) && s.publisher.Free?
      requires (forall id :: id in order <==> id in subscribers) && Distinct(order)
      modifies this`revision, subscribers.Values
      ensures Valid() && revision == old(revision) + 1
      ensures forall id :: id in subscribers ==> subscribers[id].buffer == Some(revision)
      ensures Path(s, steps, t) && Pictures(t) && Inv(t) && t.publisher.Free?
    {
      assert Covers(s.boxes, order) by {
        forall k | 0 <= k < |order| ensures order[k] < |s.boxes| && !s.boxes[order[k]].closed {
          assert order[k] in order && order[k] in subscribers;
        }
      }
      revision := revision + 1;
      steps, t := OneStep(s, Publish(order));
      ghost var more, u := SendAll(order, early, late, t);
      PathJoin(s, steps, t, more, u);
      steps, t := steps + more, u;
      more, u := OneStep(t, Unlock);
      PathJoin(s, steps, t, more, u);
      steps, t := steps + more, u;
    }

    /** The loop itself, from the first subscriber to the last. */
    method SendAll(order: seq<nat>, early: set<nat>, late: set<nat>, ghost s: Mail) returns (ghost steps: seq<Step>, ghost t: Mail)
      requires Valid() && Pictures(s) && Inv(s) && s.publisher == Busy(order, 0, Trying)
      requires forall id :: id in order <==> id in subscribers
      modifies subscribers.Values
      ensures Valid() && Path(s, steps, t) && Pictures(t) && Inv(t) && t.publisher == Busy(order, |order|, Trying)
      ensures forall id :: id in subscribers ==> subscribers[id].buffer == Some(revision)
    {
      steps, t := [], s;
      for k := 0 to |order|
        invariant Valid() && Path(s, steps, t) && Pictures(t) && Inv(t) && t.publisher == Busy(order, k, Trying)
        invariant forall i :: 0 <= i < k ==> subscribers[order[i]].buffer == Some(revision)
      {
        ghost var more, u := SendTo(order[k], order[k] in early, order[k] in late, t);
        PathJoin(s, steps, t, more, u);
        steps, t := steps + more, u;
      }
    }

    /** One turn of the loop. */
    method SendTo(id: nat, early: bool, late: bool, ghost s: Mail) returns (ghost steps: seq<Step>, ghost t: Mail)
      requires Valid() && id in subscribers && Pictures(s) && Inv(s)
      requires s.publisher.Busy? && s.publisher.at < |s.publisher.order| && s.publisher.phase.Trying? && s.publisher.order[s.publisher.at] == id
      modifies subscribers[id]
      ensures Valid() && Pictures(t) && subscribers[id].buffer == Some(revision)
      ensures Path(s, steps, t) && Inv(t) && t.publisher == Busy(s.publisher.order, s.publisher.at + 1, Trying)
    {
      Send(subscribers[id], revision, early, late);
      steps, t := SendPath(s, early, late);
    }

    /** Try to send; if the buffer is full, drain it and send again. */
    method Send(subscriber: Channel, value: Revision, early: bool, late: bool)
      requires !subscriber.closed
      modifies subscriber`buffer
      ensures subscriber.buffer == Some(value)
    {
      if early {
        subscriber.buffer := None;
      }
      if subscriber.buffer.None? {
        subscriber.buffer := Some(value);
        return;
      }
      if late {
        subscriber.buffer := None;
      }
      if subscriber.buffer.Some? {
        subscriber.buffer := None;
      }
      // The blocking send finds room.
      assert subscriber.buffer.None?;
      subscriber.buffer := Some(value);
    }
  }
}
