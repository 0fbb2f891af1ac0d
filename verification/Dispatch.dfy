/** Dispatching a phase's commands to the embodiment driver and judging the status
    stream each command returns. The driver is arbitrary: its replies are inputs. */
module Dispatch {
  import opened Prelude
  import opened Behaviors

  /** How a status stream stopped being read: the driver closed it, or the
      command's context ended first. */
  datatype Ending = Closed | ContextEnded(timedOut: bool)

  datatype Reply =
    | ExecuteFailed
    | NilStream
    | Stream(statuses: seq<ActionStatus>, ending: Ending)

  datatype Report = Report(statuses: seq<ActionStatus>, executed: nat, fault: Option<Fault>)

  predicate Terminal(s: ActionState) { s in {Completed, Failed, ActionState.Rejected, TimedOut, Cancelled} }

  predicate NoTerminal(statuses: seq<ActionStatus>) {
    forall i :: 0 <= i < |statuses| ==> !Terminal(statuses[i].state)
  }

  function Delivered(r: Reply): seq<ActionStatus> { if r.Stream? then r.statuses else [] }

  /** The fault one command's reply amounts to. */
  function Judge(r: Reply): Option<Fault> {
    match r
    case ExecuteFailed => Some(AdapterRejected)
    case NilStream => Some(Unavailable)
    case Stream(_, ContextEnded(timedOut)) => Some(if timedOut then DeadlineExceeded else Unavailable)
    case Stream(statuses, Closed) =>
      if NoTerminal(statuses) then Some(Unavailable)
      else if !NoTerminal(statuses[..|statuses| - 1]) then Some(AdapterRejected)
      else if Last(statuses).state != Completed then Some(AdapterRejected)
      else None
  }

  /** The only reply that counts as success: a closed stream whose one terminal
      state is COMPLETED and comes last. */
  predicate Clean(r: Reply) {
    && r.Stream? && r.ending.Closed? && r.statuses != []
    && Last(r.statuses).state == Completed
    && NoTerminal(r.statuses[..|r.statuses| - 1])
  }

  lemma JudgeClean(r: Reply)
    ensures Judge(r).None? <==> Clean(r)
  {
    if r.Stream? && r.statuses != [] {
      assert Last(r.statuses) == r.statuses[|r.statuses| - 1];
    }
  }

  /** What each fault says: the time ran out exactly when the command's context timed out;
      the adapter is to blame exactly when it refused the command, or closed a stream that
      had ended otherwise than in one final COMPLETED; otherwise nothing came of it: no
      stream, a cancelled context, or a stream closed without an end. */
  lemma JudgeSays(r: Reply)
    ensures Judge(r) == Some(DeadlineExceeded) <==> r.Stream? && r.ending.ContextEnded? && r.ending.timedOut
    ensures Judge(r) == Some(AdapterRejected) <==>
      r.ExecuteFailed? || (r.Stream? && r.ending.Closed? && !NoTerminal(r.statuses) && !Clean(r))
    ensures Judge(r) == Some(Unavailable) <==>
      r.NilStream? || (r.Stream? && (if r.ending.Closed? then NoTerminal(r.statuses) else !r.ending.timedOut))
  {
    JudgeClean(r);
    if r.Stream? && r.statuses != [] {
      assert Last(r.statuses) == r.statuses[|r.statuses| - 1];
    }
  }

  /** A command the driver never answers waits until its context times out. */
  function ReplyTo(replies: seq<Reply>, i: nat): Reply {
    if i < |replies| then replies[i] else Stream([], ContextEnded(true))
  }

  /** The report after the first n commands: they run in order, and the first
      unclean reply stops the phase. */
  function DispatchFirst(replies: seq<Reply>, n: nat): (r: Report)
    ensures r.executed <= n
  {
    if n == 0 then Report([], 0, None)
    else
      var before := DispatchFirst(replies, n - 1);
      if before.fault.Some? then before
      else
        var reply := ReplyTo(replies, n - 1);
        Report(before.statuses + Delivered(reply), n, Judge(reply))
  }

  function DispatchPhase(commands: seq<ActionCommand>, replies: seq<Reply>): Report {
    DispatchFirst(replies, |commands|)
  }

  /** The first n replies are all clean. */
  predicate AllClean(replies: seq<Reply>, n: nat) {
    forall k :: 0 <= k < n ==> Clean(ReplyTo(replies, k))
  }

  /** A phase succeeds exactly when every reply is clean; otherwise the commands up
      to and including the first unclean one were executed, and no later one. */
  lemma {:induction false} DispatchSucceedsIff(replies: seq<Reply>, n: nat)
    ensures var r := DispatchFirst(replies, n);
      && (r.fault.None? <==> AllClean(replies, n))
      && (r.fault.None? ==> r.executed == n)
      && (r.fault.Some? ==> 0 < r.executed && !Clean(ReplyTo(replies, r.executed - 1)) && AllClean(replies, r.executed - 1))
  {
    if n > 0 {
      DispatchSucceedsIff(replies, n - 1);
      JudgeClean(ReplyTo(replies, n - 1));
      if DispatchFirst(replies, n - 1).fault.None? {
        ExtendClean(replies, n - 1);
      } else {
        ShrinkClean(replies, n - 1);
      }
    }
  }

  /** Everything the driver delivered to the commands that ran, in order. */
  function AllDelivered(replies: seq<Reply>, n: nat): seq<ActionStatus> {
    if n == 0 then [] else AllDelivered(replies, n - 1) + Delivered(ReplyTo(replies, n - 1))
  }

  lemma {:induction false} DispatchDelivers(replies: seq<Reply>, n: nat)
    ensures var r := DispatchFirst(replies, n); r.statuses == AllDelivered(replies, r.executed)
    ensures var r := DispatchFirst(replies, n); r.fault.None? ==> r.executed == n
    ensures var r := DispatchFirst(replies, n); r.fault.Some? ==> r.executed > 0 && r.fault == Judge(ReplyTo(replies, r.executed - 1))
  {
    if n > 0 {
      DispatchDelivers(replies, n - 1);
    }
  }

  lemma ExtendClean(replies: seq<Reply>, n: nat)
    requires AllClean(replies, n)
    ensures AllClean(replies, n + 1) <==> Clean(ReplyTo(replies, n))
  {
  }

  lemma ShrinkClean(replies: seq<Reply>, n: nat)
    ensures AllClean(replies, n + 1) ==> AllClean(replies, n)
  {
  }

  lemma {:induction false} FaultSticks(replies: seq<Reply>, m: nat, n: nat)
    requires m <= n && DispatchFirst(replies, m).fault.Some?
    ensures DispatchFirst(replies, n) == DispatchFirst(replies, m)
  {
    if m < n {
      FaultSticks(replies, m, n - 1);
    }
  }

  /** Reading one stream: remember the first terminal state, flag anything after. */
  method AwaitAction(reply: Reply, already: seq<ActionStatus>) returns (statuses: seq<ActionStatus>, fault: Option<Fault>)
    ensures statuses == already + Delivered(reply)
    ensures fault == Judge(reply)
  {
    statuses := already;
    if reply.ExecuteFailed? {
      return statuses, Some(AdapterRejected);
    }
    if reply.NilStream? {
      return statuses, Some(Unavailable);
    }
    var stream := reply.statuses;
    var terminal: Option<ActionState>, malformed := None, false;
    for i := 0 to |stream|
      invariant statuses == already + stream[..i]
      invariant terminal.None? <==> NoTerminal(stream[..i])
      invariant terminal.Some? ==> (malformed <==> !NoTerminal(stream[..i - 1]))
      invariant terminal.Some? && !malformed ==> i > 0 && terminal.value == stream[i - 1].state
      invariant terminal.Some? ==> i > 0 && Terminal(terminal.value)
      invariant terminal.None? ==> !malformed
    {
      var status := stream[i];
      assert stream[..i + 1] == stream[..i] + [status];
      statuses := statuses + [status];
      if terminal.Some? {
        malformed := true;
      } else if Terminal(status.state) {
        terminal := Some(status.state);
        assert !NoTerminal(stream[..i + 1]) by { assert stream[..i + 1][i] == status; }
      }
    }
    assert stream[..|stream|] == stream;
    if reply.ending.ContextEnded? {
      return statuses, Some(if reply.ending.timedOut then DeadlineExceeded else Unavailable);
    }
    if terminal.None? {
      return statuses, Some(Unavailable);
    }
    if malformed || terminal.value != Completed {
      return statuses, Some(AdapterRejected);
    }
    fault := None;
  }

  method DispatchCommands(commands: seq<ActionCommand>, replies: seq<Reply>) returns (report: Report)
    ensures report == DispatchPhase(commands, replies)
  {
    var statuses: seq<ActionStatus> := [];
    for i := 0 to |commands|
      invariant DispatchFirst(replies, i) == Report(statuses, i, None)
    {
      var fault;
      statuses, fault := AwaitAction(ReplyTo(replies, i), statuses);
      if fault.Some? {
        FaultSticks(replies, i + 1, |commands|);
        return Report(statuses, i + 1, fault);
      }
    }
    report := Report(statuses, |commands|, None);
  }
}
