/** The web avatar driver: idempotent actions, at most one active speech, and a
    speech worker that ends with exactly one terminal status. */
module Avatars {
  import opened Prelude
  import opened Behaviors

  datatype Mode = Idle | Attending | Acknowledging | Expressing | Speaking

  datatype Update = Update(revision: nat, mode: Mode, text: string, speaking: bool, actionID: string, occurredAt: Time)

  datatype Record = Record(command: ActionCommand, statuses: seq<ActionStatus>, finalized: bool)

  /** What the driver guards with its lock. active names the active speech. */
  datatype Driver = Driver(hasSpeaker: bool, records: map<string, Record>, active: Option<string>, current: Update)

  /** Why a speech's context was cancelled. */
  datatype Cause = Finished | Stopped | DeadlineElapsed | ParentCancelled | ParentDeadline

  /** How a speech ends. */
  datatype Terminal = Terminal(state: ActionState, reason: string, text: string, visualized: bool)

  predicate ValidCommand(c: ActionCommand) {
    && c.id != "" && c.interactionID != "" && c.traceID != "" && c.deadline != UNSET
    && c.requiredCapability == c.action.actionType && c.action.timeout > 0
    && (c.action.actionType.Speak? ==> c.action.templateID != "")
  }

  function NewStatus(c: ActionCommand, state: ActionState, at: Time, reason: string): ActionStatus {
    ActionStatus(c.id, c.interactionID, c.traceID, state, at, reason)
  }

  function InitialStatuses(c: ActionCommand, at: Time): seq<ActionStatus> {
    [NewStatus(c, Dispatched, at, ""), NewStatus(c, ActionState.Accepted, at, ""), NewStatus(c, Started, at, "")]
  }

  function VisualMode(a: ActionType): Mode {
    match a
    case AttendUser => Attending
    case Acknowledge => Acknowledging
    case Express => Expressing
    case ReturnIdle => Idle
    case Speak => Idle
  }

  /** Publishing numbers the update and makes it current. */
  function Published(d: Driver, mode: Mode, text: string, speaking: bool, actionID: string, at: Time): Driver {
    d.(current := Update(d.current.revision + 1, mode, text, speaking, actionID, at))
  }

  /** Why Execute refuses a command it has no record of. */
  function Refusal(d: Driver, now: Time, c: ActionCommand): Option<Fault> {
    if now >= c.deadline then Some(DeadlineExceeded)
    else if c.action.actionType.Speak? && !d.hasSpeaker then Some(CapabilityMissing)
    else if c.action.actionType.Speak? && d.active.Some? then Some(AdapterRejected)
    else None
  }

  /** The statuses Execute's stream holds when it returns. */
  function ExecuteResult(d: Driver, now: Time, c: ActionCommand, context: Option<Fault>): Result<seq<ActionStatus>> {
    if context.Some? then Err(context.value)
    else if !ValidCommand(c) then Err(InvalidInput)
    else if c.id in d.records then
      if d.records[c.id].command != c || !d.records[c.id].finalized then Err(AdapterRejected) else Ok(d.records[c.id].statuses)
    else
      match Refusal(d, now, c)
      case Some(f) => Err(f)
      case None =>
        if c.action.actionType.Speak? then Ok(InitialStatuses(c, now))
        else Ok(InitialStatuses(c, now) + [NewStatus(c, Completed, now, "")])
  }

  /** Whether Execute takes the command on, rather than refusing or replaying it. */
  predicate Takes(d: Driver, now: Time, c: ActionCommand, context: Option<Fault>) {
    context.None? && ValidCommand(c) && c.id !in d.records && Refusal(d, now, c).None?
  }

  function Executed(d: Driver, now: Time, c: ActionCommand, context: Option<Fault>): Driver {
    if !Takes(d, now, c, context) then d
    else if c.action.actionType.Speak? then
      d.(records := d.records[c.id := Record(c, InitialStatuses(c, now), false)], active := Some(c.id))
    else
      Published(d.(records := d.records[c.id := Record(c, InitialStatuses(c, now) + [NewStatus(c, Completed, now, "")], true)]),
                VisualMode(c.action.actionType), "", false, c.id, now)
  }

  function FinishedSpeech(d: Driver, id: string, t: Terminal, now: Time): Driver
    requires id in d.records
  {
    var r := d.records[id];
    var recorded := d.(records := d.records[id := r.(statuses := r.statuses + [NewStatus(r.command, t.state, now, t.reason)], finalized := true)]);
    var shown := if t.visualized then Published(recorded, Speaking, t.text, false, id, now) else recorded;
    if shown.active == Some(id) then shown.(active := None) else shown
  }

  /** Everything in the command is filled in and fits together. */
  predicate Complete(c: ActionCommand) {
    && "" !in {c.id, c.interactionID, c.traceID} && c.deadline != UNSET && c.action.timeout >= 1
    && c.action.actionType == c.requiredCapability && !(c.action.actionType.Speak? && c.action.templateID == "")
  }

  /** The id is taken, by another command or one still active; or another speech is active. */
  predicate Collides(d: Driver, now: Time, c: ActionCommand) {
    if c.id in d.records then d.records[c.id].command == c ==> !d.records[c.id].finalized
    else now < c.deadline && c.action.actionType.Speak? && d.hasSpeaker && d.active.Some?
  }

  /** Exactly when Execute takes a command on, and why it does not: an incomplete command
      before anything about its id, a known id before the deadline, the deadline before
      the speaker, and the speaker before another speech. */
  lemma ExecuteSays(d: Driver, now: Time, c: ActionCommand)
    ensures var r := ExecuteResult(d, now, c, None);
      && (Takes(d, now, c, None) <==> Complete(c) && c.id !in d.records && now < c.deadline && (c.action.actionType.Speak? ==> d.hasSpeaker && d.active.None?))
      && (r == Err(InvalidInput) <==> !Complete(c))
      && (r == Err(DeadlineExceeded) <==> Complete(c) && c.id !in d.records && c.deadline <= now)
      && (r == Err(CapabilityMissing) <==> Complete(c) && c.id !in d.records && now < c.deadline && c.action.actionType.Speak? && !d.hasSpeaker)
      && (r == Err(AdapterRejected) <==> Complete(c) && Collides(d, now, c))
      && (r.Ok? <==> Takes(d, now, c, None) || (Complete(c) && c.id in d.records && d.records[c.id].command == c && d.records[c.id].finalized))
    ensures forall f :: !Takes(d, now, c, Some(f)) && ExecuteResult(d, now, c, Some(f)) == Err(f)
  {
    assert ValidCommand(c) <==> Complete(c);
  }

  /** The terminal state a cancel cause stands for, if it stops the speech. */
  function TerminalFromCause(cause: Option<Cause>): Option<(ActionState, string)> {
    match cause
    case None => None
    case Some(Finished) => None
    case Some(DeadlineElapsed) => Some((TimedOut, "DEADLINE_EXCEEDED"))
    case Some(ParentDeadline) => Some((TimedOut, "DEADLINE_EXCEEDED"))
    case Some(Stopped) => Some((Cancelled, "STOP_ALL"))
    case Some(ParentCancelled) => Some((Cancelled, "CONTEXT_CANCELLED"))
  }

  // ---------------------------------------------------------------------------
  // The driver object and its locked sections.

  class ActionRecord {
    const command: ActionCommand
    var statuses: seq<ActionStatus>
    var finalized: bool

    constructor (command: ActionCommand, statuses: seq<ActionStatus>, finalized: bool)
      ensures this.command == command && Value() == Record(command, statuses, finalized)
    {
      this.command, this.statuses, this.finalized := command, statuses, finalized;
    }

    function Value(): Record
      reads this
    {
      Record(command, statuses, finalized)
    }
  }

  class DriverObject {
    const hasSpeaker: bool
    var records: map<string, ActionRecord>
    var active: Option<ActionRecord>
    var current: Update

    ghost predicate Valid()
      reads this
    {
      && (forall id :: id in records ==> records[id].command.id == id)
      && (active.Some? ==> active.value.command.id in records && records[active.value.command.id] == active.value)
    }

    ghost function Model(): Driver
      reads this, records.Values
    {
      Driver(hasSpeaker, map id | id in records :: records[id].Value(), if active.Some? then Some(active.value.command.id) else None, current)
    }

    constructor (hasSpeaker: bool, now: Time)
      ensures Valid() && Model() == Driver(hasSpeaker, map[], None, Update(0, Idle, "", false, "", now))
    {
      this.hasSpeaker := hasSpeaker;
      records, active := map[], None;
      current := Update(0, Idle, "", false, "", now);
    }

    method PublishLocked(mode: Mode, text: string, speaking: bool, actionID: string, now: Time)
      requires Valid()
      modifies this`current
      ensures Valid() && Model() == Published(old(Model()), mode, text, speaking, actionID, now)
    {
      current := Update(current.revision + 1, mode, text, speaking, actionID, now);
    }

    method Execute(c: ActionCommand, now: Time, context: Option<Fault>) returns (r: Result<seq<ActionStatus>>)
      requires Valid()
      modifies this
      ensures Valid()
      ensures r == ExecuteResult(old(Model()), now, c, context)
      ensures Model() == Executed(old(Model()), now, c, context)
    {
      if context.Some? {
        return Err(context.value);
      }
      if !ValidCommand(c) {
        return Err(InvalidInput);
      }
      if c.id in records {
        var previous := records[c.id];
        return if previous.command != c || !previous.finalized then Err(AdapterRejected) else Ok(previous.statuses);
      }
      if now >= c.deadline {
        return Err(DeadlineExceeded);
      }
      if c.action.actionType.Speak? && !hasSpeaker {
        return Err(CapabilityMissing);
      }
      if c.action.actionType.Speak? && active.Some? {
        return Err(AdapterRejected);
      }
      r := Take(c, now);
    }

    method Take(c: ActionCommand, now: Time) returns (r: Result<seq<ActionStatus>>)
      requires Valid() && Takes(Model(), now, c, None)
      modifies this
      ensures Valid()
      ensures r == ExecuteResult(old(Model()), now, c, None)
      ensures Model() == Executed(old(Model()), now, c, None)
    {
      var initial := InitialStatuses(c, now);
      if c.action.actionType.Speak? {
        var speech := new ActionRecord(c, initial, false);
        Store(speech);
        active := Some(speech);
        return Ok(initial);
      }
      var statuses := initial + [NewStatus(c, Completed, now, "")];
      var record := new ActionRecord(c, statuses, true);
      Store(record);
      PublishLocked(VisualMode(c.action.actionType), "", false, c.id, now);
      r := Ok(statuses);
    }

    method Store(record: ActionRecord)
      requires Valid() && record.command.id !in records
      modifies this`records
      ensures Valid() && records == old(records)[record.command.id := record]
      ensures Model() == old(Model()).(records := old(Model()).records[record.command.id := record.Value()])
    {
      records := records[record.command.id := record];
    }

    /** The speech worker's last locked section. */
    method FinishSpeech(record: ActionRecord, t: Terminal, now: Time)
      requires Valid() && record in records.Values
      modifies this, record
      ensures Valid() && Model() == FinishedSpeech(old(Model()), record.command.id, t, now)
    {
      record.statuses := record.statuses + [NewStatus(record.command, t.state, now, t.reason)];
      record.finalized := true;
      if t.visualized {
        PublishLocked(Speaking, t.text, false, record.command.id, now);
      }
      if active == Some(record) {
        active := None;
      }
    }
  }
}
