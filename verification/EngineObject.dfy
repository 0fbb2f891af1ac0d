/** The engine as an object: it owns its ingress, compiler, projector and tracker and
    updates them in place. Each method is the corresponding pure operation. */
module EngineObject {
  import opened Prelude
  import opened Ids
  import opened Observations
  import opened Events
  import opened World
  import opened Decisions
  import opened Behaviors
  import opened Episodes
  import opened Dispatch
  import E = Engines
  import EngineInvariant

  class Engine {
    const config: E.Config
    const ingress: Ingress
    const compiler: Compiler
    const projector: Projector
    const episodes: Tracker
    var pendingReply: Option<E.PendingReply>
    var replyWindow: Option<E.ReplyWindow>

    ghost predicate Valid()
      reads this, ingress, compiler, projector, episodes
    {
      compiler.returnAbsenceThreshold == config.returnAbsenceThreshold
    }

    ghost function State(): E.EngineState
      reads this, ingress, compiler, projector, episodes
    {
      E.EngineState(ingress.State(), compiler.subjects, projector.snapshot, episodes.State(), pendingReply, replyWindow)
    }

    constructor (config: E.Config)
      ensures Valid() && State() == E.Initial(config) && this.config == config
      ensures fresh(ingress) && fresh(compiler) && fresh(projector) && fresh(episodes)
    {
      this.config := config;
      ingress := new Ingress();
      compiler := new Compiler(config.returnAbsenceThreshold);
      projector := new Projector(config.subjectID);
      episodes := new Tracker();
      pendingReply, replyWindow := None, None;
    }

    /** Construction validates the configuration first. */
    static method New(config: E.Config) returns (engine: Option<Engine>)
      ensures engine.Some? <==> E.ValidConfig(config)
      ensures engine.Some? ==> engine.value.Valid() && engine.value.config == config && engine.value.State() == E.Initial(config)
    {
      if !E.ValidConfig(config) {
        return None;
      }
      var created := new Engine(config);
      engine := Some(created);
    }

    method Process(input: Observation, env: E.ProcessEnv) returns (report: E.StepReport)
      requires Valid()
      modifies this, ingress, compiler, projector, episodes
      ensures Valid()
      ensures (State(), report) == E.Process(config, old(State()), input, env)
    {
      if env.context.Ended? {
        return E.Failing(ContextFault(env.context));
      }
      if input.subjectID != config.subjectID {
        return E.Failing(InvalidInput);
      }
      var refused := ingress.Accept(input, env.now);
      if refused.Some? {
        return E.Failing(refused.value);
      }
      var events := compiler.Compile(input);
      if events == [] {
        return E.NOTHING;
      }
      var e := events[0];
      if e.kind == UserReplied {
        report := AcceptUserReply(e, env);
      } else {
        report := React(e, env);
      }
    }

    method AcceptUserReply(e: SemanticEvent, env: E.ProcessEnv) returns (report: E.StepReport)
      requires Valid()
      modifies this, episodes
      ensures Valid()
      ensures (State(), report) == E.AcceptReply(old(State()), e, env)
    {
      report := E.NOTHING.(events := [e]);
      if pendingReply.None? || pendingReply.value.subjectID != e.subjectID {
        return;
      }
      var pending := pendingReply.value;
      var verdict := episodes.Accept(pending.episodeID, e);
      if verdict.fault.Some? {
        return report.(fault := verdict.fault);
      }
      if verdict.outcome.None? {
        return;
      }
      pendingReply, replyWindow := None, None;
      var commands := Commands(pending.after, env.dispatchAt);
      var done := DispatchCommands(commands, env.replies);
      report := report.(outcomes := [verdict.outcome.value], statuses := done.statuses,
                        executed := commands[..done.executed], fault := done.fault);
    }

    method React(e: SemanticEvent, env: E.ProcessEnv) returns (report: E.StepReport)
      requires Valid()
      modifies this, projector, episodes
      ensures Valid()
      ensures (State(), report) == E.React(config, old(State()), e, env)
    {
      report := E.NOTHING.(events := [e]);
      var snapshot := projector.Apply(e);
      var evaluated := Evaluate(snapshot, e, config.configHash);
      if evaluated.Err? {
        return report.(fault := Some(evaluated.fault));
      }
      if evaluated.value.None? {
        return;
      }
      var decision := evaluated.value.value;
      report := report.(decisions := [decision]);
      if decision.kind == Silent {
        return;
      }
      if env.capabilities.None? {
        return report.(fault := Some(Unavailable));
      }
      var plan := Plan(decision, env.capabilities.value, config.actionTimeout);
      if plan.Err? {
        return report.(fault := Some(plan.fault));
      }
      var phases := CompileUserReplyPhases(plan.value);
      if phases.Err? {
        return report.(fault := Some(phases.fault));
      }
      report := Greet(report, decision, e, plan.value, phases.value, env);
    }

    method Greet(soFar: E.StepReport, decision: Decision, e: SemanticEvent, plan: BehaviorPlan, phases: UserReplyPhases,
                 env: E.ProcessEnv) returns (report: E.StepReport)
      requires Valid()
      modifies this, episodes
      ensures Valid()
      ensures (State(), report) == E.Greet(old(State()), soFar, decision, e, plan, phases, env)
    {
      report := soFar;
      if pendingReply.Some? {
        return report.(fault := Some(PolicyBlocked));
      }
      var episode := E.EpisodeOf(decision, e, env.now);
      var refused := episodes.Start(episode);
      if refused.Some? {
        return report.(fault := refused);
      }
      var commands := Commands(phases.before, env.dispatchAt);
      var done := DispatchCommands(commands, env.replies);
      report := report.(plans := [plan], statuses := done.statuses, executed := commands[..done.executed], fault := done.fault);
      if done.fault.Some? {
        return;
      }
      var wakeup := E.Wakeup(WakeupToken(episode.id), env.openedAt + phases.waitFor);
      refused := episodes.OpenResponseWindow(episode.id, wakeup.token, env.openedAt, phases.waitFor);
      if refused.Some? {
        return report.(fault := refused);
      }
      pendingReply := Some(E.PendingReply(episode.id, decision.interactionID, e.subjectID, decision.traceID, wakeup, phases.after));
      replyWindow := Some(E.ReplyWindow(e.subjectID, env.openedAt, wakeup.deadline));
    }

    /** In every reachable state a wakeup is current exactly while the tracker holds a
        response window, and it is that window's. */
    method NextWakeup() returns (wakeup: Option<E.Wakeup>)
      ensures wakeup == E.NextWakeup(State())
      ensures EngineInvariant.WindowsAgree(State()) ==>
        var window := State().tracker.window;
        wakeup == if window.None? then None else Some(E.Wakeup(window.value.token, window.value.deadline))
    {
      wakeup := if pendingReply.None? then None else Some(pendingReply.value.wakeup);
    }

    method AdvanceAt(wakeup: E.Wakeup, env: E.AdvanceEnv) returns (report: E.StepReport)
      requires Valid()
      modifies this, projector, episodes
      ensures Valid()
      ensures (State(), report) == E.AdvanceAt(config, old(State()), wakeup, env)
    {
      if env.context.Ended? {
        return E.Failing(ContextFault(env.context));
      }
      if pendingReply.None? || pendingReply.value.wakeup != wakeup || env.now < wakeup.deadline {
        return E.NOTHING;
      }
      var pending := pendingReply.value;
      var expired := E.ExpirationOf(pending);
      if !ValidExpiration(expired) {
        return E.Failing(InvalidInput);
      }
      var verdict := episodes.Expire(pending.episodeID, expired);
      if verdict.fault.Some? {
        return E.Failing(verdict.fault.value);
      }
      if !verdict.applied {
        return E.NOTHING;
      }
      if verdict.outcome.None? {
        return E.Failing(Uncategorized);
      }
      var refused := projector.ApplyNoResponse(expired, config.noResponseCooldown);
      if refused.Some? {
        return E.Failing(InvalidInput);
      }
      pendingReply, replyWindow := None, None;
      var commands := Commands(pending.after, env.dispatchAt);
      var done := DispatchCommands(commands, env.replies);
      report := E.NOTHING.(events := [expired], outcomes := [verdict.outcome.value], statuses := done.statuses,
                           executed := commands[..done.executed], fault := done.fault);
    }

    method CommitUserRejection(command: E.ControlCommand, context: Context) returns (report: E.StepReport)
      requires Valid()
      modifies this, projector, episodes
      ensures Valid()
      ensures (State(), report) == E.CommitUserRejection(config, old(State()), command, context)
    {
      if !E.ValidControl(command) || command.reason != E.UserRejectedStop || command.subjectID != config.subjectID {
        return E.Failing(InvalidInput);
      }
      if context.Ended? {
        return E.Failing(ContextFault(context));
      }
      var feedback := E.RejectionOf(command);
      if !ValidFeedback(feedback, UserRejected) {
        return E.Failing(InvalidInput);
      }
      var verdict := episodes.Reject(feedback);
      if verdict.fault.Some? {
        return E.Failing(verdict.fault.value);
      }
      if !verdict.applied {
        return E.NOTHING;
      }
      var refused := projector.ApplyUserRejection(feedback, config.rejectionCooldown);
      if refused.Some? {
        return E.Failing(InvalidInput);
      }
      if verdict.outcome.Some? && pendingReply.Some? && verdict.outcome.value.interactionID == pendingReply.value.interactionID {
        pendingReply, replyWindow := None, None;
      }
      report := E.NOTHING.(events := [feedback], outcomes := if verdict.outcome.Some? then [verdict.outcome.value] else []);
    }
  }
}
