# Verification of the proactive interaction engine

A Dafny model of the proactive interaction engine and of the runtime around it, with
proofs about whole runs. It covers

- the **interaction engine**: observations become transitions, a transition may become a
  guarded decision, a decision becomes a plan split around one user-reply wait, and an
  episode ends accepted, rejected or unanswered;
- the **runner** that serializes observations, wakeups and controls around the engine;
- **leases and supervision**: the capability registry, the Python provider session, the
  network between them, the worker supervisor, readiness and the privacy store;
- the **observation ingress server** that joins leases, readiness and the reply window;
- the **avatar driver**, the latest-only mailboxes and the microphone and camera gates.

## How the model is built

Every stateful component has a pure step function and, where the program updates an
object in place, a class whose methods are proved equal to that function. Properties of
whole runs are proved about the pure steps, so they hold of the classes too. Concurrent
components (runner, lease protocol, supervisor, driver, mailboxes) are step systems: a
run is any sequence of enabled steps of any of the actors, in any order.

Time is an integer and 0 stands for the unset time. Clocks, contexts, launchers, drivers,
voice detectors, disks and the network are not modelled from inside: whatever they answer
is a parameter, and the results hold for all answers. Ids are real strings, built as the
program builds them, and their injectivity is proved.

| file | contents |
|---|---|
| `Prelude.dfy`, `Ids.dfy` | optional values, faults, time; id texts and their injectivity |
| `Observation.dfy`, `Event.dfy`, `State.dfy`, `Decision.dfy` | ingress, transition compiler, world snapshot, guards and policy |
| `Behavior.dfy`, `Dispatch.dfy`, `Episode.dfy` | plans and their split, command dispatch, episode tracker |
| `Engine.dfy`, `EngineInvariant.dfy`, `EngineRuns.dfy`, `EngineGreetings.dfy`, `EngineContinuations.dfy`, `EngineReports.dfy`, `EngineObject.dfy`, `EngineExamples.dfy` | the engine's operations, what each keeps, whole runs, when it greets, which commands it runs, what it reports, the object, example runs |
| `Runner.dfy`, `RunnerSafety.dfy`, `RunnerProgress.dfy`, `RunnerEngine.dfy`, `RunnerHistory.dfy`, `RunnerControl.dfy`, `RunnerExamples.dfy` | the runner's steps, its invariants, progress, the engine under the runner, what reaches the engine, cancellation, failure and priority, example schedules |
| `Capability.dfy`, `Registry.dfy`, `LeaseHistory.dfy`, `Provider.dfy`, `LeaseProtocol.dfy` | the registry, lease expiry over histories, the session, the protocol between them |
| `Privacy.dfy`, `PrivacyRuns.dfy` | permissions, repository and service; many services over one file |
| `Supervisor.dfy`, `SupervisorRuns.dfy`, `SupervisorSafety.dfy`, `SupervisorHealth.dfy`, `SupervisorView.dfy`, `SupervisorLoop.dfy`, `SupervisorExamples.dfy` | the supervisor, its run loop, process ownership, what a worker is shown as, what is in view and announced, rounds and commands, example runs |
| `Permutation.dfy`, `Readiness.dfy`, `ReadinessLaws.dfy`, `CapabilityNames.dfy` | readiness and its laws, capability names in order |
| `IngressServer.dfy` | authorization and publishing of observations |
| `Avatar.dfy`, `AvatarRuns.dfy`, `AvatarCauses.dfy`, `AvatarTrace.dfy`, `AvatarShown.dfy`, `Embodiment.dfy`, `Mailbox.dfy` | the avatar driver, its cancel causes, how a speech ends, what is shown, planned commands against the driver, latest-only mailboxes |
| `Sliding.dfy`, `Microphone.dfy`, `Presence.dfy` | sliding windows, framing and voice gate, presence hysteresis |

## What the code does not promise

Some statements one might expect are false of the code. The model keeps the code as it is,
shows a run in which each fails, and proves exactly when it holds.

- An active episode does not always have a reply window. If dispatch before the wait fails
  after the episode started, it stays active without one (`EngineExamples.EpisodeWithoutWindow`).
  `EngineRuns.WindowOpensIff` says exactly when the window opens,
  `EngineRuns.StuckUntilRejected` that nothing but a rejection then ends the episode, and
  `EngineGreetings.RejectionEndsIff` exactly which rejection does.
- A return inside a rejection's cooldown may be greeted, since a later rejection replaces the
  interval rather than extending it (`EngineExamples.GreetsWithinReplacedCooldown`).
  `EngineGreetings.GreetsExactlyWhen` gives the exact condition over every run.
- The busy reason is that of the first observation of the current busy run, not of the
  latest one (`EngineExamples.BusyReasonIsTheFirst`, `EngineRuns.SnapshotFollowsObservations`);
  the two agree exactly when they gave the same reason (`EngineGreetings.BusyReasonIsLatestIff`).
- A completed speech may still have a cancel cause: a deadline, stop or parent cancellation
  that arrives after the worker's last check and before it finishes is recorded but not
  reported (`AvatarCauses.CompletedThoughStopped`). `AvatarCauses.CompletedUncancelledIff`
  shows that this is the only way.
- Workers need not match the persisted permissions: a queued command is followed as queued,
  even if another setting has been persisted since
  (`SupervisorExamples.LaunchedThoughPersistedOff`).
  `SupervisorSafety.TakenCommandMatchesIff` gives the exact condition; right after a full
  reconcile workers do match (`SupervisorSafety.ReconcileAllMatchesGrants`).
- A worker just switched on is not always shown as starting: one that crashed while healthy
  and is switched off and on again is shown as degraded
  (`SupervisorExamples.RestartShownDegraded`); `SupervisorSafety.RestartShowsStartingIff`
  gives the exact condition.
- A privacy change can be on disk although it reported failure, when the directory sync
  fails after the rename (`PrivacyRuns.OnDiskThoughFailed`), and only then
  (`PrivacyRuns.FailedChangeOnDiskIff`). `PrivacyRuns.FallsBehindIff`
  says exactly when a service falls behind the file; from then on it can change nothing
  (`PrivacyRuns.TrailingNeverChanges`).

## Model

| member | source | states |
|---|---|---|
| Observations.Ingress.Accept | internal/application/engine/ingress.go:25-42 | The admission object refines validation, deduplication by id and per-source sequencing; a refused observation leaves no trace. |
| Observations.AdmittedStreamIsOrdered | internal/application/engine/ingress.go:25-42 | Over any input stream, admitted ids are distinct and each source's sequence numbers strictly increase. |
| Observations.ValidateAt | internal/domain/observation/observation.go:55-89 | Accepts exactly an identified observation of one thing, with a confidence between zero and one, that has not outlived its life span; calls exactly an identified one that has stale. |
| Observations.AdmittedIff | internal/application/engine/ingress.go:25-42 | After any stream an observation is admitted exactly when it is valid, its id was not admitted before and its number is beyond all admitted from its source. |
| Ids.EventIdInjective | internal/domain/event/event.go:207-217 | Two event ids are equal only for the same source id and kind. |
| Ids.EpisodeForInjective | internal/application/engine/engine.go:149-162 | Different observations lead to different episode ids. |
| Events.Compiler.Compile | internal/domain/event/event.go:146-205 | The compiler with its per-subject map refines the pure timeline step and touches no other subject. |
| Events.TimelineRefinesHistory | internal/domain/event/event.go:146-205 | After any history the incremental timeline holds, for presence, busy and quiet, the current maximal run of equal reports and where it began. |
| Events.ReturnedExactlyAfterLongAbsence | internal/domain/event/event.go:150-171 | PERSON_RETURNED is emitted exactly when presence follows a maximal absent run whose first observation is at least the threshold older. |
| Events.TransitionsAreChanges | internal/domain/event/event.go:146-205 | A valid observation other than a reply gives no transition exactly when it repeats the value its signal already has. |
| World.Projector.Apply | internal/domain/state/state.go:38-66 | The projector's in-place update equals the pure projection of the event. |
| World.Projector.ApplyUserRejection | internal/domain/state/state.go:73-92 | Validates, and moves the rejection cooldown only to a later rejection. |
| World.Projector.ApplyNoResponse | internal/domain/state/state.go:95-113 | Validates, and moves the no-response cooldown only to a later expiry. |
| World.CooldownIgnoresOrder | internal/domain/state/state.go:73-113 | Two arrival orders of the same facts leave the same cooldown. |
| World.SnapshotIsLastObserved | internal/domain/state/state.go:38-66 | A snapshot that follows the transitions shows the last reported presence, busy and quiet values. |
| Decisions.EvaluateReturn | internal/domain/decision/decision.go:83-164 | A valid return always gets a decision, which greets exactly when not quiet, not busy and outside both cooldowns. |
| Decisions.ReasonsSay | internal/domain/decision/decision.go:83-164 | Silence gives the reason of the first guard that holds: quiet, busy or on a call, recent rejection, recent unanswered greeting; a greeting is warm and gives its three reasons. |
| Behaviors.ActionIdInjective | internal/domain/behavior/behavior.go:244-259 | Command ids of one interaction are equal only for equal ordinals. |
| Behaviors.ScanChildren | internal/domain/behavior/behavior.go:263-308 | The one-pass scan succeeds exactly on children with one supported wait and collects the numbered actions on either side of it. |
| Behaviors.CompileUserReplyPhases | internal/domain/behavior/behavior.go:263-308 | Compilation succeeds exactly on plans that split around one wait, and yields that split. |
| Behaviors.SplitPreservesMeaning | internal/domain/behavior/behavior.go:217-308 | Before-actions followed by after-actions equal the recursive traversal numbered 1..n, and the commands are the whole plan's, with distinct ids. |
| Behaviors.Plan | internal/domain/behavior/behavior.go:145-193 | The planning loop, its feedback check and its capability check refine the pure plan, which filters the fixed candidates in order. |
| Behaviors.PlannedPlansSplit | internal/domain/behavior/behavior.go:145-193 | Every plan the planner returns, for any capability map, splits around the reply wait of eight seconds, with at least one action before it. |
| Behaviors.GreetingDoes | internal/domain/behavior/behavior.go:145-193 | Every planned greeting does what the driver offers of attending, acknowledging and speaking, in this order, waits eight seconds, and then returns to idle if offered. |
| Embodiment.PlannedCommandsAreTaken | adapters/embodiment/webavatar/driver.go:142-208 | Every command of every plan the planner returns is valid for the avatar driver when dispatched, is not refused for its deadline or capability, and is refused only because another speech is active. |
| Dispatch.AwaitAction | internal/application/engine/engine.go:286-318 | Reading one status stream collects every status and gives the fault the whole stream amounts to. |
| Dispatch.DispatchCommands | internal/application/engine/engine.go:272-321 | The nested loops report the statuses and fault of the phase and execute no command after the first unclean reply. |
| Dispatch.DispatchSucceedsIff | internal/application/engine/engine.go:272-321 | A phase succeeds exactly when every reply is clean. |
| Dispatch.JudgeClean | internal/application/engine/engine.go:286-334 | No fault exactly for a closed stream whose single terminal status is a final COMPLETED. |
| Dispatch.JudgeSays | internal/application/engine/engine.go:286-334 | Each fault of a stream says exactly what happened: the time ran out, the adapter refused or ended it otherwise than in one final COMPLETED, or nothing came of it. |
| Episodes.Tracker.Start | internal/domain/episode/episode.go:110-129 | Starts or repeats an episode; refuses a second one. |
| Episodes.Tracker.OpenResponseWindow | internal/domain/episode/episode.go:131-159 | Opens the window of the active episode, idempotently. |
| Episodes.Tracker.Expire | internal/domain/episode/episode.go:161-213 | Consumes a window expiry once and ends the episode with NO_RESPONSE. |
| Episodes.Tracker.Accept | internal/domain/episode/episode.go:215-267 | Consumes a reply once and ends the episode only inside its half-open window. |
| Episodes.Tracker.Reject | internal/domain/episode/episode.go:269-306 | Consumes a rejection once and ends the active episode of the same subject. |
| Episodes.FeedbackEndsOrKeeps | internal/domain/episode/episode.go:161-306 | Every feedback either ends the active episode with a valid outcome for it, or keeps it and reports none; no outcome fails validation after the episode was cleared. |
| Episodes.ReplyAcceptedIffInWindow | internal/domain/episode/episode.go:215-267 | A fresh valid reply is accepted exactly when it falls in the open window of its subject. |
| Episodes.ExpirationEndsIff | internal/domain/episode/episode.go:161-213 | An expiration ends the episode exactly when it is valid, new, about the active episode, its subject and its window, and not before the deadline. |
| Episodes.RejectionEndsEpisodeIff | internal/domain/episode/episode.go:269-306 | A rejection ends the episode exactly when it is valid, new, of its subject and not older than it. |
| Episodes.FeedbackRefusedIff | internal/domain/episode/episode.go:161-306 | Exactly when each feedback is refused and with which fault; a refusal changes nothing. |
| Episodes.AppliedOnce | internal/domain/episode/episode.go:161-306 | Feedback that was applied is consumed: delivered again, it changes nothing and is no fault. |
| Episodes.StartsIff | internal/domain/episode/episode.go:110-129 | An episode starts exactly when it is complete and no other is active. |
| Episodes.OpensIff | internal/domain/episode/episode.go:131-159 | A window opens exactly for the active episode, with a token, a positive duration and a time not before its start, if it has no other window. |
| EngineObject.Engine.Process | internal/application/engine/engine.go:87-197 | The object refines the pure Process: same new state, same report; what it runs and reports over whole runs is stated by EngineContinuations and EngineReports. |
| EngineObject.Engine.AdvanceAt | internal/application/engine/engine.go:208-260 | The object refines the pure AdvanceAt. |
| EngineObject.Engine.CommitUserRejection | internal/application/engine/engine.go:402-452 | The object refines the pure CommitUserRejection. |
| EngineObject.Engine.AcceptUserReply | internal/application/engine/engine.go:336-359 | The object refines the pure reply handling: an accepted reply ends the episode, clears all three windows and dispatches the after-phase; any other leaves them. |
| EngineObject.Engine.NextWakeup | internal/application/engine/engine.go:199-206 | While the three copies of the window agree, as they do in every reachable state, a wakeup is current exactly while the tracker holds a response window, and carries its token and deadline. |
| EngineInvariant.ProcessKeeps | internal/application/engine/engine.go:87-197 | Processing any observation keeps the invariant and does nothing to the active episode, starts one, or ends it with a valid outcome. |
| EngineInvariant.AdvanceKeeps | internal/application/engine/engine.go:208-260 | So does advancing at any wakeup. |
| EngineInvariant.CommitKeeps | internal/application/engine/engine.go:402-452 | So does committing any rejection. |
| EngineRuns.WindowsAlwaysAgree | internal/application/engine/engine.go:172-192 | In every reachable state the tracker's window, the pending reply and the published window exist together and agree. |
| EngineRuns.EpisodesEndInOrder | internal/domain/episode/episode.go:110-306 | Over every run all outcomes are valid, belong to distinct started episodes in the order they started, and started minus ended is one exactly when an episode is active. |
| EngineRuns.WakeupEndsEpisodeIff | internal/application/engine/engine.go:208-260 | A wakeup ends the active episode exactly when it is current, due and run with a live context; it then clears every copy of the window and applies the cooldown, whatever dispatch does. Any other wakeup changes nothing. |
| EngineRuns.ConsumedWakeupNeverReturns | internal/application/engine/engine.go:199-260 | The wakeup of an ended episode never becomes current again. |
| EngineRuns.StuckUntilRejected | internal/application/engine/engine.go:150-171 | An active episode without a window stays so, with no new plan or outcome, until a rejection. |
| EngineRuns.WindowOpensIff | internal/application/engine/engine.go:150-192 | A started greeting opens its window exactly when every command before the wait got a clean reply and the opening time is set and not before the start. |
| EngineRuns.GateIffAccepted | internal/application/engine/engine.go:336-350 | For a fresh valid reply at a quiescent moment, the adapter's gate on the published window holds exactly when processing yields ACCEPTED. |
| EngineRuns.CooldownsFollowLatestFact | internal/domain/state/state.go:73-113 | Over every run each cooldown starts at the latest applied fact and lasts the configured time. |
| EngineGreetings.ProcessGreetsIff | internal/domain/decision/decision.go:83-164 | In any state the decision to greet is made exactly on an admitted return with no guard at its time; without it there is no plan and no command before a reply. |
| EngineGreetings.GreetsExactlyWhen | internal/application/engine/engine.go:103-170 | Over every run an observation yields the decision to greet exactly when it is admitted, reports presence after a maximal absent run at least the threshold old, the last busy and quiet values are not true, and its time lies outside the intervals of the latest rejection and the latest unanswered window; otherwise it yields no plan and no command. |
| EngineGreetings.StartsEpisodeIff | internal/application/engine/engine.go:130-162 | In every reachable state an observation starts an episode exactly when it is an admitted, unguarded return, no episode is active, the driver offers a feedback action and the clock is set. |
| EngineGreetings.RejectionEndsIff | internal/application/engine/engine.go:402-443 | Over every run a control ends the active episode exactly when it is a valid rejection for the subject under a live context, with an id not committed before and a time not before the episode's start. |
| EngineContinuations.PendingFollowsPlan | internal/application/engine/engine.go:172-192 | Over every run, while a window is open its continuation is the phase after the wait of the very plan that started the active episode. |
| EngineContinuations.EndingRunsTheRest | internal/application/engine/engine.go:208-260 | Over every run an input that ends an episode with ACCEPTED or NO_RESPONSE hands over, as far as the replies allow, the commands after the wait of that episode's plan; with what the greeting handed over they are the whole plan's commands, each part with its own dispatch time. |
| EngineContinuations.GreetingRunsTheStart | internal/application/engine/engine.go:150-171 | An input that starts an episode hands over, as far as the replies allow, the commands before the wait of its plan; any other input but an ending hands over nothing. |
| EngineReports.EventsAreFacts | internal/application/engine/engine.go:87-117 | Every input reports exactly the facts it is worth. |
| EngineReports.StatusesAreDelivered | internal/application/engine/engine.go:272-321 | Every input reports, in order, exactly what the driver delivered to the commands it handed over. |
| EngineReports.GreetingRefusedBecause | internal/application/engine/engine.go:119-162 | When the decision is to greet and nothing starts, the fault says exactly why. |
| EngineReports.UnheardBecause | internal/application/engine/engine.go:87-102 | An observation that is not heard changes nothing, and its fault says exactly why. |
| EngineReports.HeardQuietly | internal/application/engine/engine.go:87-197 | A heard observation that neither greets nor ends an episode is no fault, runs nothing and leaves episode and window alone; a reply in reach of the pending window is consumed. |
| EngineReports.WakeAndRejectFaults | internal/application/engine/engine.go:208-452 | Exactly which fault a wakeup that ends nothing and any rejection give. |
| EngineReports.StartedEpisodeIs | internal/application/engine/engine.go:149-162 | A started episode names the interaction, decision, event and trace of the observation behind it. |
| EngineReports.VersionMarksChange | internal/domain/state/state.go:38-113 | Every input leaves the snapshot alone or makes one new version with the time of the fact behind it. |
| EngineExamples.EpisodeWithoutWindow | internal/application/engine/engine.go:150-171 | A run that leaves an active episode with no window: absence at 50, return at 120, first command refused. |
| EngineExamples.GreetsWithinReplacedCooldown | internal/domain/state/state.go:86-87 | A run with rejections at 100 and 140 and a cooldown of 50 in which a return at 120 greets. |
| EngineGreetings.BusyReasonIsLatestIff | internal/domain/event/event.go:173-182 | While busy, the shown reason is a later report's exactly when the report that opened the busy run gave the same one. |
| EngineExamples.BusyReasonIsTheFirst | internal/domain/event/event.go:173-182 | A run in which a second busy report with another reason leaves the first reason standing. |
| EngineExamples.TwoEpisodes | internal/application/engine/engine.go:87-260 | A run with an unanswered episode and then a second one whose wakeup is current. |
| EngineRuns.SnapshotFollowsObservations | internal/application/engine/engine.go:103-117 | Over every run the snapshot's presence, busy and quiet flags equal the last admitted observation of each kind, and the busy reason is the one that opened the busy run. |
| EngineRuns.GreetsOnlyAfterLongAbsence | internal/domain/event/event.go:150-171 | Over every run, every plan answers a return after a long maximal absence. |
| RunnerSafety.AlwaysSafe | internal/runtime/lifecycle/runner.go:178-402 | Every reachable state of the runner keeps exclusion, conservation, scheduling, priority, control scripts and draining. |
| RunnerEngine.SingleWriterWithPriority | internal/runtime/lifecycle/runner.go:196-259 | In every interleaving at most one engine operation is in flight, each control runs cancel, stop, join, commit, reply with nothing started in between, and at most one other transition precedes a queued control. |
| RunnerControl.ControlOvertakenAtMostOnce | internal/runtime/lifecycle/runner.go:196-259 | Counted on the steps of any schedule, the loop turns to something else at most once while a control waits. |
| RunnerControl.ServedInOrder | internal/runtime/lifecycle/runner.go:111-259 | Over every schedule observations and controls are each served once, in the order submitted: what was submitted is what was taken followed by what is queued. |
| RunnerControl.AlwaysCancelledInTime | internal/runtime/lifecycle/runner.go:312-333 | In every interleaving work is cancelled before the loop stops everything and waits for it, no other work is, and the queues keep within their limits. |
| RunnerControl.ShutsDownIff | internal/runtime/lifecycle/runner.go:196-259 | Once a wakeup has failed for good the loop is ending, and it ends for no other reason than that or the end of its context. |
| RunnerEngine.EveryRequestAnsweredOnce | internal/runtime/lifecycle/runner.go:357-402 | Every request is answered at most once, and at return nothing runs, no timer is left and everything submitted before the drain was answered. |
| RunnerSafety.PlacesStep | internal/runtime/lifecycle/runner.go:111-174 | Every step moves requests without losing or duplicating any. |
| RunnerEngine.IdleMirrorsNextWakeup | internal/runtime/lifecycle/runner.go:335-355 | Whenever idle, the scheduled wakeup mirrors the engine's, with at most one timer. |
| RunnerEngine.AlwaysLinear | internal/runtime/lifecycle/runner.go:272-333 | The engine is always where its completed operations lead, run one after the other. |
| RunnerHistory.HistoryIsDeeds | internal/runtime/lifecycle/runner.go:272-333 | Over every schedule the engine's history is exactly the completed work and the committed rejections, in order, and its state is what applying them gives. |
| RunnerHistory.HistoryMatchesLog | internal/runtime/lifecycle/runner.go:272-333 | The rejections in that history are, in order, those whose commit is in the loop's log; its observations and wakeups are those of the work started, but for what still runs. |
| RunnerHistory.AnsweredRejectionIsCommitted | internal/runtime/lifecycle/runner.go:312-333 | A rejection whose control was answered is in the engine's history and, while the context is live, among the rejections that count. |
| RunnerEngine.EngineSafeUnderRunner | internal/runtime/lifecycle/runner.go:178-259 | The engine invariant holds in every interleaving under the runner. |
| RunnerEngine.NeverRefires | internal/runtime/lifecycle/runner.go:184-259 | The loop never starts a wakeup whose episode has ended. |
| RunnerEngine.StartedWakeupIsConsumed | internal/runtime/lifecycle/runner.go:293-310 | A started, uncancelled wakeup always ends its episode with NO_RESPONSE and leaves no current wakeup, even if the call fails. |
| RunnerProgress.NeverStuck | internal/runtime/lifecycle/runner.go:196-259 | In every reachable state, unless the loop has returned, the loop can take a step, or work is running, or it waits with nothing queued and nothing due. |
| RunnerProgress.LoopAdvances | internal/runtime/lifecycle/runner.go:196-402 | Every step with which the loop goes on, through a poll, a control or the shutdown, brings it closer to waiting or returning, and it passes a queue or a due wakeup by only when there is none. |
| RunnerExamples.SecondWakeupStarts | internal/runtime/lifecycle/runner.go:184-259 | A schedule in which the loop is about to start a second episode's wakeup after the first was consumed. |
| Registries.SameDeclaration | adapters/capability/registry/registry.go:267-283 | The field and loop comparison is equality of declarations. |
| Registries.Registry.Register | adapters/capability/registry/registry.go:66-113 | The two-map registry refines one map: an unexpired lease is repeated or refused, otherwise a new one is issued, unless the id generator failed. |
| Registries.Registry.Heartbeat | adapters/capability/registry/registry.go:115-143 | Renews the one record a lease names, in both maps at once, and no expired one. |
| Registries.Registry.Unregister | adapters/capability/registry/registry.go:145-168 | Removes exactly the holder of the lease. |
| Registries.Registry.RevokeProvider | adapters/capability/registry/registry.go:251-265 | Removes exactly the provider. |
| Registries.Registry.LeaseSnapshot | adapters/capability/registry/registry.go:235-249 | Finds the one provider holding a lease. |
| Registries.Registry.ModelWellformed | adapters/capability/registry/registry.go:66-168 | Mutually inverse maps mean no two providers share a lease. |
| LeaseHistory.ExpiryIsLastTouch | adapters/capability/registry/registry.go:66-168 | Over every history a registered lease expires exactly one duration after its last issue or renewal. |
| LeaseHistory.ExpiredNeverExtended | adapters/capability/registry/registry.go:115-143 | No call extends an expired lease. |
| LeaseHistory.HealthIsLastTouch | adapters/capability/registry/registry.go:66-143 | Over every history a registered lease shows the health given by the call that last issued or renewed it. |
| LeaseHistory.HeldIff | adapters/capability/registry/registry.go:66-168 | Over every history a provider holds a lease exactly when some call issued it and no later call revoked the provider, unregistered the lease or issued another. |
| LeaseHistory.HeldUntilExpiry | adapters/capability/registry/registry.go:66-168 | Over every history a provider keeps its lease id and declaration, with an expiry that never moves back, through all calls before that expiry that neither revoke nor unregister it; meanwhile a registration for it gets the lease back or, with another declaration, is refused. |
| Provider.ProviderSession.Start | workers/provider.py:77-83 | Start registers and beats once, as the pure session does. |
| Provider.ProviderSession.Maintain | workers/provider.py:85-97 | Maintain restarts without a live lease, beats when due, and otherwise does nothing. |
| Provider.ProviderSession.Register | workers/provider.py:134-157 | A registration reply gives a lease only with an id and a future expiry. |
| Provider.ProviderSession.Heartbeat | workers/provider.py:159-180 | A heartbeat that fails or brings no future expiry clears the lease. |
| Provider.ProviderSession.Publish | workers/provider.py:182-215 | Only an active session publishes, with a fresh sequence number. |
| Provider.ProviderSession.Close | workers/provider.py:117-132 | A closed session stays closed and holds no lease. |
| Provider.MaintainedActiveIff | workers/provider.py:85-97 | A maintained session is active exactly when it is open and the calls it had to make were answered in time. |
| Provider.MaintainingKeepsLease | workers/provider.py:85-97 | A session maintained once per gap, whose beats are answered for an interval and a gap, keeps the same lease for ever and is active at every moment. |
| Provider.StartedIsSecure | workers/provider.py:77-83 | An answered start leaves a session that can be kept that way. |
| Provider.RestsForTheInterval | workers/provider.py:159-180 | After an answered beat the session makes no call for exactly the heartbeat interval; the next visit takes the new expiry or loses the lease. |
| Provider.RegisteredIsNotYetActive | workers/provider.py:134-157 | A registered session is not active before its first beat, which is due at once. |
| Provider.AlwaysWholeLease | workers/provider.py:38-230 | Over every sequence of calls a session holds a whole lease or nothing of one, closing is final and its sequence numbers only grow. |
| LeaseProtocol.AlwaysInv | workers/provider.py:134-180 | In every interleaving of sessions, registry, delays and losses, what sessions and replies say is within what the registry promised. |
| LeaseProtocol.SessionNeverOutlivesLease | workers/provider.py:71-97 | A session's expiry never exceeds the registry's for the same still registered lease. |
| LeaseProtocol.NeverRefusedByOwnLease | adapters/capability/registry/registry.go:79-86 | A session that lost a reply and registers again gets its own lease back, or a new one. |
| LeaseProtocol.RefusedOnlyByAnother | adapters/capability/registry/registry.go:79-86 | A valid registration is refused exactly when a session with another declaration holds the provider's unexpired lease. |
| LeaseProtocol.StartActivatesIff | workers/provider.py:77-83 | In every reachable state a start over a network that answers activates the session exactly when no unexpired lease of its provider is under another declaration; the registry then shows it healthy, with the same expiry. |
| LeaseProtocol.ClosedForever | workers/provider.py:117-132 | A closed session never holds a lease or is active again, whatever is still on its way to it. |
| Privacy.Canonicalize | internal/application/privacy/service.go:95-125 | Succeeds exactly on acceptable snapshots and gives the eight grants in order. |
| Privacy.GrantForFinds | internal/application/privacy/service.go:103-124 | The canonical grant does not depend on where the stored grant stands. |
| Privacy.CanonicalLosesNothing | internal/application/privacy/service.go:95-125 | The canonical form keeps every stored grant and adds only disabled ones. |
| Privacy.GrantIndex | internal/application/privacy/service.go:136-143 | Gives the first position of a permission, or -1 when it is absent. |
| Privacy.Repository.Save | adapters/storage/privacyfile/repository.go:74-110 | Replaces the file only with the immediate successor of the expected revision; says which failures leave it replaced. |
| Privacy.Repository.Replace | adapters/storage/privacyfile/repository.go:166-214 | A failure before the rename leaves the file, one after it does not. |
| Privacy.Service.New | internal/application/privacy/service.go:25-45 | Opens exactly the acceptable files and restores their canonical form; says which fault each refusal gives. |
| Privacy.Service.Change | internal/application/privacy/service.go:62-93 | Memory changes only with a successful save; the grant lookup never misses. |
| PrivacyRuns.RevisionsAdvanceByOne | adapters/storage/privacyfile/repository.go:92-109 | Over every run of any number of services the file's revisions are consecutive and never wrap. |
| PrivacyRuns.ServicesNeverAhead | internal/application/privacy/service.go:62-93 | Every service holds the canonical eight grants, is never ahead of the file, and equals it when level with it. |
| PrivacyRuns.ReopenRestoresLastWrite | internal/application/privacy/service.go:25-45 | Whatever was written can be opened again, and gives the same snapshot. |
| PrivacyRuns.ChangeSetsExactlyOne | internal/application/privacy/service.go:76-93 | A successful change sets the permission it names and leaves every other grant. |
| PrivacyRuns.ChangeSucceedsIff | internal/application/privacy/service.go:62-93 | A change succeeds exactly when the call is live, the permission is known, and the service already holds what is asked, or is level with the file with revisions left, a set clock and a disk without failure; what it holds already is not written. |
| PrivacyRuns.TrailingNeverChanges | internal/application/privacy/service.go:88-92 | Once a service trails the file, no state-changing change of it ever succeeds or writes. |
| PrivacyRuns.SingleServiceTrailsByAtMostOne | internal/application/privacy/service.go:88-92 | A single service is level with the file or trails it by one. |
| PrivacyRuns.FallsBehindIff | adapters/storage/privacyfile/repository.go:203-213 | Any level service falls behind exactly when another service's write lands, or its own does and the directory sync then fails. |
| PrivacyRuns.FailedChangeOnDiskIff | adapters/storage/privacyfile/repository.go:203-213 | A change that reports failure is on disk exactly when its write landed and the directory sync then failed. |
| PrivacyRuns.OnDiskThoughFailed | adapters/storage/privacyfile/repository.go:203-213 | A run in which a change that reported failure is on disk and its service trails the file. |
| Supervisors.Supervisor.ReconcileOne | adapters/worker/supervisor/supervisor.go:231-293 | The in-place reconcile of one worker refines the pure step. |
| Supervisors.Supervisor.RefreshLeaseStateLocked | adapters/worker/supervisor/supervisor.go:295-315 | The lease loop refines the pure refresh by the provider's first lease; SupervisorHealth.ChildShownByLeases says what is then shown. |
| Supervisors.Supervisor.RemoveLeaseStateLocked | adapters/worker/supervisor/supervisor.go:356-364 | The in-place filter removes exactly one provider's snapshots and keeps the order of the rest. |
| Supervisors.Supervisor.SetRuntimeLocked | adapters/worker/supervisor/supervisor.go:366-375 | Publishes one snapshot with the next revision exactly when the state or reason changes. |
| Supervisors.Supervisor.ReconcileAll | adapters/worker/supervisor/supervisor.go:218-229 | Reconciles every worker in order, each with its persisted grant. |
| Supervisors.Supervisor.ReconcilePermission | adapters/worker/supervisor/supervisor.go:209-216 | Reconciles only the worker the command is about, with the command's value. |
| Supervisors.Supervisor.StopAll | adapters/worker/supervisor/supervisor.go:317-337 | Shuts every worker down in order. |
| SupervisorRuns.ReconcileMoves | adapters/worker/supervisor/supervisor.go:231-293 | A reconcile touches only its worker, leaves it with the right process, and leaves shown state and process consistent. |
| SupervisorHealth.KnownIffSeen | adapters/worker/supervisor/supervisor.go:248-315 | Over every run a worker is known exactly when a lease of its provider was in view at a reconcile that left it a child and it was not stopped since. |
| SupervisorHealth.ChildShownByLeases | adapters/worker/supervisor/supervisor.go:295-315 | Over every run a reconcile that leaves a child shows it running exactly when its provider's first lease in view is healthy and unexpired, starting exactly when none is in view and none was seen since the last stop, and degraded otherwise. |
| SupervisorView.JudgedByLastView | adapters/worker/supervisor/supervisor.go:350-364 | Over every run the lease a worker is judged by is its provider's first among those last put in view, unless the provider was dropped since because a child of it ended. |
| SupervisorView.FirstGrantDecides | adapters/worker/supervisor/supervisor.go:437-444 | The first grant for a permission decides it; without one it is off. |
| SupervisorView.FailedBecause | adapters/worker/supervisor/supervisor.go:231-293 | Says exactly when a reconcile leaves a worker failed, and that a dead child is an internal error and a failed launch a missing dependency. |
| SupervisorView.LaunchAnnounced | adapters/worker/supervisor/supervisor.go:267-293 | A launch is published as starting before it is made, and a failed one as degraded right after. |
| SupervisorView.StopAnnounced | adapters/worker/supervisor/supervisor.go:248-266 | Turning off a running worker publishes exactly stopping and then disabled. |
| SupervisorView.ShutDownAnnounced | adapters/worker/supervisor/supervisor.go:317-337 | So does the shutdown. |
| SupervisorView.QuietUnlessChanged | adapters/worker/supervisor/supervisor.go:366-375 | A reconcile that neither launches nor ends a child publishes exactly when what its worker shows changes. |
| SupervisorLoop.LiveIff | adapters/worker/supervisor/supervisor.go:231-337 | Over every run a child is live exactly when some step launched it and none since ended it. |
| SupervisorLoop.CommandsTakenInOrder | adapters/worker/supervisor/supervisor.go:139-187 | Over every run the queued commands are taken once each, in order, and no more than the limit wait. |
| SupervisorLoop.RoundsReachEveryWorker | adapters/worker/supervisor/supervisor.go:218-229 | Over every run a round reconciles the workers one after the other with the grants persisted when it began, and the loop listens only after every worker was reached. |
| SupervisorLoop.RoundsEnd | adapters/worker/supervisor/supervisor.go:154-207 | In every reachable state inside a round or the shutdown the loop can take a step of its own, each brings it closer, and it arrives listening or returned; a failed read ends it. |
| SupervisorSafety.LaunchesAreSeparated | adapters/worker/supervisor/supervisor.go:231-293 | Over every run, any two launch attempts of a worker are separated by a reconcile with its permission off. |
| SupervisorSafety.OneLiveChildPerWorker | adapters/worker/supervisor/supervisor.go:154-207 | At most one child per worker is live, and its worker holds it. |
| SupervisorSafety.NoneLiveAtReturn | adapters/worker/supervisor/supervisor.go:154-207 | No child is live when the run loop has returned, on any path. |
| SupervisorSafety.PublishedSnapshotsAreValid | adapters/ui/desktop/mapper.go:221-243 | Every snapshot ever published passes the desktop state and reason check, with a set time and consecutive revisions. |
| SupervisorSafety.ReconcileAllMatchesGrants | adapters/worker/supervisor/supervisor.go:218-293 | Right after a full reconcile every worker matches the grants read, and what it shows says which. |
| SupervisorSafety.TakenCommandMatchesIff | adapters/worker/supervisor/supervisor.go:180-184 | A queued command is followed as queued, so right after it the worker matches the persisted grants exactly when the command still says what is persisted. |
| SupervisorExamples.LaunchedThoughPersistedOff | adapters/worker/supervisor/supervisor.go:139-151 | A run in which a later setting is persisted before the older command is taken: a child is launched while the persisted permission is off. |
| SupervisorExamples.RestartShownDegraded | adapters/worker/supervisor/supervisor.go:248-254 | A run in which a healthy worker crashes, is switched off and on, and its new child is shown as degraded before it had a lease. |
| SupervisorSafety.RestartShowsStartingIff | adapters/worker/supervisor/supervisor.go:248-266 | After off and on, a worker is shown as starting exactly when it was not known healthy or its child was still running when it was stopped. |
| Readiness.ValidateScenario | internal/application/readiness/evaluator.go:59-96 | Accepts exactly scenarios with known, distinct, provided kinds and valid fallbacks. |
| Readiness.ValidateProviders | internal/application/readiness/evaluator.go:98-129 | Accepts exactly complete snapshots with distinct ids, and indexes them. |
| Readiness.ValidatePolicyKinds | internal/application/readiness/evaluator.go:143-155 | Accepts exactly distinct, allowed kinds. |
| Readiness.CollectIssues | internal/application/readiness/evaluator.go:28-40 | Collects one issue per failing selection and notes whether a required one failed. |
| Readiness.EvaluateAt | internal/application/readiness/evaluator.go:15-55 | Gives the fault, or the status and the sorted issues of exactly the failing selections; ReadinessLaws.StatusMeans says what that means. |
| ReadinessLaws.OrderDoesNotMatter | internal/application/readiness/evaluator.go:15-55 | Every reordering of required, optional, provider and policy lists gives the same result, however the unstable sort treats ties. |
| ReadinessLaws.TimeNeverHelps | internal/application/readiness/evaluator.go:157-203 | With everything else fixed, later evaluations report at least the same capabilities and never a better status; what is new has expired. |
| ReadinessLaws.FailsWithFirstReason | internal/application/readiness/evaluator.go:157-203 | A selection fails exactly when it is not available, and its code is that of the first condition it does not meet: known provider, declared capability, health, lease, biometrics on, authorized, enrolled. |
| ReadinessLaws.StatusMeans | internal/application/readiness/evaluator.go:15-55 | READY means every selection is available, BLOCKED that some required one is not, DEGRADED that only optional ones are not; the issues name exactly the unavailable ones. |
| CapabilityNames.RankIsAlphabetical | internal/application/readiness/evaluator.go:41-46 | Sorting issues by rank is sorting them by capability name. |
| IngressServer.NewServer | adapters/input/ingress/server.go:72-106 | Builds, for valid scenarios only, exactly the scenario's selection. |
| IngressServer.Authorize | adapters/input/ingress/server.go:168-192 | The check against the registry object gives the first applicable denial. |
| IngressServer.AuthorizedIffEntitled | adapters/input/ingress/server.go:168-192 | Authorization succeeds exactly for a held, healthy, unexpired lease of the selected provider, the same instance and a declared capability. |
| IngressServer.ForwardedIff | adapters/input/ingress/server.go:118-166 | Says exactly which messages reach the engine. |
| IngressServer.RefusedBecause | adapters/input/ingress/server.go:118-166 | A refused message is told the first of: blocked scenario, lease, age, content, inactive speech, closed reply window; each exactly when it is the first to fail. |
| IngressServer.LeaseRefusedBecause | adapters/input/ingress/server.go:168-192 | Each denial of a lease is given exactly when its condition is the first to fail. |
| IngressServer.EntitledIffAvailable | adapters/input/ingress/server.go:168-192 | The server and readiness agree on every capability without biometric rules. |
| IngressServer.ForwardedUnderFreshLease | adapters/input/ingress/server.go:118-192 | Over every registry history, whatever is forwarded comes under a lease touched less than one duration ago. |
| IngressServer.ForwardedSpeechIsAccepted | adapters/input/ingress/server.go:142-150 | Speech forwarded at a quiescent moment is accepted as the reply, if the engine admits it. |
| Avatars.DriverObject.Execute | adapters/embodiment/webavatar/driver.go:142-208 | The object refines the pure Execute: replay, refusals in order, visual completion or a started speech. |
| Avatars.ExecuteSays | adapters/embodiment/webavatar/driver.go:142-208 | Exactly when a command is taken on, replayed, or refused with each fault, on the command's own fields. |
| Avatars.DriverObject.FinishSpeech | adapters/embodiment/webavatar/driver.go:310-331 | Appends the terminal status, finalizes the record and frees the active slot. |
| AvatarRuns.StatusListsAreLifecycles | adapters/embodiment/webavatar/driver.go:142-208 | In every interleaving each action has the statuses dispatched, accepted, started, and one terminal exactly when finalized. |
| AvatarRuns.UnfinalizedIffActive | adapters/embodiment/webavatar/driver.go:142-331 | A record is unfinalized exactly when it is the active speech's. |
| AvatarRuns.TerminalFollowsCause | adapters/embodiment/webavatar/driver.go:242-344 | Cancelled and timed out name the write-once cause; completed and failed mean no cause and a clock before the deadline at the worker's last check; AvatarTrace.TerminalFollowsSteps ties this to the steps. |
| AvatarTrace.TerminalFollowsSteps | adapters/embodiment/webavatar/driver.go:242-344 | In every interleaving a finalized speech is COMPLETED exactly when its worker last saw no cause and its Speak call succeeded, SPEECH_FAILED exactly when that call failed, TEXT_REALIZATION_FAILED exactly when no text was realized, and otherwise what the cause it saw says. |
| AvatarTrace.CauseIsFirst | adapters/embodiment/webavatar/driver.go:212-308 | In every interleaving the cause of a speech is its first cancellation and no later one changes it. |
| AvatarShown.EveryStepShows | adapters/embodiment/webavatar/driver.go:142-331 | In every interleaving each step shows exactly what it should, under the next revision, or leaves the shown update alone. |
| AvatarShown.SpeakingOnlyWhileActive | adapters/embodiment/webavatar/driver.go:263-331 | The avatar is shown speaking only for the active speech; none that ended leaves it so. |
| AvatarCauses.CompletedUncancelledIff | adapters/embodiment/webavatar/driver.go:242-302 | A completed speech carries no cancel cause exactly when no stop, timer or parent context cancelled it between its worker's last look at the cause and the worker's declaration that it finished. |
| AvatarCauses.CompletedThoughStopped | adapters/embodiment/webavatar/driver.go:212-261 | A run in which StopAll cancels a speech after that last look, and the speech is recorded as completed with that cause. |
| AvatarRuns.StreamCarriesTheRecord | adapters/embodiment/webavatar/driver.go:194-207 | The caller's stream holds the record's statuses, always has room for the terminal one, and is judged clean by the engine exactly when it ends in COMPLETED. |
| AvatarRuns.StopAllJoins | adapters/embodiment/webavatar/driver.go:212-240 | When StopAll returns, the speech it found active has ended and its stream is closed. |
| AvatarRuns.ActiveSpeechCanMove | adapters/embodiment/webavatar/driver.go:242-261 | Nothing inside the driver waits forever while a speech is active. |
| AvatarRuns.WorkersEnd | adapters/embodiment/webavatar/driver.go:242-331 | Every step of a speech worker brings it closer to its end and no other step takes it back, so it ends after at most fourteen. |
| AvatarRuns.SilentWithoutSpeaker | adapters/embodiment/webavatar/driver.go:105-115 | Without a speaker there is never a speech. |
| AvatarRuns.ReplayIsInert | adapters/embodiment/webavatar/driver.go:151-164 | Sending a finalized command again, at any later time, returns the same statuses and changes nothing. |
| Mailboxes.Hub.PublishLocked | adapters/embodiment/webavatar/subscription.go:37-53 | The loop leaves the new value in every subscriber's buffer, however consumers interleave, its blocking send finds room, and it does what the step system does from publish to unlock. |
| Mailboxes.Hub.Cancel | adapters/embodiment/webavatar/subscription.go:23-33 | Removes and closes the subscription once. |
| Mailboxes.PublisherNeverBlocks | adapters/embodiment/webavatar/subscription.go:37-53 | In every interleaving the publisher's next move is possible and its channel is open. |
| Mailboxes.PublishTerminates | adapters/capability/registry/registry.go:218-231 | A publish ends after at most three moves per subscriber. |
| Mailboxes.NewestIsDelivered | adapters/embodiment/webavatar/subscription.go:37-53 | Between publishes the newest value is in the buffer or already taken. |
| Mailboxes.ReceivedStrictlyIncrease | adapters/worker/supervisor/supervisor.go:385-428 | Received revisions strictly increase, from the one subscribed at. |
| Mailboxes.MailboxesAreSubscriptions | adapters/embodiment/webavatar/subscription.go:14-53 | Over every run there is one mailbox per subscription, closed exactly when cancelled, and one revision per publish. |
| Microphone.PCMFramer.Push | workers/microphone/activity.py:46-54 | The cutting loop yields the whole frames of the buffered bytes and keeps the rest. |
| Microphone.FrameBytes | workers/microphone/activity.py:24-35 | Accepts exactly the four rates, three durations and the two-byte width, and gives the bytes of a frame of that duration. |
| Microphone.ChunkingDoesNotMatter | workers/microphone/activity.py:46-54 | Under any chunking, frames plus tail are the pushed bytes and the tail is shorter than a frame. |
| Microphone.VoiceActivityGate.Update | workers/microphone/activity.py:75-90 | The in-place update equals the pure step on the deque. |
| Microphone.UpdateRefines | workers/microphone/activity.py:75-90 | The gate's fields represent its whole history: it triggers exactly when armed and the last full window since arming is voiced enough. |
| Microphone.TriggersAreRare | workers/microphone/activity.py:75-90 | k triggers in N frames satisfy k*(window+rearm) <= N+rearm. |
| Microphone.TriggerBoundIsTight | workers/microphone/activity.py:75-90 | For every k and every setting a history meets that bound with equality. |
| Microphone.MicrophoneWorker.Process | workers/microphone/activity.py:106-116 | A chunk publishes once per trigger when the session is active, and never otherwise. |
| Microphone.ActivityIsRare | workers/microphone/activity.py:106-116 | The bound holds for any bytes in any chunks and any voice detector. |
| Presence.PresenceHysteresis.Update | workers/camera/presence.py:32-44 | The in-place update equals the pure step on the deque. |
| Presence.UpdateRefines | workers/camera/presence.py:32-44 | The fields represent the whole history and emit what it calls for. |
| Presence.EntersOnlyOnDetection | workers/camera/presence.py:36-39 | Presence is entered only on a positive frame, with exactly the required hits in the window. |
| Presence.ExitsExactlyAtLimit | workers/camera/presence.py:40-43 | Presence is exited exactly when the trailing misses reach the limit, unless already absent. |
| Presence.EmissionsAlternate | workers/camera/presence.py:32-44 | Emissions strictly alternate and the last one is the current state. |
| Presence.TransitionsAreRare | workers/camera/presence.py:32-44 | Entries times hits plus exits times misses never exceed the frames seen. |

## Left out

- Generated protobuf, gRPC and Connect code, the desktop and Connect bridges, the web and WASM panels: transport and presentation.
- Composition roots, the fake driver, the system clock, configuration files, YAML and JSON parsing.
- Loopback authorization, token generation, file modes, symlink checks and socket setup.
- Audit records, warnings and error texts: they do not affect state; faults carry their category only.
- Integer width: revisions of the avatar and the supervisor, sequence numbers and times are unbounded; only the privacy revision models its 64-bit limit.
- Durations do not saturate, and confidence is a real number, so NaN does not occur.
- The snapshot hash in a decision is represented by the snapshot itself.
- Within the engine, an operation takes effect in one step at its completion, which is sound because the runner is proved to be its only writer.
- Registries.Registry.Register: the declaration is taken as normalized; sorting capabilities and the wire mapping are not modelled, nor are the sorted provider listings.
- The random lease id generator is a parameter: it gives an id that is not in use, or none when it fails; its retry loop is not modelled.
- IngressServer.ForwardedIff: the mapping from the wire message and the translation of the engine's later answer into a receipt are not modelled.
- Readiness.EvaluateAt: provider health is one of two values, so the check for an unknown health text is not modelled; the library sort is represented by its contract and one sort that meets it.
- Supervisors.Supervisor.ReconcileOne: the call that revokes a stopped worker's leases at the registry is not recorded; signals, timeouts and kills inside the stop are one wait for the child to exit.
- The supervisor's constructor checks and sorting of worker specifications.
- Privacy.Repository.Save: two repository objects on one path are not interleaved; the in-process lock makes a save one step.
- AvatarRuns.StopAllJoins: idle is shown as StopAll returns (AvatarShown.EveryStepShows), but not claimed to last, since a visual action may race past it.
- Mailboxes.Hub.PublishLocked: the order in which a map yields its subscribers is a parameter.
- The camera worker's delivery order: a newer transition published successfully does not clear an older pending one, so no claim is made about what was delivered last.
- ProviderSession.mark_unhealthy, connecting a session, and building transport messages.
