# Claim lifecycle and evidence: a Dafny model

This project models how Agenova runs one governed claim and what evidence it leaves behind, as one system: a
producer, a log, a checker and a recovery procedure that were written separately and must agree.

- **Run service.** `RunService.dfy` drives a claim from Pending to a terminal phase. Backend, clock, context and
  evidence sink belong to the class `World`, whose methods answer arbitrarily and record what happened in a ghost
  trace. `Protocol.dfy` says when each event may happen (`Guard`) and what the events so far amount to (`RunOf`);
  every method is proved to produce only legal traces. `Discipline.dfy` restates legality about traces alone.
  `ServiceSafety.dfy` interleaves many claims under the run lock.
- **Log.** `Journal.dfy` states what may be appended about the log alone (`Admissible`); the class decides by its
  cached indexes, which are proved equal to the log. `ModelBudget.dfy` interleaves gateway calls over it, and
  `Listing.dfy` is the client's check across works.
- **Checker.** `Checker.dfy` gives the client's evidence checker twice, as a fold with one rule per concern and as
  the loop the client runs. `CheckerSoundness.dfy` and `AcceptedViews.dfy` say what acceptance means, over the facts and
  the state of an accepted view alone: the shape of its lifecycle, and for every fact to whom it belongs, what it carries
  and which facts stand before it.
- **Producer meets checker.** `Session.dfy` is what governed work may record, `Lifecycle.dfy` how each write becomes a
  journal fact, `Producer.dfy` the induction over a run, `Acceptance.dfy` the results: when the views a query
  shows during a run, before its outcome is published and after, are accepted. Each is an equivalence with conditions
  the service could check. `Submission.dfy` runs the service and decides its published view.
  `Boundaries.dfy` constructs, for every admitted work, a journaled run that is accepted and one for each way of
  being refused.
- **Recovery.** `RecoveryEvidence.dfy` says which half-written records can be finished, `CrashClosure.dfy` that every
  durable prefix of a bound run is one, and `Recovery.dfy` runs recovery over a store and a backend that may fail
  anywhere; a failed commit may or may not have reached the store. Every call is logged with its worker, its answer and
  the position the journal had reached.
- **Before it.** `Resolver.dfy` resolves authority and records differences, `ClientAuthority.dfy` is the client's own
  comparison, and `Issuance.dfy` takes a request through the gate and the resolver to an issued claim. `Intake.dfy` records
  the submission in the journal: it stores the view of a request that will not run, or starts the work with exactly the
  facts the acceptance results begin with.
- **Below it.** `MemoryBackend.dfy` is the in-memory backend, and `MemoryRun.dfy` says what becomes of its allocation in
  every legal run.
- **Around it.** `Advisor.dfy` the single-flight access advisor, `SchemaTrie.dfy` nested configuration maps.

Some results were found to hold only under a condition, and are stated as equivalences or with the exact condition:

- A request that needs approval is stored without any state, and the client refuses every view without one
  (`Intake.Submit`). With the state a denied request gets, its view would be accepted, with exactly its own outcome
  (`Intake.DecidedViewAccepted`).
- A worker that arrives after the deadline is released without ever having been bound; the client refuses the facts of
  that release (`Boundaries.LateWorkerIsRefused` is such a run, `Acceptance.FinalAccepted` the condition).
- A governed call that was allowed but never attempted, because the claim stopped running in between, and a teardown
  error that wraps a cancellation of a claim that did not fail, also make the final view unacceptable
  (`Boundaries.OpenCallIsRefused`, `Boundaries.CanceledTeardownIsRefused`).
- The service does not order the facts of its work against the terminal event, and the client refuses the late ones
  (`Boundaries.LateFactIsRefused`); `Producer.Quiet` is the condition in every acceptance result.
- The recorded number of model calls decodes to the intended one exactly when that is not zero
  (`Resolver.CallsDecode`), which the bounds on templates and policies ensure (`Issuance.ValidCallsDecode`).

Strings that name kinds, operations, codes and statuses are datatypes whose last constructor stands for every other
string. Copying through JSON is the identity. Time is an integer; a slice that may be nil and an empty one are the same.

## Model

| member | source | states |
|---|---|---|
| Checker.ValidEvidenceView | internal/connectedclient/run.go:274-868 | the client's single pass, stopping at the first fact it refuses, accepts a view exactly when the fold of the per-fact rules accepts every fact and the final rules accept the cursor |
| CheckerSoundness.SucceededLifecycle | internal/connectedclient/run.go:455-547 | a view accepted as Succeeded records Bound, BackendReady, Running, Succeeded, one termination and one cleanup, each once and in this order, and its only run outcome is its last fact |
| CheckerSoundness.FinishedLifecycle | internal/connectedclient/run.go:780-866 | an accepted finished view of an allocated claim has only one shape of milestones, ended by one terminal operation, one termination and one cleanup |
| CheckerSoundness.OutcomeIsLast | internal/connectedclient/run.go:350-355 | no accepted fact follows a run outcome |
| CheckerSoundness.AcceptedWorkUnderGrant | internal/connectedclient/run.go:549-565 | under a network grant every worker or invocation fact follows an activation, and after a release attempt only provider outcomes arrive |
| CheckerSoundness.AttemptsWithinLimit | internal/connectedclient/run.go:590-609 | an accepted view attempts at most as many model calls as its limit |
| CheckerSoundness.AttemptsAreLicensed | internal/connectedclient/run.go:675-715 | each model attempt follows its own Allow decision, which follows its own reservation, and no earlier attempt of the same invocation |
| CheckerSoundness.LastModelCall | internal/connectedclient/run.go:1047-1075 | the last model call that succeeded in an accepted pass was allowed, attempted and answered once each for the granted profile |
| AcceptedViews.StateIsConsistent | internal/connectedclient/run.go:281-306 | the state of an accepted view is about its request, its parts name each other, and it holds a claim exactly when the request was allowed |
| AcceptedViews.RequestIsValid | internal/connectedclient/run.go:281-284 | the request of an accepted view is valid: its lists name something, each value once, and its needs are within bounds |
| AcceptedViews.AuthorityIsRequested | internal/connectedclient/run.go:307-309 | what an accepted view grants was asked for, and no dimension that was asked for was dropped |
| AcceptedViews.AdmissionComesFirst | internal/connectedclient/run.go:356-384 | an accepted view begins with the receipt and then the decision, each once; identities are distinct and positions increase |
| AcceptedViews.FactBelongs | internal/connectedclient/run.go:365-393 | every fact of an accepted view is about this request and its claim, and the decision, authority, policy and identity it carries are the state's |
| AcceptedViews.AdmissionCarries | internal/connectedclient/run.go:420-449 | what the receipt, the decision and the resolved authority carry, and that the recorded differences are exactly the values that were not granted |
| AcceptedViews.AuthorityComesFirst | internal/connectedclient/run.go:438-454 | authority is recorded at most once, and before every fact of the run and its work |
| AcceptedViews.RuntimeFitsClaim | internal/connectedclient/run.go:464-467 | only the operation that made the claim's phase ends it, and a claim without a worker has no facts of one |
| AcceptedViews.RuntimeInOrder | internal/connectedclient/run.go:464-547 | for every runtime operation, which must have been recorded before it and which must not |
| AcceptedViews.EventsAreRecorded | internal/connectedclient/run.go:764-771 | the runtime operations of an accepted view are the events its state lists |
| AcceptedViews.NetworkInOrder | internal/connectedclient/run.go:474-507 | network facts are of the claim's own worker; one activation is attempted while running and before any release, answered once; a release is answered only while it is asked for, and asked for again, or after termination, only by recovery |
| AcceptedViews.WorkIsTimely | internal/connectedclient/run.go:549-564 | work is recorded while the claim runs and not while an activation is undecided; after its end only cancelled outcomes follow an expiry or a cancellation |
| AcceptedViews.DecisionsAreGranted | internal/connectedclient/run.go:586-602 | every allowed tool is one of the authority's tools and every allowed model is its model; each invocation is decided once, under the state's policy |
| AcceptedViews.CallsInOrder | internal/connectedclient/run.go:692-715 | an attempt follows its own Allow decision for the same operation and model, an outcome its own attempt at the same target, neither twice |
| AcceptedViews.ActionsFollowAnswers | internal/connectedclient/run.go:610-674 | the worker records only known steps; a validated action follows the successful answer of the allowed model call it names, and no other worker fact names a call |
| AcceptedViews.NamedActionsAreDeclared | internal/connectedclient/run.go:568-582 | a decision that names an action follows that validated tool action, of the same claim and turn and for this tool |
| AcceptedViews.DeclarationsAreBounded | internal/connectedclient/run.go:574-582 | only a validated action declares what the agent chose: a tool with its resource, or an end without either, within bounds |
| AcceptedViews.BudgetIsKept | internal/connectedclient/run.go:590-609 | reservations are numbered from one under the authority's decoded limit, an allowed model call of limited work was reserved, and exhaustion is reported only at the limit |
| AcceptedViews.OutcomeFitsState | internal/connectedclient/run.go:1077-1090 | a denied request ends as denied, one that needs approval as needing it, and a claim as its phase says; text only on success, a reason otherwise |
| AcceptedViews.OutcomeFactFits | internal/connectedclient/run.go:406-419 | the run outcome is last, fits the claim's phase, and agrees with the shown outcome |
| AcceptedViews.OutcomeIsRecorded | internal/connectedclient/run.go:841-843 | a finished claim ends with its run outcome |
| AcceptedViews.CallsAreClosed | internal/connectedclient/run.go:830-840 | in a finished view every allowed call has its outcome, unless a crash cut the run short |
| AcceptedViews.ResultsAreBacked | internal/connectedclient/run.go:781-858 | a result is that of the last successful model call, which was allowed, attempted and answered for the granted model; a spent budget is reported only when it was spent, denied and unanswered |
| AcceptedViews.OutcomeIsReleased | internal/connectedclient/run.go:802-812 | a finished view shows every release answered, and whatever was activated or granted network access released |
| AcceptedViews.AuthorityIsRecorded | internal/connectedclient/run.go:772-779 | granted work records its authority, or could not be configured, or was left by a crash before it began |
| RunService.Service.RunContext | internal/app/run_service.go:257-534 | for every backend, clock, context and sink: an invalid input and a known claim change nothing; otherwise the trace is legal and complete, the returned state is the stored one and a valid issued state, only this claim's state changed, no identity changes owner; a worker is asked only of a backend that supports network access, and only one that does not is given up for it; the grant is the issued network profiles and ends no later than the caller's deadline; every well-formed allocation is reserved and released unless another claim owned it before; no error is returned exactly when the claim succeeded with every write taken and the worker revoked, terminated and cleaned up; and if every write was taken, an error that wraps a cancellation belongs to a Failed claim or to a release call whose own error wrapped one |
| RunService.Service.Insert | internal/app/run_service.go:578-592 | a claim is registered once, as issued |
| RunService.Service.ReserveIdentity | internal/app/run_service.go:594-602 | refused exactly when another claim owns the identity |
| RunService.Service.Transition | internal/app/run_service.go:694-726 | publishes the phase, the event and the binding, keeps the stored state valid, and is refused only for an unacceptable identity |
| RunService.Service.RecordEvent | internal/app/run_service.go:728-744 | appends one event, whatever the sink answers |
| RunService.Service.Finish | internal/app/run_service.go:612-617 | publishes a terminal phase and joins a failed write to the cause |
| RunService.Service.RevokeNetwork | internal/app/run_service.go:654-685 | asks the backend unless a revocation was confirmed, even when the attempt could not be written |
| RunService.Service.Teardown | internal/app/run_service.go:619-652 | revokes, terminates and cleans up whatever fails, and leaves the run complete |
| RunService.Service.StopIfInterrupted | internal/app/run_service.go:354-365 | either ends and releases the run or leaves it unchanged with context and deadline read as clear |
| RunService.Service.AwaitReady | internal/app/run_service.go:367-400 | polling ends, with a matching ready observation written or the run over |
| RunService.Service.StartWorker | internal/app/run_service.go:401-427 | Running is published only after a successful start, with the context live and the run's own deadline ahead, as read before the start, after it and after the write |
| RunService.Service.ActivateWorker | internal/app/run_service.go:427-471 | activation happens between a written attempt and a written result with matching evidence, or the run is over |
| RunService.Service.ReleaseLate | internal/app/run_service.go:319-328 | the claim expires, and a worker that arrives after the deadline is reserved and released although it was never bound, unless another claim owns it |
| RunService.Service.BindIdentity | internal/app/run_service.go:335-342 | binds a reserved identity or ends the run |
| RunService.Service.StopWork | internal/app/run_service.go:480-492 | ends a run whose work is still active, joins the work and releases the worker, whatever fails |
| RunService.Service.Conclude | internal/app/run_service.go:506-534 | publishes how the returned work ended and releases the worker, whatever fails; no error exactly when all of it went well |
| RunService.Service.FixAuthority | internal/app/run_service.go:296-302 | the deadline is the earlier of the caller's and the granted timeout's |
| RunService.ReachedStateIsValid | api/v1alpha1/sandbox_claim.go:191-300 | every state a run can reach is a valid issued state |
| Discipline.TeardownDiscipline | internal/app/run_service.go:619-652 | a finished run that reserved an identity revoked, then terminated once, then cleaned up once; it revoked twice only after an unconfirmed revocation |
| Discipline.OfferedIsReleased | internal/app/run_service.go:317-341 | a finished run terminated and cleaned up every worker it was offered, unless another claim owned it |
| Discipline.RevokedBeforeJoined | internal/app/run_service.go:480-492 | work that is still running when its claim ends is joined only after the network authority was revoked |
| Discipline.ReleaseFollowsTheEnd | internal/app/run_service.go:480-492 | exactly one terminal phase was written before the first release call, the work had returned before termination, and no other backend call follows a terminal phase |
| Discipline.CallsNameTheReserved | internal/app/run_service.go:335-534 | every backend call names the identity this run reserved |
| Discipline.DispatchGate | internal/app/run_service.go:367-490 | work is dispatched at most once, after a successful start and an activation as granted that was written, with no lost write, and with the context read as live and the clock before the run's deadline since the last write |
| Discipline.GrantingCallsAreChecked | internal/app/run_service.go:304-445 | the backend allocates, observes, starts and activates only after the context was read as live and the clock before the run's deadline since the last write or call |
| Discipline.SuccessGate | internal/app/run_service.go:506-534 | success is written only after the work returned well, with the context live and the clock before the run's deadline since then and no lost write |
| Discipline.EndsHaveReasons | internal/app/run_service.go:343-365 | Expired needs a reading at or past the run's deadline or a context that ran out, Cancelled a cancelled context, StartFailed a failed start |
| Discipline.FailuresHaveReasons | internal/app/run_service.go:310-471 | AllocationFailed needs a backend without network access, an unusable allocation or a worker owned elsewhere; NetworkActivationFailed a lost write or an activation that failed or answered with another claim, worker, grant or state; Failed a lost write, a mismatched observation, failed work or an unacceptable identity |
| Discipline.DeadlineDecidesFirst | internal/app/run_service.go:506-534 | an error of the work fails the claim only with the context live and the clock before the deadline, as read since the work returned |
| Discipline.PhaseStep | internal/app/run_service.go:774-785 | a claim is bound only from Pending, runs only from Bound, succeeds only from Running, and its end is final; a binding, once made, is the reserved identity |
| Discipline.BindingStays | internal/app/run_service.go:694-726 | a binding never changes |
| ServiceSafety.OneActiveClaim | internal/app/run_service.go:290-293 | in every interleaving at most one claim is Bound or Running, and no two claims hold one identity |
| ServiceSafety.CallsOwnIdentity | internal/app/run_service.go:594-602 | every backend call names an identity its claim owns |
| ServiceSafety.MovesFollowTransitions | internal/app/run_service.go:774-785 | in every interleaving each claim's phase follows allowed transitions and its binding stays |
| Session.SessionAccepted | internal/modelgateway/gateway.go:154-204 | whatever governed work records next, the checker's call rules accept |
| Session.SessionFollowed | internal/console/service.go:511-735 | the checker's record of calls, budget and actions keeps following the work |
| Session.ToolCallMayRun | internal/toolgateway/gateway.go:150-189 | work between calls can call exactly the granted tools, from decision to any outcome, and is then free again |
| Session.ModelCallMayRun | internal/modelgateway/gateway.go:154-204 | work between calls can call the granted model exactly while a unit of its budget is left, from reservation to any outcome, and can be denied as exhausted exactly when none is |
| Lifecycle.WriteAccepted | internal/console/service.go:443-488 | the projected fact of every write of a legal run passes the checker's lifecycle rules |
| Lifecycle.LifeFollowed | internal/console/service.go:443-488 | the checker's lifecycle keeps following the run |
| Lifecycle.NetFollowed | internal/console/service.go:443-488 | the checker's network state keeps following the run |
| Lifecycle.LegalIsSound | internal/app/run_service.go:257-534 | what every legal run keeps about phases, binding, steps and release |
| Producer.AdmissionAccepted | internal/console/service.go:334-407 | the three admission facts, in the order they are appended, are accepted |
| Producer.Produced | internal/console/service.go:443-488 | along every legal governed run whose writes were taken and whose work kept quiet after the end, the checker follows every fact |
| Producer.LateWorkRefused | internal/connectedclient/run.go:549-565 | along such a run the checker refuses the facts as soon as the work records anything but a cancelled outcome after the end of its claim |
| Acceptance.SnapshotAccepted | internal/console/service.go:1064-1095 | until the outcome is recorded, what a query shows of such a run is accepted exactly when no late fact was recorded and no worker that was never bound is shown as failed or released |
| Acceptance.UnpublishedAccepted | internal/console/service.go:785-801 | between the recording of the outcome and its publication the view is accepted exactly when nothing was released unbound, no late fact was recorded, and an error that wraps a cancellation belongs to a Failed claim |
| Acceptance.FinalAccepted | internal/console/service.go:759-804 | the view published at the end is accepted exactly when nothing was released unbound, no late fact was recorded, no call was left open, and an error that wraps a cancellation belongs to a Failed claim |
| Submission.Drive | internal/console/service.go:759-804 | driving admitted work from its registration to the published view: the returned state shows the run's phase and binding, and if every write was taken, what is reported is an outcome of the run and is accepted exactly under these conditions |
| Submission.ReportOutcome | internal/console/service.go:759-784 | the published status is Cancelled exactly when the run's error wraps a cancellation, and otherwise the final phase, or Failed without one; the result of the work is shown exactly on success, a failure text exactly with an error |
| Boundaries.RunIsJournaled | internal/console/service.go:443-488 | every run has a journal: a fact for each write that was taken and each fact of its work |
| Boundaries.NumberedIsStamped | internal/facts/journal.go:318-352 | facts numbered from one have distinct identities and increasing positions |
| Boundaries.SuccessIsAccepted | internal/app/run_service.go:257-534 | for every admitted work and acceptable worker some complete run succeeds, is released in full and accepted |
| Boundaries.CanceledTeardownIsRefused | internal/console/service.go:759-804 | for every admitted work a run that succeeds is refused when terminating its worker fails with an error that wraps a cancellation |
| Boundaries.LateWorkerIsRefused | internal/app/run_service.go:319-328 | for every admitted work a worker that arrives after the deadline is released unbound, and the published view is refused |
| Boundaries.OpenCallIsRefused | internal/connectedclient/run.go:805-866 | for every admitted work with a model a run that expires between decision and attempt is refused |
| Boundaries.LateFactIsRefused | internal/console/service.go:576-600 | for every admitted work a run in which the worker reports a step after its claim expired, before it is joined, is refused |
| Acceptance.MarksAreFacts | internal/console/service.go:737-757 | a report of an exhausted budget is backed by a recorded denial at the limit and no final answer |
| CrashClosure.CrashIsUnderway | internal/console/recovery.go:54-100 | a crash at any moment after Bound leaves a record that recovery can finish exactly when no late fact was recorded and, if the claim had succeeded, no call was left open |
| CrashClosure.CrashIsDone | internal/console/durable.go:144-171 | a crash between the outcome fact and the publication of a publishable view completes to that very view |
| RecoveryEvidence.RecoveryStep | internal/console/recovery.go:117-133 | each fact recovery adds keeps the record recoverable |
| RecoveryEvidence.ScanAgrees | internal/console/recovery.go:72-93 | what recovery reads from the facts is the checker's own lifecycle |
| RecoveryEvidence.UnmarkedHasNoNetwork | internal/console/recovery.go:227-252 | a record without any network marker needs no network release to be accepted |
| RecoveryEvidence.PublishStep | internal/console/recovery.go:203-221 | the recovered outcome of a released record gives an accepted view |
| RecoveryEvidence.FoldTransfers | internal/connectedclient/run.go:950-977 | a log without an outcome reads the same under any phase until a terminal operation fixes it |
| Recovery.ScanRecord | internal/console/recovery.go:72-93 | the scan loop computes the fold over the facts and stops at the first fact it must not touch |
| Recovery.RecoverAllocation | internal/console/recovery.go:54-221 | whatever fails, only this record changes, its facts only grow, its identity and a terminal phase stay; the backend is asked, for this worker only, a prefix of restore, revoke, terminate, clean up; every fact that reports an answer follows a call that was answered so; what is published says Cancelled exactly when the fact that ended the run does, and otherwise names the claim's phase, with the staged result exactly on success; a record is published only if its worker was cleaned up before or all of these were granted; and a record that could be finished is published and accepted or still can be; and a recognizable record is left unfinished only when the store failed, no position is left, or the last call was not granted |
| Recovery.MarkedIsRevoked | internal/console/recovery.go:224-252 | recovery asks for a network release exactly when the request, the state or any fact carries a sign of network authority |
| Recovery.RecoverDurableWork | internal/console/recovery.go:27-53 | after any stop every record that could be recovered is published and accepted or can still be recovered, so recovery may be repeated; what it recorded of the backend the backend answered, and the worker of every record it published is offline; without an error nothing is pending, and an error means that the store failed, no position is left, the context ended, or some record cannot be recognized or was not granted its last call |
| Recovery.ReleaseNetwork | internal/console/recovery.go:156-177 | asks the backend once, for this worker; succeeds only if the backend confirmed the release, and records the confirmation or its absence only after that answer |
| Recovery.StopWorker | internal/console/recovery.go:178-192 | asks once, for this worker; succeeds only if it stopped or was already gone, and records which only after that answer |
| Recovery.CleanUpWorker | internal/console/recovery.go:193-202 | succeeds only if the backend verified the release of this worker, and records it only after that answer |
| Recovery.Inspect | internal/console/recovery.go:54-103 | refuses exactly the records whose allocation, lifecycle or result is not known well enough to finish them |
| Recovery.UnderwayIsNotComplete | internal/console/durable.go:144-171 | a record without an outcome fact is never completed |
| Journal.Journal.RegisterRequest | internal/facts/journal.go:124-135 | registers a request once |
| Journal.Journal.BindClaim | internal/facts/journal.go:137-159 | claims and requests are bound one to one; binding again changes nothing |
| Journal.Journal.Append | internal/facts/journal.go:176-352 | a fact is stored exactly when it is admissible and its commit succeeds; otherwise nothing changes; all indexes stay those of the log |
| Journal.Journal.Admits | internal/facts/journal.go:176-326 | deciding by the cached indexes is deciding by the log |
| Journal.Journal.ReserveModelCall | internal/facts/model_budget.go:11-32 | takes the next numbered unit exactly when the request has none for this invocation or under another limit, one is left, the unit is admissible and its commit succeeds; reports the budget as exhausted exactly when none is left; otherwise changes nothing |
| Journal.UnitIsAdmissible | internal/facts/journal.go:223-241 | a unit that is left is admissible exactly when its request is registered, its claim bound to it, its invocation not another claim's, and a position and identity unused |
| Journal.Journal.CountUnits | internal/facts/model_budget.go:17-26 | counts the units of the request unless one is for the same invocation or another limit |
| Journal.Journal.ForRequest | internal/facts/journal.go:354-365 | the facts of one request, in order |
| Journal.Journal.ForClaim | internal/facts/journal.go:367-378 | the facts of one claim, in order |
| Journal.BackendsPaired | internal/facts/journal.go:263-275 | claims and backend identities in the log name each other |
| Journal.FactAt | internal/facts/journal.go:318-352 | sequence is start plus position and every fact is attributed as registered |
| Journal.CarriedAt | internal/facts/journal.go:211-274 | every recorded decision is the registered principal's, every authority the bound claim's, and a named action was validated earlier for this tool, claim and turn |
| Journal.CallsInOrder | internal/facts/journal.go:286-310 | in one log an attempt follows an Allow decision of its own invocation and an outcome an attempt of its own; no invocation is decided, attempted or answered twice |
| Journal.CallIsAdmissible | internal/facts/journal.go:278-320 | a plain fact of a call is admissible exactly when it is placed and due: the decision of an undecided invocation, the first attempt of an allowed one, the first outcome of an attempted one |
| Journal.IDsDistinct | internal/facts/journal.go:322-327 | no two facts share an identity |
| Journal.ViewIsStamped | internal/facts/journal.go:354-365 | the view of one request keeps distinct identities and increasing positions |
| Journal.RequestsAreIsolated | internal/facts/journal.go:354-378 | views of different requests share no fact, position or invocation |
| Journal.ClaimWithinRequest | internal/facts/journal.go:367-378 | the facts of a claim are the facts of its request that name it |
| Journal.BudgetIsNumbered | internal/facts/journal.go:223-241 | a request's reservations are numbered from one under one limit, never beyond it, each for its own invocation |
| Numbering.FactIDInjective | internal/facts/journal.go:322-324 | different positions give different fact identities |
| Listing.ListFacts | internal/connectedclient/run.go:139-154 | the client's loop accepts exactly the lists whose facts do not contradict each other |
| Listing.JournalListsCleanly | internal/connectedclient/run.go:139-154 | these checks never fire on views cut from one journal |
| ModelBudget.BudgetIsNeverExceeded | internal/modelgateway/gateway.go:154-204 | in every interleaving and for any identity source the dispatches are distinct invocations, each with its own Allow decision after its own reservation; reservations are numbered under one limit; neither exceeds it |
| ModelBudget.SpendableToTheLimit | internal/facts/model_budget.go:11-32 | in every interleaving a call with an identity of its own can take the next unit whenever no other holds the lock, unless all are taken |
| ModelBudget.StepKeeps | internal/facts/model_budget.go:11-32 | what every step of every call keeps |
| Resolver.ExactIntersection | internal/authority/resolver.go:182-199 | the loop keeps the allowed values in order, each once |
| Resolver.ResourceIntersection | internal/authority/resolver.go:201-228 | likewise under wildcard ceilings, and nothing when a requested scope is not concrete |
| Resolver.KeptExactly | internal/authority/resolver.go:182-228 | what is kept is exactly what is requested and allowed, without duplicates and in requested order |
| Resolver.Resolve | internal/authority/resolver.go:21-152 | grants exactly under the conditions of `Resolver.GrantedExactly`, and then the grant of `Resolver.GrantIsExactMeet` |
| Resolver.GrantedExactly | internal/authority/resolver.go:22-142 | a request is granted exactly when every cap names only what was asked for, every scope asked for is concrete, some value of each list asked for is allowed by ceiling and cap, both list the model, the runtime profile and each network profile, and the calls asked for are within both limits |
| Resolver.CoversExactly | internal/authority/resolver.go:213-214 | a scope is covered by itself and by every beginning of it followed by a star |
| Resolver.GrantIsExactMeet | internal/authority/resolver.go:60-114 | each granted list is the exact meet of request, ceiling and cap; model, runtime and network profiles are granted as asked for, and only where ceiling and cap list them |
| Resolver.TimeoutIsMinimum | internal/authority/resolver.go:115-124 | the granted timeout is the least of the stated three |
| Resolver.CallsDecode | api/v1alpha1/model_calls.go:12-17 | the encoded number decodes to the intended one exactly when that is not zero; without a request the intended one is the least of the default and the stated limits |
| Resolver.NarrowerGrantsNoMore | internal/authority/resolver.go:21-152 | a ceiling that allows no value and no concrete scope more never grants more |
| Resolver.ResolveForIssuance | internal/authority/resolution.go:39-78 | resolves and records the differences of the grant |
| Resolver.ClientAgrees | internal/connectedclient/run.go:979-1040 | the client's own comparison accepts every resolved grant and its differences |
| Resolver.RequestSplits | internal/connectedclient/run.go:1000-1040 | for any grant the client accepts, each requested value is granted or recorded as removed, never both, and nothing else is |
| Issuance.PayloadInjective | internal/authorization/authorization.go:250-254 | length-prefixed payloads of different lists of parts differ |
| Issuance.BuildPayload | internal/issuance/issuance.go:127-135 | the builder's loop writes the length-prefixed payload |
| Issuance.DecisionIDBinds | internal/authorization/authorization.go:236-257 | decisions share an identity only if they say the same about the same context, up to collisions of the digest |
| Issuance.Admit | internal/authorization/authorization.go:122-156 | a valid context with an answer always returns that answer's decision; the admission fails unless the answer is a complete one about exactly this context, and work goes on exactly when that answer allows it |
| Issuance.Issue | internal/issuance/issuance.go:24-118 | issues the fresh Pending snapshot exactly when admission, resolution and request belong together and the snapshot is valid |
| Issuance.ClaimIDBinds | internal/issuance/issuance.go:83-91 | claims share an identity only if issued for the same request, principal, decision and grant, up to collisions of the digest |
| Issuance.ValidCallsDecode | api/v1alpha1/model_calls.go:12-17 | within the bounds policies and templates may state, the recorded number decodes to the intended one and the timeout is positive |
| Issuance.GrantedIsIssued | internal/issuance/issuance.go:24-118 | whatever is admitted and resolved can be issued, validly, and is work that run and client agree on |
| Issuance.Prepare | internal/app/prepare.go:52-102 | a request is prepared exactly when it is admitted and grantable, and then carries exactly the resolved authority; one that a policy denies gets a state without a claim, one that needs approval only its decision |
| Issuance.UnissuedIsValid | internal/app/reference_admission.go:96-116 | a denied request has a valid state exactly when a named policy decided it |
| Intake.Open | internal/console/service.go:334-342 | a new request is registered and its receipt and decision are the first two facts of its view; a known one changes nothing |
| Intake.Submit | internal/console/service.go:318-408 | a denied request is stored with a view the client accepts; one that needs approval without a state, and its view is refused; work that is started has in the journal exactly the stamped facts its run begins with |
| Intake.Launch | internal/console/service.go:359-407 | prepared work is bound and its authority recorded, or stored as failed when its template could not be configured |
| Intake.DecidedViewAccepted | internal/connectedclient/run.go:1077-1080 | whatever outcome is put into the view of a request that was not allowed, the client accepts exactly the one that names its decision and carries no result |
| Intake.UnconfiguredViewAccepted | internal/console/service.go:362-384 | the view of work that could not be configured is accepted exactly when the journal took its outcome |
| Intake.NoStateIsRefused | internal/connectedclient/run.go:281-284 | no view without a state is accepted |
| Intake.DecisionIsAdmissible | internal/facts/journal.go:176-320 | receipt and decision are admissible exactly when the request is registered, a position and identity unused, and the decision complete and the registered principal's |
| Intake.AuthorityIsAdmissible | internal/facts/journal.go:176-320 | the resolved authority is admissible exactly when it is the one the bound claim names |
| MemoryBackend.Runtime.AddClaim | internal/operator/runtime.go:70-93 | accepted exactly when neither path has the claim |
| MemoryBackend.Runtime.Allocate | internal/operator/allocation.go:52-111 | allocates exactly when neither path has the claim and the pool gives a worker no claim had; both indexes stay inverse |
| MemoryBackend.Runtime.AllocationFor | internal/operator/allocation.go:241-250 | finds exactly the allocation whose worker is named |
| MemoryBackend.Runtime.Start | internal/operator/allocation.go:131-150 | starts only a ready allocation that was never started, terminated or released, and touches no other |
| MemoryBackend.Runtime.Terminate | internal/operator/allocation.go:155-180 | terminates once, idempotently, and not after release |
| MemoryBackend.Runtime.Cleanup | internal/operator/allocation.go:185-210 | releases and replaces, terminating first; a failure keeps the termination |
| MemoryBackend.Runtime.ActivateNetwork | internal/operator/network.go:16-37 | activates only a started worker that is neither terminated nor released; an ended context revokes instead |
| MemoryBackend.Runtime.RevokeNetwork | internal/operator/network.go:39-51 | deactivates whatever else fails and answers only for a terminated or released worker |
| MemoryRun.StepKeeps | internal/operator/network.go:16-51 | what every event of a legal run keeps about its allocation |
| MemoryRun.ActiveMeansStarted | internal/operator/network.go:16-51 | at every moment of every run, an active network belongs to a worker that was started, is neither terminated nor released, and was not yet revoked |
| MemoryRun.FinishedIsInactive | internal/app/run_service.go:619-652 | a finished run leaves its worker's network inactive whatever failed |
| MemoryRun.UnblemishedIsReleased | internal/app/run_service.go:619-652 | a run that returned no error leaves its allocation terminated, released, replaced and inactive |
| MemoryRun.AnsweredEvidenceMatches | internal/operator/network.go:53-55 | evidence this backend answers with is always the evidence the run expects |
| MemoryRun.ConfirmedTerminates | internal/operator/allocation.go:155-167 | after a confirmed revocation termination cannot fail |
| Advisor.SingleFlight | internal/accessadvisor/service.go:138-176 | in every interleaving each task is selected at most once, within all three limits, and equal questions that are answered get equal answers |
| Advisor.EqualQuestionWaits | internal/accessadvisor/service.go:141-153 | a caller who asks what was already asked never selects; it waits for that answer and ends refused only by giving up a wait |
| Advisor.RefusalsHaveReasons | internal/accessadvisor/service.go:141-172 | every refused caller was refused because its name belongs to another task, a limit was reached, no identity could be drawn, or it gave up waiting |
| Advisor.AnswersStay | internal/accessadvisor/service.go:254-260 | every step keeps who asked what and that everyone who was answered holds the recorded answer |
| Advisor.OneMoves | internal/accessadvisor/service.go:254-260 | a step moves one caller; entries stay, with their digests and the answers recorded for them |
| Advisor.KeyInjective | internal/accessadvisor/service.go:99-139 | owners and names without the separator never share a key |
| Advisor.Advise | internal/accessadvisor/service.go:183-253 | advice is ready exactly when the choice is in bounds and names an available profile whose request is valid; clarification is asked exactly when a choice in bounds names none or asks something |
| Advisor.AdviceKeepsIntent | api/v1alpha1/access_guide.go:32-78 | ready advice changes only the access of the task and stays within the template's ceiling |
| Advisor.CheckRequired | internal/accessadvisor/service.go:285-301 | the preflight loops decide whether everything requested was granted |
| Advisor.AdviceIsGranted | internal/accessadvisor/service.go:285-301 | ready advice that then resolves without list caps is granted in full |
| SchemaTrie.Config.SetPath | internal/adapterregistry/types.go:234-266 | inserting in place succeeds exactly when no segment is empty and no stored path equals, or is a segment prefix of, the new one or the reverse |
| SchemaTrie.Config.Read | internal/adapterregistry/types.go:234-266 | reading a path gives what was set |
| SchemaTrie.InsertAll | internal/adapterregistry/types.go:234-266 | a list of values can be inserted exactly when its paths are prefix-free |
| SchemaTrie.ValidateSchema | internal/adapterregistry/registry.go:194-232 | accepts exactly the usable, complete, prefix-free schemas, which `SchemaTrie.AcceptedByText` spells out |
| SchemaTrie.AcceptedByText | internal/adapterregistry/registry.go:194-232 | a schema is accepted exactly when it is permitted, every field usable, every required field defaulted, the dots of every path stand between segments, no path is repeated, and none goes on after another and a dot |
| SchemaTrie.DefaultsFromSchema | internal/adapterregistry/lifecycle.go:196-210 | initialises exactly the schemas whose defaults are complete and prefix-free |
| SchemaTrie.AcceptedSchemaInitialises | internal/adapterregistry/lifecycle.go:196-210 | an accepted schema always initialises; every default is read back under its path and nothing else is set |
| SchemaTrie.PermutationStaysFree | internal/adapterregistry/types.go:234-266 | neither success nor content depends on the order of the fields |
| SchemaTrie.JoinSplit | internal/adapterregistry/types.go:235-235 | a dotted path is determined by its segments |
| SchemaTrie.SegmentsHaveNoDot | internal/adapterregistry/types.go:235-235 | no segment of a path holds a dot |
| SchemaTrie.SplitJoin | internal/adapterregistry/types.go:235-235 | dot-free segments are found again in the path they make |
| SchemaTrie.BeginsByText | internal/adapterregistry/types.go:234-266 | the segments of one path begin those of another exactly when the text is the same or goes on after a dot |

## Left out

- Checker.ValidEvidenceView: omits the branches for native HTTPS reports, worker feedback texts, result references, truncation, content references, fixed reason texts of rejected tool requests and trace identities, which only refuse more views.
- Acceptance.FinalAccepted: assumes an evidence sink that takes every write, governed calls made one at a time, and, as the run's own contract gives, a valid final state; the checker's branches named above are not part of it.
- Session.SessionAccepted: calls are made one at a time, and worker feedback and the native HTTPS exchange are not recorded by the modelled work.
- Boundaries.SuccessIsAccepted: the constructed runs take their readings, writes and calls in the service's order, but are legal traces and not executions of `RunContext`, whose answers are arbitrary.
- Intake.Submit: sessions, capacity, the durable lookup of a repeated submission, catalog checks and telemetry; all entries of one submission share one time.
- Recovery.RecoverDurableWork: the wording of recovery's texts is any one-line text; the writer lease and the order of pending records are arbitrary.
- ModelBudget.BudgetIsNeverExceeded: tool calls appear only as other facts of the log.
- Advisor.SingleFlight: expiry of advice and lookup by advice identity.
- The in-memory backend's files, its choice of a pool, and the phases of its legacy path after `AddClaim`; the pools behind it may answer anything.
- Locks, goroutines and timers: the run lock and the budget lock are steps of the interleaved models; ending the work and closing channels are events.
- Identifier sources, encodings and digests, which are arbitrary functions; request and template decoding; policy evaluation, whose answer is arbitrary.
- Lengths are counted in characters where the source counts bytes.
- Facts recovery commits while its writer lease has been lost to another writer.
