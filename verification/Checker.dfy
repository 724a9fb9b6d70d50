/** The client's evidence checker: one pass over the facts of a view that keeps a cursor, followed by
    checks on the final cursor. The pass is given twice, as the fold `Fold` over the facts and as the
    loop `ValidEvidenceView`; the loop is proved to decide exactly what the fold says. */
module Checker {
  import opened Evidence
  import opened ClientAuthority

  /** What the checker compares every fact with. */
  datatype Subject = Subject(ref: string, request: Request, state: State, outcome: Option<Outcome>, recovery: Option<RecoveryNote>)

  datatype Log = Log(ids: set<string>, lastSequence: nat, received: nat, resolutions: nat, authorityResolved: nat,
                     outcomeSeen: bool, outcomes: nat, outcomeCode: Code)
  datatype Life = Life(pending: bool, bound: bool, ready: bool, running: bool, terminal: bool, terminalOp: Op,
                       terminated: bool, cleaned: bool, events: seq<Op>)
  datatype Net = Net(activationPending: bool, activationRecorded: bool, active: bool,
                     releaseStarted: bool, releasePending: bool, released: bool)
  datatype Invocation = Invocation(operation: Op, target: string, providerTarget: string, status: Status, stage: nat)
  datatype Calls = Calls(stages: map<string, Invocation>, lastModel: string, budget: nat, budgetIDs: set<string>, actions: map<string, Fact>)
  datatype Cursor = Cursor(log: Log, life: Life, net: Net, calls: Calls)

  const START := Cursor(Log({}, 0, 0, 0, 0, false, 0, NoCode),
                        Life(false, false, false, false, false, NoOp, false, false, []),
                        Net(false, false, false, false, false, false),
                        Calls(map[], "", 0, {}, map[]))

  // ---------------------------------------------------------------- classes of operations

  predicate RuntimeTerminal(op: Op) {
    op.AllocationFailed? || op.StartFailed? || op.Succeeded? || op.Failed? || op.Expired? || op.Cancelled? || op.NetworkActivationFailed?
  }

  predicate NetworkRevocation(op: Op) { op.NetworkRevocationAttempt? || op.NetworkRevoked? || op.NetworkRevocationFailed? }

  predicate NetworkOp(op: Op) {
    op.NetworkActivationAttempt? || op.NetworkActive? || op.NetworkActivationFailed? || NetworkRevocation(op)
  }

  predicate Termination(op: Op) { op.TerminateSucceeded? || op.TerminateFailed? }

  predicate CleanupOp(op: Op) { op.CleanupSucceeded? || op.CleanupFailed? }

  predicate Teardown(op: Op) { Termination(op) || CleanupOp(op) || NetworkRevocation(op) }

  predicate ProvesAllocation(f: Fact) {
    f.kind.Runtime? && (f.operation.Bound? || f.operation.BackendReady? || f.operation.Running? || f.operation.StartFailed? ||
                        f.operation.Succeeded? || Termination(f.operation) || CleanupOp(f.operation) || NetworkOp(f.operation))
  }

  predicate ValidRunOutcomeOperation(op: Op, phase: Phase) {
    match phase
    case Succeeded => op.Succeeded?
    case Failed => op.Failed? || op.Cancelled?
    case Expired => op.Expired?
    case _ => false
  }

  predicate ValidRuntimeOperation(op: Op, phase: Phase, identity: bool, life: Life) {
    match op
    case AllocationFailed => phase.Failed? && !identity && life.pending && !life.bound && !life.ready && !life.running
    case StartFailed => phase.Failed? && identity && life.bound && life.ready && !life.running
    case NetworkActivationFailed => phase.Failed? && identity && life.bound && life.ready && life.running
    case Succeeded => phase.Succeeded? && identity && life.running
    case Failed => phase.Failed? && identity && life.bound
    case Expired => phase.Expired? && ((identity && life.bound) || (!identity && life.pending))
    case Cancelled => phase.Failed? && ((identity && life.bound) || (!identity && life.pending))
    case _ => op.Pending? || op.Bound? || op.BackendReady? || op.Running? || Termination(op) || CleanupOp(op) || NetworkOp(op)
  }

  // ---------------------------------------------------------------- one fact: order and attribution

  predicate OwnClaim(s: Subject, f: Fact) { s.state.claim.Some? && f.claimID == s.state.claim.value.id }

  predicate Admission(kind: Kind) { kind.RequestReceived? || kind.RequestResolution? }

  predicate EnvelopeOk(s: Subject, log: Log, f: Fact) {
    !log.outcomeSeen &&
    (log.received == 0 ==> f.kind.RequestReceived?) &&
    (f.kind.RequestResolution? ==> log.received == 1) &&
    (!Admission(f.kind) ==> log.resolutions == 1) &&
    f.id != "" && f.sequence > log.lastSequence && f.timestamp != 0 && !f.kind.NoKind? && f.requestRef == s.ref &&
    !f.kind.OtherKind? && f.id !in log.ids
  }

  predicate AttributionOk(s: Subject, f: Fact) {
    (f.claimID != "" || !Admission(f.kind) || f.invocationID != "" ==> OwnClaim(s, f)) &&
    (s.state.claim.Some? && s.state.claim.value.identity.None? ==>
       f.identity.None? && !f.kind.WorkerActivity? && f.invocationID == "" && !ProvesAllocation(f))
  }

  predicate RunOutcomeOk(s: Subject, f: Fact) {
    OwnClaim(s, f) && ValidRunOutcomeOperation(f.operation, s.state.claim.value.phase) &&
    (s.outcome.Some? && s.state.decision.result.Allow? ==> f.operation == s.outcome.value.status && f.reason == s.outcome.value.failure)
  }

  predicate ReceivedOk(f: Fact) {
    f.claimID == "" && f.invocationID == "" && f.decision.None? && f.result.NoResult? && f.policyRef.None? && f.authority.None? &&
    f.changes == [] && f.identity.None? && f.operation.NoOp? && f.target == "" && f.status.NoStatus?
  }

  predicate ResolutionOk(s: Subject, f: Fact) {
    f.decision.Some? && f.result == s.state.decision.result && f.policyRef == Some(s.state.policyRef) &&
    f.claimID == "" && f.invocationID == "" && f.authority.None? && f.identity.None? && f.changes == [] &&
    f.operation.NoOp? && f.target == "" && f.status.NoStatus?
  }

  predicate AuthorityOk(s: Subject, log: Log, f: Fact) {
    s.state.authority.Some? && f.authority == s.state.authority && f.policyRef == Some(s.state.policyRef) &&
    ValidAuthorityChanges(s.request, s.state.authority.value, f.changes) &&
    f.identity.None? && f.invocationID == "" && f.status.NoStatus? && f.operation.NoOp? && f.target == "" &&
    f.decision.None? && f.result.NoResult? && log.authorityResolved == 0
  }

  predicate LogOk(s: Subject, log: Log, f: Fact) {
    EnvelopeOk(s, log, f) && AttributionOk(s, f) &&
    (f.kind.RunOutcome? ==> RunOutcomeOk(s, f)) &&
    (f.kind.RequestReceived? ==> ReceivedOk(f)) &&
    (f.kind.RequestResolution? ==> ResolutionOk(s, f)) &&
    (f.kind.AuthorityResolved? ==> AuthorityOk(s, log, f)) &&
    (f.kind.Runtime? || f.kind.WorkerActivity? || f.invocationID != "" ==> log.authorityResolved == 1)
  }

  function NextLog(s: Subject, log: Log, f: Fact): Log {
    Log(log.ids + {f.id}, f.sequence,
        log.received + (if f.kind.RequestReceived? then 1 else 0),
        log.resolutions + (if f.kind.RequestResolution? then 1 else 0),
        log.authorityResolved + (if f.kind.AuthorityResolved? then 1 else 0),
        log.outcomeSeen || f.kind.RunOutcome?,
        log.outcomes + (if f.kind.RunOutcome? && s.outcome.Some? && s.state.decision.result.Allow? then 1 else 0),
        if f.kind.RunOutcome? then f.code else log.outcomeCode)
  }

  // ---------------------------------------------------------------- one fact: lifecycle

  predicate RequiresNetwork(s: Subject) { s.state.authority.Some? && s.state.authority.value.network != [] }

  predicate ValidNetworkFact(s: Subject, f: Fact) {
    s.state.claim.Some? && f.identity.Some? && f.identity == s.state.claim.value.identity &&
    f.policyRef == Some(s.state.policyRef) && f.target == "work-network" &&
    (f.code == RuntimeCode(f.operation) || (NetworkRevocation(f.operation) && f.code == RecoveryCode(f.operation))) &&
    PlainReason(f.reason) &&
    f.invocationID == "" && f.decision.None? && f.result.NoResult? && f.authority.None? && f.changes == [] && f.status.NoStatus?
  }

  predicate NetworkOk(s: Subject, life: Life, net: Net, f: Fact) {
    var recovering := NetworkRevocation(f.operation) && f.code == RecoveryCode(f.operation);
    life.bound && (life.terminated || life.cleaned ==> recovering) && ValidNetworkFact(s, f) &&
    match f.operation
    case NetworkActivationAttempt => life.running && !net.activationRecorded && !net.releaseStarted
    case NetworkActive => net.activationPending && !net.releaseStarted
    case NetworkActivationFailed => net.activationPending && !net.releaseStarted
    case NetworkRevocationAttempt => net.releasePending || net.released ==> f.code == RecoveryCode(NetworkRevocationAttempt)
    case _ => net.releasePending
  }

  predicate RuntimeOk(s: Subject, life: Life, net: Net, f: Fact) {
    s.state.claim.Some? &&
    var op, claim := f.operation, s.state.claim.value;
    (op.Succeeded? && RequiresNetwork(s) ==> net.active) &&
    ValidRuntimeOperation(op, claim.phase, claim.identity.Some?, life) &&
    (life.terminal ==> Teardown(op)) &&
    (Teardown(op) && !life.terminal ==> NetworkRevocation(op)) &&
    (NetworkOp(op) ==> NetworkOk(s, life, net, f)) &&
    (op.Pending? ==> !life.pending && !life.bound && !life.ready && !life.running) &&
    (op.Bound? ==> !life.bound && !life.ready && !life.running && f.identity.Some?) &&
    (op.BackendReady? ==> life.bound && !life.ready && !life.running) &&
    (op.Running? ==> !life.running && life.bound && life.ready) &&
    (Termination(op) ==> !life.terminated && !life.cleaned) &&
    (CleanupOp(op) ==> life.terminated && !life.cleaned)
  }

  function NextLife(s: Subject, life: Life, f: Fact): Life {
    if !f.kind.Runtime? then life else
    var op := f.operation;
    Life(life.pending || op.Pending?,
         life.bound || (op.Bound? && f.identity.Some? && s.state.claim.Some? && f.identity == s.state.claim.value.identity),
         life.ready || op.BackendReady?,
         life.running || op.Running?,
         life.terminal || RuntimeTerminal(op),
         if RuntimeTerminal(op) then op else life.terminalOp,
         life.terminated || Termination(op),
         life.cleaned || CleanupOp(op),
         if op.Pending? then life.events else life.events + [op])
  }

  function NextNet(net: Net, f: Fact): Net {
    if !f.kind.Runtime? then net else
    match f.operation
    case NetworkActivationAttempt => net.(activationRecorded := true, activationPending := true)
    case NetworkActive => net.(activationPending := false, active := true)
    case NetworkActivationFailed => net.(activationPending := false, active := false)
    case NetworkRevocationAttempt => net.(releaseStarted := true, releasePending := true)
    case NetworkRevoked => net.(releasePending := false, released := true)
    case NetworkRevocationFailed => net.(releasePending := false, released := false)
    case _ => net
  }

  predicate WorkFact(f: Fact) { f.kind.WorkerActivity? || f.invocationID != "" }

  /** `life` and `net` are the lifecycle after this fact. */
  predicate WorkGateOk(s: Subject, life: Life, net: Net, f: Fact) {
    (RequiresNetwork(s) ==> net.active) &&
    life.running &&
    (life.terminal ==> f.kind.ProviderOutcome? && f.status.Cancelled? && (life.terminalOp.Cancelled? || life.terminalOp.Expired?)) &&
    (net.releaseStarted ==> f.kind.ProviderOutcome?) &&
    (net.activationRecorded && !net.active ==> net.releaseStarted)
  }

  // ---------------------------------------------------------------- one fact: governed calls

  predicate ActionOk(calls: Calls, f: Fact) {
    0 <= f.turn <= 1000 &&
    (f.actionRef != "" ==>
       f.kind.ToolDecision? && f.actionRef in calls.actions &&
       var a := calls.actions[f.actionRef];
       a.claimID == f.claimID && a.turn == f.turn && a.actionKind.ToolAction? && a.actionTool == f.target) &&
    (DeclaresAction(f) ==>
       f.kind.WorkerActivity? && f.operation.ActionValidated? && f.turn >= 1 &&
       (f.actionKind.ToolAction? || f.actionKind.FinishAction? || f.actionKind.NativeAction?) &&
       |f.actionTool| <= 128 && |f.actionResource| <= 256 &&
       (if f.actionKind.ToolAction? then f.actionTool != "" && f.actionResource != "" else f.actionTool == "" && f.actionResource == ""))
  }

  /** Calls are counted for this work: its authority or its request names a limit, or a call was already counted. */
  predicate BudgetRequired(s: Subject, calls: Calls) {
    calls.budget > 0 || (s.state.authority.Some? && s.state.authority.value.runtime.maxModelCalls > 0) || s.request.runtime.maxModelCalls.Some?
  }

  predicate ReservationOk(s: Subject, calls: Calls, f: Fact) {
    f.operation.ModelInvoke? && f.invocationID != "" && f.callCount == calls.budget + 1 && f.invocationID !in calls.budgetIDs &&
    s.state.authority.Some? && f.callLimit == ModelCallLimit(s.state.authority.value.runtime.maxModelCalls) &&
    f.callCount <= f.callLimit && f.code.ModelCallReserved?
  }

  predicate ModelDecisionOk(s: Subject, calls: Calls, f: Fact) {
    (f.result.Allow? ==>
       (BudgetRequired(s, calls) ==> f.invocationID in calls.budgetIDs) &&
       s.state.authority.Some? && f.target != "" && f.target == s.state.authority.value.model) &&
    (f.code.ModelCallLimitReached? ==>
       f.result.Deny? && s.state.authority.Some? && calls.budget == ModelCallLimit(s.state.authority.value.runtime.maxModelCalls))
  }

  predicate DecisionOk(s: Subject, calls: Calls, f: Fact) {
    f.invocationID != "" && f.operation == (if f.kind.ToolDecision? then ToolInvoke else ModelInvoke) && ValidResult(f.result) &&
    f.policyRef == Some(s.state.policyRef) && f.invocationID !in calls.stages
  }

  predicate WorkerOk(calls: Calls, f: Fact) {
    match f.operation
    case ActionValidated =>
      f.invocationID in calls.stages &&
      var p := calls.stages[f.invocationID];
      f.invocationID != "" && p.operation.ModelInvoke? && p.stage == 3 && p.status.Succeeded?
    case ToolRequestRejected =>
      f.invocationID == "" && f.target == "tool.invoke" && f.code.ToolArgumentsRejected? && f.decision.None? && f.result.NoResult? &&
      f.authority.None? && f.changes == [] && f.status.NoStatus? && f.policyRef.None? && f.identity.None?
    case _ =>
      f.invocationID == "" &&
      (f.operation.TurnStarted? || f.operation.ActionReceived? || f.operation.ObservationReceived? || f.operation.FinalAnswer? ||
       f.operation.AgentFeedback? || f.operation.NativeAttempt? || f.operation.NativeObservation?)
  }

  predicate ProviderOk(calls: Calls, f: Fact) {
    f.invocationID != "" && f.invocationID in calls.stages &&
    var p := calls.stages[f.invocationID];
    f.operation == p.operation && (p.operation.ModelInvoke? ==> f.target == p.target) &&
    (if f.kind.ProviderAttempt? then p.stage == 1 && f.status.Attempted? && f.target != ""
     else p.stage == 2 && f.target == p.providerTarget && (f.status.Succeeded? || f.status.Failed? || f.status.Cancelled?))
  }

  predicate CallsOk(s: Subject, calls: Calls, f: Fact) {
    ActionOk(calls, f) &&
    (!f.kind.ModelBudgetReservation? ==> f.callCount == 0 && f.callLimit == 0) &&
    (f.kind.ToolDecision? && f.result.Allow? ==> s.state.authority.Some? && f.target in s.state.authority.value.tools) &&
    (f.kind.ModelDecision? ==> ModelDecisionOk(s, calls, f)) &&
    (f.kind.ModelBudgetReservation? ==> ReservationOk(s, calls, f)) &&
    (f.kind.WorkerActivity? ==> WorkerOk(calls, f)) &&
    (f.kind.ModelDecision? || f.kind.ToolDecision? ==> DecisionOk(s, calls, f)) &&
    (f.kind.ProviderAttempt? || f.kind.ProviderOutcome? ==> ProviderOk(calls, f))
  }

  function NextStages(stages: map<string, Invocation>, f: Fact): map<string, Invocation> {
    match f.kind
    case ModelDecision => stages[f.invocationID := Invocation(ModelInvoke, f.target, "", NoStatus, if f.result.Allow? then 1 else 0)]
    case ToolDecision => stages[f.invocationID := Invocation(ToolInvoke, f.target, "", NoStatus, if f.result.Allow? then 1 else 0)]
    case WorkerActivity =>
      if f.invocationID in stages && f.invocationID != "" then stages[f.invocationID := stages[f.invocationID].(stage := 4)] else stages
    case ProviderAttempt =>
      if f.invocationID in stages then stages[f.invocationID := stages[f.invocationID].(providerTarget := f.target, stage := 2)] else stages
    case ProviderOutcome =>
      if f.invocationID in stages then stages[f.invocationID := stages[f.invocationID].(status := f.status, stage := 3)] else stages
    case _ => stages
  }

  function NextCalls(calls: Calls, f: Fact): Calls {
    Calls(NextStages(calls.stages, f),
          if f.kind.ProviderOutcome? && f.operation.ModelInvoke? && f.status.Succeeded? then f.invocationID else calls.lastModel,
          if f.kind.ModelBudgetReservation? then calls.budget + 1 else calls.budget,
          if f.kind.ModelBudgetReservation? then calls.budgetIDs + {f.invocationID} else calls.budgetIDs,
          if DeclaresAction(f) then calls.actions[f.id := f] else calls.actions)
  }

  // ---------------------------------------------------------------- one fact: attached values

  predicate AttachedDecisionOk(s: Subject, f: Fact) {
    f.decision.Some? ==>
      var d := f.decision.value;
      d.id != "" && d.principalRef != "" && !d.action.NoActionName? && ValidResult(d.result) && d.policyRef.id != "" && d.policyRef.version != "" &&
      d == s.state.decision && (!f.result.NoResult? ==> f.result == d.result) && (f.policyRef.Some? ==> f.policyRef.value == d.policyRef)
  }

  predicate AttachedAuthorityOk(s: Subject, f: Fact) {
    f.authority.Some? ==>
      var a := f.authority.value;
      a.id != "" && a.runtime.profileRef != "" && a.runtime.timeout > 0 &&
      s.state.claim.Some? && s.state.authority.Some? && f.claimID == s.state.claim.value.id &&
      a.id == s.state.claim.value.authorityRef && a == s.state.authority.value
  }

  predicate AttachedOk(s: Subject, f: Fact) {
    AttachedDecisionOk(s, f) && AttachedAuthorityOk(s, f) &&
    (!f.result.NoResult? ==> ValidResult(f.result)) &&
    (f.policyRef.Some? ==> f.policyRef.value.id != "" && f.policyRef.value.version != "" && f.policyRef.value == s.state.policyRef) &&
    (f.identity.Some? ==> f.identity.value.backend != "" && f.identity.value.worker != "" &&
                          s.state.claim.Some? && s.state.claim.value.identity == f.identity)
  }

  // ---------------------------------------------------------------- the pass

  predicate StepOk(s: Subject, c: Cursor, f: Fact) {
    LogOk(s, c.log, f) &&
    (f.kind.Runtime? ==> RuntimeOk(s, c.life, c.net, f)) &&
    (WorkFact(f) ==> WorkGateOk(s, NextLife(s, c.life, f), NextNet(c.net, f), f)) &&
    CallsOk(s, c.calls, f) &&
    AttachedOk(s, f)
  }

  function Next(s: Subject, c: Cursor, f: Fact): Cursor {
    Cursor(NextLog(s, c.log, f), NextLife(s, c.life, f), NextNet(c.net, f), NextCalls(c.calls, f))
  }

  /** The cursor after `facts`, or nothing when some fact is refused. */
  function Fold(s: Subject, facts: seq<Fact>): Option<Cursor> {
    if facts == [] then Some(START) else
    var before := Fold(s, facts[..|facts| - 1]);
    var f := facts[|facts| - 1];
    if before.Some? && StepOk(s, before.value, f) then Some(Next(s, before.value, f)) else None
  }

  // ---------------------------------------------------------------- around the pass

  predicate ValidPreamble(v: View, ref: string) {
    (v.recovery.Some? ==> v.recovery.value.serviceRestarted && !v.recovery.value.cleanup.OtherCleanup? && v.outcome.None?) &&
    v.version == VERSION && v.requestRef == ref && v.request.Some? && v.state.Some? &&
    v.request.value.name == ref && ValidClaimRequest(v.request.value) &&
    ValidSubject(SubjectOf(v))
  }

  function SubjectOf(v: View): Subject
    requires v.request.Some? && v.state.Some?
  {
    Subject(v.requestRef, v.request.value, v.state.value, v.outcome, v.recovery)
  }

  predicate AllocatedPhase(phase: Phase) { phase.Bound? || phase.Running? || phase.Succeeded? }

  predicate ValidSubject(s: Subject) {
    s.state.requestRef == s.ref && ValidIssuedState(s.state) &&
    !Blank(s.state.principal.team) && !Blank(s.state.principal.context) &&
    (s.state.claim.Some? && AllocatedPhase(s.state.claim.value.phase) ==> s.state.claim.value.identity.Some?) &&
    s.state.action == Action(ClaimCreate, s.request.projectRef, s.request.templateRef) &&
    (s.state.authority.Some? ==> AuthorityWithinRequest(s.state.authority.value, s.request))
  }

  /** The stage of one model invocation, or nothing when its facts are out of order. */
  function ModelCallStage(facts: seq<Fact>, invocation: string, profile: string): Option<nat> {
    if facts == [] then Some(0) else
    var before := ModelCallStage(facts[..|facts| - 1], invocation, profile);
    var f := facts[|facts| - 1];
    if before.None? || f.invocationID != invocation || !f.operation.ModelInvoke? then before else
    match f.kind
    case ModelDecision => if before.value != 0 || !f.result.Allow? || f.target != profile then None else Some(1)
    case ProviderAttempt => if before.value != 1 || f.target != profile || !f.status.Attempted? then None else Some(2)
    case ProviderOutcome => if before.value != 2 || !f.status.Succeeded? || f.target != profile then None else Some(3)
    case _ => before
  }

  predicate SuccessfulModelInvocation(facts: seq<Fact>, invocation: string, profile: string) {
    profile != "" && ModelCallStage(facts, invocation, profile) == Some(3)
  }

  predicate ValidOutcomeState(status: Op, st: State) {
    if !st.decision.result.Allow? then
      st.claim.None? && ((st.decision.result.Deny? && status.Denied?) || (st.decision.result.ApprovalRequired? && status.NeedsApproval?))
    else
      st.claim.Some? &&
      match st.claim.value.phase
      case Succeeded => status.Succeeded?
      case Failed => status.Failed? || status.Cancelled?
      case Expired => status.Expired?
      case _ => false
  }

  predicate OpenCall(calls: Calls, id: string)
    requires id in calls.stages
  {
    calls.stages[id].stage == 1 || calls.stages[id].stage == 2
  }

  predicate OutcomeReleaseOk(s: Subject, o: Outcome, c: Cursor) {
    (RequiresNetwork(s) && s.state.claim.Some? && s.state.claim.value.identity.Some? ==> c.net.releaseStarted) &&
    !c.net.releasePending && (c.net.activationRecorded ==> c.net.releaseStarted) &&
    (o.status.Succeeded? && c.net.activationRecorded ==> c.net.active)
  }

  predicate OutcomeLifeOk(s: Subject, o: Outcome, c: Cursor) {
    (s.state.claim.Some? && s.state.claim.value.identity.Some? ==> c.life.bound && c.life.terminal && c.life.terminated && c.life.cleaned) &&
    (s.state.decision.result.Allow? && s.state.claim.Some? && s.state.claim.value.identity.None? && !c.life.terminal ==>
       c.log.outcomeCode.TemplateConfigurationFailed?) &&
    (s.state.decision.result.Allow? ==> c.log.outcomes == 1) &&
    (o.status.Succeeded? ==> c.log.authorityResolved == 1 && c.life.running && c.life.terminal && c.life.terminalOp.Succeeded?)
  }

  predicate OutcomeCallsOk(o: Outcome, c: Cursor) {
    forall id | id in c.calls.stages :: OpenCall(c.calls, id) ==>
      c.log.outcomeCode.RecoveredInterruption? && (o.status.Failed? || o.status.Expired? || o.status.Cancelled?)
  }

  predicate OutcomeModelOk(s: Subject, o: Outcome, facts: seq<Fact>, c: Cursor) {
    o.model.Some? ==>
      var m := o.model.value;
      m.invocationID != "" && m.model != "" && m.inputTokens >= 0 && m.outputTokens >= 0 &&
      s.state.authority.Some? && o.status.Succeeded? &&
      SuccessfulModelInvocation(facts, m.invocationID, s.state.authority.value.model) && m.invocationID == c.calls.lastModel
  }

  predicate LimitDenied(facts: seq<Fact>) {
    exists i | 0 <= i < |facts| :: facts[i].kind.ModelDecision? && facts[i].result.Deny? && facts[i].code.ModelCallLimitReached?
  }

  predicate Answered(facts: seq<Fact>) { exists i | 0 <= i < |facts| :: facts[i].operation.FinalAnswer? }

  predicate OutcomeCompletionOk(s: Subject, o: Outcome, facts: seq<Fact>, c: Cursor) {
    o.completion.Some? && !o.completion.value.AgentReport? ==>
      o.completion.value.PlatformLimit? && c.calls.budget != 0 && s.state.authority.Some? &&
      c.calls.budget == ModelCallLimit(s.state.authority.value.runtime.maxModelCalls) && LimitDenied(facts) && !Answered(facts)
  }

  predicate OutcomeTextOk(s: Subject, o: Outcome) {
    (!o.status.Succeeded? ==> o.text == "") &&
    (s.state.decision.result.Allow? && !o.status.Succeeded? ==> !Blank(o.failure) && |o.failure| <= 4096)
  }

  predicate OutcomeOk(s: Subject, o: Outcome, facts: seq<Fact>, c: Cursor) {
    OutcomeCompletionOk(s, o, facts, c) && OutcomeReleaseOk(s, o, c) && ValidOutcomeState(o.status, s.state) &&
    OutcomeLifeOk(s, o, c) && OutcomeCallsOk(o, c) && OutcomeModelOk(s, o, facts, c) && OutcomeTextOk(s, o)
  }

  /** A crash right after admission may leave an admitted claim without its resolved authority. */
  predicate EarlyInterruption(s: Subject, c: Cursor) {
    s.recovery.Some? && c.log.authorityResolved == 0 && s.state.claim.Some? && s.state.claim.value.phase.Pending? &&
    s.state.claim.value.identity.None? && c.life.events == [] && c.calls.stages == map[]
  }

  predicate FinalOk(s: Subject, facts: seq<Fact>, c: Cursor) {
    c.log.received == 1 && c.log.resolutions == 1 &&
    c.life.events == s.state.evidence.events &&
    (s.state.decision.result.Allow? && s.state.authority.Some? && c.log.authorityResolved != 1 ==>
       c.log.outcomeCode.TemplateConfigurationFailed? || EarlyInterruption(s, c)) &&
    (s.outcome.Some? ==> OutcomeOk(s, s.outcome.value, facts, c))
  }

  predicate AcceptsFacts(s: Subject, facts: seq<Fact>) {
    Fold(s, facts).Some? && FinalOk(s, facts, Fold(s, facts).value)
  }

  /** The views the client accepts for the reference `ref`. */
  predicate Accepts(v: View, ref: string) {
    ValidPreamble(v, ref) && AcceptsFacts(SubjectOf(v), v.facts)
  }

  // ---------------------------------------------------------------- the pass as a loop

  /** A refused fact refuses every longer fact list. */
  lemma {:induction false} FoldRefused(s: Subject, facts: seq<Fact>, n: nat)
    requires n <= |facts| && Fold(s, facts[..n]).None?
    ensures Fold(s, facts).None?
    decreases |facts| - n
  {
    if n == |facts| {
      assert facts[..n] == facts;
    } else {
      assert facts[..n + 1][..n] == facts[..n];
      FoldRefused(s, facts, n + 1);
    }
  }

  method SameEvents(recorded: seq<Op>, replayed: seq<Op>) returns (same: bool)
    ensures same <==> recorded == replayed
  {
    if |recorded| != |replayed| { return false; }
    for i := 0 to |recorded|
      invariant recorded[..i] == replayed[..i]
    {
      if recorded[i] != replayed[i] { return false; }
    }
    same := true;
  }

  /** The lifecycle flags touched by one runtime fact that was not refused. */
  method ReplayLife(s: Subject, before: Life, fact: Fact) returns (life: Life)
    requires fact.kind.Runtime?
    ensures life == NextLife(s, before, fact)
  {
    var op := fact.operation;
    life := before.(events := if op.Pending? then before.events else before.events + [op]);
    if op.Bound? && fact.identity.Some? && s.state.claim.Some? && fact.identity == s.state.claim.value.identity { life := life.(bound := true); }
    match op {
      case Pending => life := life.(pending := true);
      case BackendReady => life := life.(ready := true);
      case Running => life := life.(running := true);
      case TerminateSucceeded => life := life.(terminated := true);
      case TerminateFailed => life := life.(terminated := true);
      case CleanupSucceeded => life := life.(cleaned := true);
      case CleanupFailed => life := life.(cleaned := true);
      case _ => if RuntimeTerminal(op) { life := life.(terminal := true, terminalOp := op); }
    }
  }

  /** The network flags touched by one runtime fact that was not refused. */
  method ReplayNet(before: Net, fact: Fact) returns (net: Net)
    requires fact.kind.Runtime?
    ensures net == NextNet(before, fact)
  {
    net := before;
    match fact.operation {
      case NetworkActivationAttempt => net := net.(activationRecorded := true, activationPending := true);
      case NetworkActive => net := net.(activationPending := false, active := true);
      case NetworkActivationFailed => net := net.(activationPending := false, active := false);
      case NetworkRevocationAttempt => net := net.(releaseStarted := true, releasePending := true);
      case NetworkRevoked => net := net.(releasePending := false, released := true);
      case NetworkRevocationFailed => net := net.(releasePending := false, released := false);
      case _ =>
    }
  }

  lemma FoldStep(s: Subject, facts: seq<Fact>, i: nat)
    requires i < |facts|
    ensures Fold(s, facts[..i + 1]) ==
            if Fold(s, facts[..i]).Some? && StepOk(s, Fold(s, facts[..i]).value, facts[i])
            then Some(Next(s, Fold(s, facts[..i]).value, facts[i])) else None
  {
    assert facts[..i + 1][..i] == facts[..i];
  }

  /** The checker itself: one pass that stops at the first fact it refuses. */
  method ValidEvidenceView(view: View, ref: string) returns (ok: bool)
    ensures ok <==> Accepts(view, ref)
  {
    if !ValidPreamble(view, ref) { return false; }
    var s := SubjectOf(view);
    var log, life, net, calls := START.log, START.life, START.net, START.calls;
    for i := 0 to |view.facts|
      invariant Fold(s, view.facts[..i]) == Some(Cursor(log, life, net, calls))
    {
      var fact := view.facts[i];
      ghost var c := Cursor(log, life, net, calls);
      FoldStep(s, view.facts, i);
      if !StepOk(s, c, fact) { FoldRefused(s, view.facts, i + 1); }
      if !LogOk(s, log, fact) { return false; }
      log := NextLog(s, log, fact);
      if fact.kind.Runtime? {
        if !RuntimeOk(s, life, net, fact) { return false; }
        life := ReplayLife(s, life, fact);
        net := ReplayNet(net, fact);
      }
      if WorkFact(fact) && !WorkGateOk(s, life, net, fact) { return false; }
      if !CallsOk(s, calls, fact) || !AttachedOk(s, fact) { return false; }
      calls := NextCalls(calls, fact);
    }
    assert view.facts[..|view.facts|] == view.facts;
    var same := SameEvents(s.state.evidence.events, life.events);
    if !same { return false; }
    ok := FinalOk(s, view.facts, Cursor(log, life, net, calls));
  }
}
