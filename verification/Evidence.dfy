/** The data every other module talks about: requests, issued state, journal facts and evidence views.

    Enumerated strings of the system (fact kinds, operations, reason codes, provider statuses) are
    datatypes whose last constructor stands for every other string; the constructor `No...` stands for
    the empty string. Go pointers that may be nil are `Option`s. */
module Evidence {

  datatype Option<+T> = None | Some(value: T)

  // ---------------------------------------------------------------- text

  /** The characters that trimming removes. */
  predicate IsSpace(c: char) {
    '\t' <= c <= '\r' || c == ' ' || c == '\U{85}' || c == '\U{A0}' || c == '\U{1680}' || '\U{2000}' <= c <= '\U{200A}'
    || c == '\U{2028}' || c == '\U{2029}' || c == '\U{202F}' || c == '\U{205F}' || c == '\U{3000}'
  }

  predicate IsControl(c: char) { c < ' ' || '\U{7F}' <= c <= '\U{9F}' }

  /** Nothing is left of `s` after trimming. */
  predicate Blank(s: string) { forall i | 0 <= i < |s| :: IsSpace(s[i]) }

  /** One bounded line of displayable text. */
  predicate PlainReason(s: string) {
    !Blank(s) && |s| <= 4096 && forall i | 0 <= i < |s| :: !IsControl(s[i])
  }

  // ---------------------------------------------------------------- enumerations

  datatype Phase = Pending | Bound | Running | Succeeded | Failed | Expired | UnknownPhase(name: string)

  /** Operations of facts, kinds of runtime events, and statuses of outcomes. */
  datatype Op =
    | NoOp
    | Pending | Bound | BackendReady | Running
    | Succeeded | Failed | Expired | Cancelled | AllocationFailed | StartFailed
    | TerminateSucceeded | TerminateFailed | CleanupSucceeded | CleanupFailed
    | NetworkActivationAttempt | NetworkActive | NetworkActivationFailed
    | NetworkRevocationAttempt | NetworkRevoked | NetworkRevocationFailed
    | ModelInvoke | ToolInvoke
    | TurnStarted | ActionReceived | ObservationReceived | FinalAnswer | ActionValidated | ToolRequestRejected
    | AgentFeedback | NativeAttempt | NativeObservation
    | Denied | NeedsApproval
    | OtherOp(name: string)

  datatype Kind =
    | NoKind
    | RequestReceived | RequestResolution | AuthorityResolved | Runtime | WorkerActivity
    | ModelBudgetReservation | ModelDecision | ToolDecision | ProviderAttempt | ProviderOutcome | RunOutcome
    | OtherKind(name: string)

  datatype Result = NoResult | Allow | Deny | ApprovalRequired | OtherResult(name: string)

  datatype Code =
    | NoCode
    | RuntimeCode(op: Op)      // "runtime-" followed by the operation
    | RecoveryCode(op: Op)     // "recovery-" followed by the operation
    | TemplateConfigurationFailed | RecoveredInterruption
    | ModelCallReserved | ModelCallLimitReached | ToolArgumentsRejected
    | AgentAction(name: string) // "agent-action-" followed by the name
    | OtherCode(name: string)

  datatype Status = NoStatus | Attempted | Succeeded | Failed | Cancelled | OtherStatus(name: string)

  datatype ActionKind = NoAction | ToolAction | FinishAction | NativeAction | OtherAction(name: string)

  datatype ActionName = NoActionName | ClaimCreate | OtherActionName(name: string)

  // ---------------------------------------------------------------- issued state

  datatype Policy = Policy(id: string, version: string)
  datatype Principal = Principal(subject: string, team: string, context: string)
  datatype Action = Action(name: ActionName, project: string, templateRef: string)
  datatype Decision = Decision(id: string, principalRef: string, action: ActionName, result: Result, policyRef: Policy, reason: string)
  datatype Grant = Grant(profileRef: string, timeout: int, maxModelCalls: int)
  datatype Authority = Authority(id: string, tools: seq<string>, resources: seq<string>, model: string,
                                 memory: seq<string>, network: seq<string>, runtime: Grant)
  datatype Identity = Identity(backend: string, worker: string, allocation: string)
  datatype Claim = Claim(id: string, requestRef: string, templateRef: string, authorityRef: string, phase: Phase, identity: Option<Identity>)
  datatype Trail = Trail(requestRef: string, claimID: string, decisionIDs: seq<string>, events: seq<Op>)
  datatype State = State(requestRef: string, principal: Principal, action: Action, policyRef: Policy,
                         authority: Option<Authority>, claim: Option<Claim>, decision: Decision, evidence: Trail)

  const PUBLIC_WEB := "public-web"

  predicate ValidNetworkProfiles(profiles: seq<string>) {
    (forall i | 0 <= i < |profiles| :: profiles[i] == PUBLIC_WEB) && |profiles| <= 1
  }

  predicate ValidIdentity(id: Identity) {
    !Blank(id.backend) && !Blank(id.worker) &&
    (id.allocation != "" ==> !IsSpace(id.allocation[0]) && !IsSpace(id.allocation[|id.allocation| - 1]) && |id.allocation| <= 256)
  }

  predicate ValidGranted(st: State) {
    st.claim.Some? && st.authority.Some? &&
    var claim, authority := st.claim.value, st.authority.value;
    !Blank(claim.id) && !Blank(authority.id) && !Blank(authority.runtime.profileRef) &&
    ValidNetworkProfiles(authority.network) &&
    !claim.phase.UnknownPhase? &&
    claim.requestRef == st.requestRef && claim.templateRef == st.action.templateRef && claim.authorityRef == authority.id &&
    (claim.phase.Pending? ==> claim.identity.None?) &&
    (claim.identity.Some? ==> ValidIdentity(claim.identity.value)) &&
    0 <= authority.runtime.maxModelCalls <= 1000 && authority.runtime.timeout > 0
  }

  predicate ValidTrail(st: State) {
    !Blank(st.evidence.requestRef) && st.evidence.requestRef == st.requestRef &&
    st.decision.id in st.evidence.decisionIDs &&
    (st.evidence.claimID != "" ==> st.claim.Some? && st.evidence.claimID == st.claim.value.id)
  }

  predicate BlankAction(name: ActionName) {
    name.NoActionName? || (name.OtherActionName? && Blank(name.name))
  }

  /** The cross-object rules that keep one issued snapshot from contradicting itself. */
  predicate ValidIssuedState(st: State) {
    !Blank(st.requestRef) && !Blank(st.principal.subject) && !BlankAction(st.action.name) && !Blank(st.action.project) &&
    !Blank(st.action.templateRef) && !Blank(st.policyRef.id) && !Blank(st.policyRef.version) &&
    !Blank(st.decision.id) && !Blank(st.decision.reason) &&
    (st.decision.result.Allow? || st.decision.result.Deny? || st.decision.result.ApprovalRequired?) &&
    st.decision.principalRef == st.principal.subject && st.decision.action == st.action.name && st.decision.policyRef == st.policyRef &&
    (if st.decision.result.Allow? then ValidGranted(st) else st.claim.None? && st.authority.None?) &&
    ValidTrail(st)
  }

  // ---------------------------------------------------------------- requests

  datatype Access = Access(tools: seq<string>, resources: seq<string>, model: string, memory: seq<string>, network: seq<string>)
  datatype RuntimeNeeds = RuntimeNeeds(profileRef: string, timeout: int, maxModelCalls: Option<int>)

  /** `envelopeValid` stands for the API version, kind and task checks. */
  datatype Request = Request(name: string, projectRef: string, templateRef: string, envelopeValid: bool,
                             access: Access, runtime: RuntimeNeeds)

  predicate ValidRequestList(values: seq<string>) {
    (forall i | 0 <= i < |values| :: !Blank(values[i])) &&
    (forall i, j | 0 <= i < j < |values| :: values[i] != values[j])
  }

  predicate ValidClaimRequest(r: Request) {
    r.envelopeValid && !Blank(r.name) && !Blank(r.templateRef) &&
    ValidRequestList(r.access.tools) && ValidRequestList(r.access.resources) && ValidRequestList(r.access.memory) &&
    ValidNetworkProfiles(r.access.network) &&
    !Blank(r.runtime.profileRef) && r.runtime.timeout > 0 &&
    (r.runtime.maxModelCalls.Some? ==> 1 <= r.runtime.maxModelCalls.value <= 1000)
  }

  const DEFAULT_MODEL_CALLS := 6

  /** Zero encodes the default number of model calls. */
  function ModelCallLimit(value: int): int {
    if value == 0 then DEFAULT_MODEL_CALLS else value
  }

  // ---------------------------------------------------------------- recorded differences

  datatype Field = Tools | ResourceScopes | MemoryScopes | NetworkProfiles | RuntimeTimeout | OtherField(name: string)
  datatype Quantity = Nothing | Value(name: string) | Span(nanoseconds: int)
  datatype ChangeReason = OutsideTemplateCeiling | OutsidePolicyConstraint | TemplateTimeoutCap | PolicyTimeoutCap | OtherReason(name: string)
  datatype Change = Change(field: Field, requested: Quantity, effective: Quantity, reason: ChangeReason)

  // ---------------------------------------------------------------- facts and views

  datatype Fact = Fact(
    id: string, sequence: nat, timestamp: int,
    kind: Kind, requestRef: string, claimID: string, invocationID: string,
    decision: Option<Decision>, result: Result, code: Code, reason: string, policyRef: Option<Policy>,
    authority: Option<Authority>, changes: seq<Change>, identity: Option<Identity>,
    operation: Op, target: string, status: Status,
    turn: int, actionRef: string, actionKind: ActionKind, actionTool: string, actionResource: string,
    callCount: int, callLimit: int)

  /** A fact before the journal has given it an identity, a position and a time. */
  function Bare(f: Fact): Fact { f.(id := "", sequence := 0, timestamp := 0) }

  const BLANK_FACT := Fact("", 0, 0, NoKind, "", "", "", None, NoResult, NoCode, "", None, None, [], None,
                           NoOp, "", NoStatus, 0, "", NoAction, "", "", 0, 0)

  predicate ValidResult(result: Result) { result.Allow? || result.Deny? || result.ApprovalRequired? }

  predicate DeclaresAction(f: Fact) { !f.actionKind.NoAction? || f.actionTool != "" || f.actionResource != "" }

  datatype ModelResult = ModelResult(invocationID: string, model: string, inputTokens: int, outputTokens: int)

  /** `PlatformLimit` is the platform's own report of an exhausted model-call budget; `MalformedReport`
      is any other report that does not come from the agent. */
  datatype Completion = AgentReport | PlatformLimit | MalformedReport

  datatype Outcome = Outcome(status: Op, text: string, failure: string, model: Option<ModelResult>, completion: Option<Completion>)

  datatype CleanupState = CleanupUnknown | CleanupDone | CleanupNotDone | OtherCleanup(name: string)
  datatype RecoveryNote = RecoveryNote(serviceRestarted: bool, cleanup: CleanupState)

  const VERSION := "agenova.evidence/v0"

  datatype View = View(version: string, requestRef: string, request: Option<Request>, state: Option<State>,
                       facts: seq<Fact>, recovery: Option<RecoveryNote>, outcome: Option<Outcome>)
}
