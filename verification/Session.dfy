/** The facts that governed work records: worker steps, budget reservations, gateway decisions, provider
    attempts and outcomes. A session makes one governed call at a time; `Records` says which fact it may
    record next. The client's call automaton is proved to follow every session. */
module Session {
  import opened Evidence
  import opened Checker

  /** An admitted request: what was asked, what was issued for it, and the recorded differences. */
  datatype Assignment = Assignment(request: Request, issued: State, changes: seq<Change>)

  /** The governed call in progress. */
  datatype Call =
    | Free
    | Budgeted(id: string)
    | Allowed(op: Op, id: string, target: string)
    | Dispatched(op: Op, id: string, target: string, provider: string)

  datatype Session = Session(call: Call, budgeted: set<string>, used: set<string>, toValidate: Option<string>, action: Option<Fact>, last: string,
                             answered: bool, exhausted: bool)

  const FRESH := Session(Free, {}, {}, None, None, "", false, false)

  function CallLimit(w: Assignment): int
    requires w.issued.authority.Some?
  {
    ModelCallLimit(w.issued.authority.value.runtime.maxModelCalls)
  }

  predicate FreshID(ses: Session, id: string) { id != "" && id !in ses.used && id !in ses.budgeted }

  /** A fact of this work with nothing attached to it; codes and reasons are free text. */
  predicate Plain(w: Assignment, f: Fact) {
    w.issued.claim.Some? && f.requestRef == w.issued.requestRef && f.claimID == w.issued.claim.value.id &&
    f.decision.None? && f.authority.None? && f.changes == [] && f.identity.None? && f.id != ""
  }

  predicate NoAction(f: Fact) { f.actionRef == "" && f.actionKind.NoAction? && f.actionTool == "" && f.actionResource == "" }

  predicate NoBudget(f: Fact) { f.callCount == 0 && f.callLimit == 0 }

  predicate NoCall(f: Fact) { f.invocationID == "" && f.result.NoResult? && f.status.NoStatus? && f.policyRef.None? && f.turn == 0 }

  /** A step of the worker that belongs to no call. */
  predicate RecordsStep(ses: Session, f: Fact) {
    f.kind.WorkerActivity? && ses.call.Free? && NoCall(f) && NoAction(f) && NoBudget(f) &&
    (f.operation.TurnStarted? || f.operation.ActionReceived? || f.operation.ObservationReceived? || f.operation.FinalAnswer? ||
     (f.operation.ToolRequestRejected? && f.target == "tool.invoke" && f.code.ToolArgumentsRejected?))
  }

  /** One unit of the model budget, numbered after the units before it. */
  predicate RecordsReservation(w: Assignment, ses: Session, f: Fact) {
    f.kind.ModelBudgetReservation? && ses.call.Free? && f.operation.ModelInvoke? && FreshID(ses, f.invocationID) &&
    w.issued.authority.Some? && |ses.budgeted| < CallLimit(w) && f.callCount == |ses.budgeted| + 1 && f.callLimit == CallLimit(w) &&
    f.code.ModelCallReserved? && f.result.NoResult? && f.status.NoStatus? && f.policyRef.None? && f.turn == 0 && f.target == "" && NoAction(f)
  }

  /** The model gateway allows a call it has a reservation for, within the granted profile; a call beyond the
      budget is denied with its own code. */
  predicate RecordsModelDecision(w: Assignment, ses: Session, f: Fact) {
    f.kind.ModelDecision? && f.operation.ModelInvoke? && f.policyRef == Some(w.issued.policyRef) && f.status.NoStatus? &&
    0 <= f.turn <= 1000 && NoAction(f) && NoBudget(f) && w.issued.authority.Some? &&
    (if f.result.Allow? then ses.call == Budgeted(f.invocationID) && f.target == w.issued.authority.value.model && f.target != "" && !f.code.ModelCallLimitReached?
     else f.result.Deny? && ses.call.Free? && FreshID(ses, f.invocationID) && (f.code.ModelCallLimitReached? ==> |ses.budgeted| == CallLimit(w)))
  }

  /** The tool gateway allows only granted tools; a decision may name the model action it follows. */
  predicate RecordsToolDecision(w: Assignment, ses: Session, f: Fact) {
    f.kind.ToolDecision? && f.operation.ToolInvoke? && f.policyRef == Some(w.issued.policyRef) && f.status.NoStatus? &&
    0 <= f.turn <= 1000 && !DeclaresAction(f) && NoBudget(f) && ses.call.Free? && FreshID(ses, f.invocationID) && w.issued.authority.Some? &&
    (if f.result.Allow? then f.target in w.issued.authority.value.tools else f.result.Deny?) &&
    (f.actionRef != "" ==> ses.action.Some? && ses.action.value.id == f.actionRef && ses.action.value.actionTool == f.target && ses.action.value.turn == f.turn)
  }

  predicate RecordsAttempt(w: Assignment, ses: Session, f: Fact) {
    f.kind.ProviderAttempt? && ses.call.Allowed? && f.invocationID == ses.call.id && f.operation == ses.call.op && f.target != "" &&
    (f.operation.ModelInvoke? ==> f.target == ses.call.target) && f.status.Attempted? && f.result.NoResult? && f.turn == 0 &&
    NoAction(f) && NoBudget(f) && (f.policyRef.Some? ==> f.policyRef.value == w.issued.policyRef)
  }

  predicate RecordsOutcome(w: Assignment, ses: Session, f: Fact) {
    f.kind.ProviderOutcome? && ses.call.Dispatched? && f.invocationID == ses.call.id && f.operation == ses.call.op && f.target == ses.call.provider &&
    (f.status.Succeeded? || f.status.Failed? || f.status.Cancelled?) && f.result.NoResult? && f.turn == 0 &&
    NoAction(f) && NoBudget(f) && (f.policyRef.Some? ==> f.policyRef.value == w.issued.policyRef)
  }

  /** The action that a successful model call selected, once per call; only a well-formed action is described. */
  predicate RecordsAction(ses: Session, f: Fact) {
    f.kind.WorkerActivity? && f.operation.ActionValidated? && ses.call.Free? && ses.toValidate == Some(f.invocationID) &&
    1 <= f.turn <= 1000 && f.actionRef == "" && NoBudget(f) && f.result.NoResult? && f.status.NoStatus? && f.policyRef.None? &&
    (DeclaresAction(f) ==>
       (f.actionKind.ToolAction? || f.actionKind.FinishAction? || f.actionKind.NativeAction?) && |f.actionTool| <= 128 && |f.actionResource| <= 256 &&
       (if f.actionKind.ToolAction? then f.actionTool != "" && f.actionResource != "" else f.actionTool == "" && f.actionResource == ""))
  }

  /** The facts a session may record next. */
  predicate Records(w: Assignment, ses: Session, f: Fact) {
    Plain(w, f) &&
    (RecordsStep(ses, f) || RecordsReservation(w, ses, f) || RecordsModelDecision(w, ses, f) || RecordsToolDecision(w, ses, f) ||
     RecordsAttempt(w, ses, f) || RecordsOutcome(w, ses, f) || RecordsAction(ses, f))
  }

  function NextCall(call: Call, f: Fact): Call {
    match f.kind
    case ModelBudgetReservation => Budgeted(f.invocationID)
    case ModelDecision => if f.result.Allow? then Allowed(ModelInvoke, f.invocationID, f.target) else Free
    case ToolDecision => if f.result.Allow? then Allowed(ToolInvoke, f.invocationID, f.target) else Free
    case ProviderAttempt => if call.Allowed? then Dispatched(call.op, call.id, call.target, f.target) else call
    case ProviderOutcome => Free
    case _ => call
  }

  predicate ModelAnswer(f: Fact) { f.kind.ProviderOutcome? && f.operation.ModelInvoke? && f.status.Succeeded? }

  function NextSession(ses: Session, f: Fact): Session {
    Session(NextCall(ses.call, f),
            if f.kind.ModelBudgetReservation? then ses.budgeted + {f.invocationID} else ses.budgeted,
            if f.kind.ModelDecision? || f.kind.ToolDecision? then ses.used + {f.invocationID} else ses.used,
            if ModelAnswer(f) then Some(f.invocationID) else if f.operation.ActionValidated? then None else ses.toValidate,
            if f.operation.ActionValidated? && f.actionKind.ToolAction? then Some(f)
            else if f.operation.ActionValidated? || f.operation.TurnStarted? then None else ses.action,
            if ModelAnswer(f) then f.invocationID else ses.last,
            ses.answered || f.operation.FinalAnswer?,
            ses.exhausted || (f.kind.ModelDecision? && f.code.ModelCallLimitReached?))
  }

  // ---------------------------------------------------------------- the checker follows a session

  /** The checker's record of the call in progress. */
  predicate CallRecorded(call: Call, stages: map<string, Invocation>) {
    match call
    case Free => true
    case Budgeted(id) => id !in stages && id != ""
    case Allowed(op, id, target) => id in stages && id != "" && stages[id] == Invocation(op, target, "", NoStatus, 1)
    case Dispatched(op, id, target, provider) =>
      id in stages && id != "" && stages[id] == Invocation(op, target, provider, NoStatus, 2) && (op.ModelInvoke? ==> provider == target)
  }

  predicate InProgress(call: Call, id: string) { (call.Allowed? && call.id == id) || (call.Dispatched? && call.id == id) }

  predicate BudgetFollows(ses: Session, calls: Calls) {
    calls.budget == |ses.budgeted| && calls.budgetIDs == ses.budgeted && calls.lastModel == ses.last &&
    (ses.call.Budgeted? ==> ses.call.id in ses.budgeted)
  }

  ghost predicate StagesFollow(ses: Session, stages: map<string, Invocation>) {
    stages.Keys == ses.used && CallRecorded(ses.call, stages) &&
    (forall id | id in stages :: (stages[id].stage == 1 || stages[id].stage == 2) <==> InProgress(ses.call, id)) &&
    (ses.toValidate.Some? ==> Validatable(stages, ses.toValidate.value))
  }

  ghost predicate CallsFollow(ses: Session, calls: Calls) {
    BudgetFollows(ses, calls) && StagesFollow(ses, calls.stages) && (ses.action.Some? ==> ActionKept(calls, ses.action.value))
  }

  predicate Validatable(stages: map<string, Invocation>, id: string) {
    id != "" && id in stages && stages[id].operation.ModelInvoke? && stages[id].stage == 3 && stages[id].status.Succeeded?
  }

  predicate ActionKept(calls: Calls, a: Fact) { a.id in calls.actions && calls.actions[a.id] == a && a.actionKind.ToolAction? }

  /** The subject of a view of this work. */
  predicate Concerns(s: Subject, w: Assignment) {
    w.issued.claim.Some? && w.issued.authority.Some? && s.state.authority == w.issued.authority && s.state.policyRef == w.issued.policyRef &&
    s.state.claim.Some? && s.state.claim.value.id == w.issued.claim.value.id && s.state.claim.value.authorityRef == w.issued.claim.value.authorityRef &&
    s.request == w.request && s.ref == w.issued.requestRef
  }

  /** Every selected action was recorded for this claim. */
  predicate OwnAction(w: Assignment, ses: Session) {
    ses.action.Some? ==> w.issued.claim.Some? && ses.action.value.claimID == w.issued.claim.value.id
  }

  /** Whatever a session records, the checker's call automaton accepts. */
  lemma SessionAccepted(w: Assignment, s: Subject, ses: Session, calls: Calls, f: Fact)
    requires Concerns(s, w) && CallsFollow(ses, calls) && OwnAction(w, ses) && Records(w, ses, f)
    ensures CallsOk(s, calls, f)
  {
  }

  lemma BudgetFollowed(w: Assignment, ses: Session, calls: Calls, f: Fact)
    requires BudgetFollows(ses, calls) && Records(w, ses, f)
    ensures BudgetFollows(NextSession(ses, f), NextCalls(calls, f))
  {
    hide NextStages;
  }

  lemma StagesFollowed(w: Assignment, ses: Session, stages: map<string, Invocation>, f: Fact)
    requires StagesFollow(ses, stages) && Records(w, ses, f)
    ensures StagesFollow(NextSession(ses, f), NextStages(stages, f))
  {
    hide Plain, DeclaresAction;
  }

  /** The checker's record keeps following the session. */
  lemma SessionFollowed(w: Assignment, ses: Session, calls: Calls, f: Fact)
    requires CallsFollow(ses, calls) && OwnAction(w, ses) && Records(w, ses, f) && f.id !in calls.actions
    ensures CallsFollow(NextSession(ses, f), NextCalls(calls, f)) && OwnAction(w, NextSession(ses, f))
  {
    hide NextStages, StagesFollow, BudgetFollows, RecordsReservation, RecordsModelDecision, RecordsToolDecision, RecordsAttempt, RecordsOutcome;
    BudgetFollowed(w, ses, calls, f);
    StagesFollowed(w, ses, calls.stages, f);
  }

  // ---------------------------------------------------------------- what governed work can do

  /** A fact of this work before anything is said in it. */
  function Entry(w: Assignment, kind: Kind, id: string): Fact
    requires w.issued.claim.Some?
  {
    BLANK_FACT.(id := "entry", kind := kind, requestRef := w.issued.requestRef, claimID := w.issued.claim.value.id, invocationID := id)
  }

  function ReservationEntry(w: Assignment, ses: Session, id: string): Fact
    requires w.issued.claim.Some? && w.issued.authority.Some?
  {
    Entry(w, ModelBudgetReservation, id).(operation := ModelInvoke, code := ModelCallReserved, callCount := |ses.budgeted| + 1, callLimit := CallLimit(w))
  }

  function DecisionEntry(w: Assignment, op: Op, id: string, target: string, result: Result, code: Code): Fact
    requires w.issued.claim.Some?
  {
    Entry(w, if op.ModelInvoke? then ModelDecision else ToolDecision, id).(operation := op, result := result, code := code, target := target,
                                                                        policyRef := Some(w.issued.policyRef))
  }

  function ProviderEntry(w: Assignment, op: Op, id: string, target: string, status: Status): Fact
    requires w.issued.claim.Some?
  {
    Entry(w, if status.Attempted? then ProviderAttempt else ProviderOutcome, id).(operation := op, target := target, status := status)
  }

  lemma AttemptMayFollow(w: Assignment, ses: Session, target: string, provider: string)
    requires w.issued.claim.Some? && ses.call.Allowed? && ses.call.target == target && provider != "" && (ses.call.op.ModelInvoke? ==> provider == target)
    ensures var a := ProviderEntry(w, ses.call.op, ses.call.id, provider, Attempted);
            Records(w, ses, a) && NextSession(ses, a).call == Dispatched(ses.call.op, ses.call.id, target, provider)
  {
    hide CallLimit;
    var a := ProviderEntry(w, ses.call.op, ses.call.id, provider, Attempted);
    assert RecordsAttempt(w, ses, a);
  }

  lemma AnswerMayFollow(w: Assignment, ses: Session, status: Status)
    requires w.issued.claim.Some? && ses.call.Dispatched? && (status.Succeeded? || status.Failed? || status.Cancelled?)
    ensures var o := ProviderEntry(w, ses.call.op, ses.call.id, ses.call.provider, status); Records(w, ses, o) && NextSession(ses, o).call.Free?
  {
    hide CallLimit;
    var o := ProviderEntry(w, ses.call.op, ses.call.id, ses.call.provider, status);
    assert RecordsOutcome(w, ses, o);
  }

  lemma ToolMayBeDecided(w: Assignment, ses: Session, id: string, tool: string)
    requires w.issued.claim.Some? && w.issued.authority.Some? && ses.call.Free? && FreshID(ses, id)
    ensures var d := DecisionEntry(w, ToolInvoke, id, tool, Allow, NoCode);
            (Records(w, ses, d) <==> tool in w.issued.authority.value.tools) && NextSession(ses, d).call == Allowed(ToolInvoke, id, tool)
    ensures var n := DecisionEntry(w, ToolInvoke, id, tool, Deny, NoCode); Records(w, ses, n) && NextSession(ses, n).call.Free?
  {
    hide CallLimit;
  }

  lemma ModelMayBeReserved(w: Assignment, ses: Session, id: string)
    requires w.issued.claim.Some? && w.issued.authority.Some? && ses.call.Free? && FreshID(ses, id)
    ensures var u := ReservationEntry(w, ses, id);
            (Records(w, ses, u) <==> |ses.budgeted| < CallLimit(w)) && NextSession(ses, u).call == Budgeted(id)
    ensures var n := DecisionEntry(w, ModelInvoke, id, w.issued.authority.value.model, Deny, ModelCallLimitReached);
            (Records(w, ses, n) <==> |ses.budgeted| == CallLimit(w)) && NextSession(ses, n).exhausted
  {
  }

  lemma ModelMayBeAllowed(w: Assignment, ses: Session, id: string, model: string)
    requires w.issued.claim.Some? && w.issued.authority.Some? && ses.call == Budgeted(id) && model != ""
    ensures var d := DecisionEntry(w, ModelInvoke, id, model, Allow, NoCode);
            (Records(w, ses, d) <==> model == w.issued.authority.value.model) && NextSession(ses, d).call == Allowed(ModelInvoke, id, model)
  {
    hide CallLimit;
  }

  /** A session that makes no call can call exactly the granted tools: the decision, the attempt and any outcome may be recorded in turn,
      and the session is free again. */
  lemma ToolCallMayRun(w: Assignment, ses: Session, id: string, tool: string, provider: string, status: Status)
    requires w.issued.claim.Some? && w.issued.authority.Some? && ses.call.Free? && FreshID(ses, id) && provider != ""
    requires status.Succeeded? || status.Failed? || status.Cancelled?
    ensures var decision := DecisionEntry(w, ToolInvoke, id, tool, Allow, NoCode);
            var decided := NextSession(ses, decision);
            var attempted := NextSession(decided, ProviderEntry(w, ToolInvoke, id, provider, Attempted));
            (Records(w, ses, decision) <==> tool in w.issued.authority.value.tools) && Records(w, decided, ProviderEntry(w, ToolInvoke, id, provider, Attempted)) &&
            Records(w, attempted, ProviderEntry(w, ToolInvoke, id, provider, status)) &&
            NextSession(attempted, ProviderEntry(w, ToolInvoke, id, provider, status)).call.Free?
  {
    hide Records, NextSession, FreshID, DecisionEntry, ProviderEntry;
    ToolMayBeDecided(w, ses, id, tool);
    var decided := NextSession(ses, DecisionEntry(w, ToolInvoke, id, tool, Allow, NoCode));
    AttemptMayFollow(w, decided, tool, provider);
    AnswerMayFollow(w, NextSession(decided, ProviderEntry(w, ToolInvoke, id, provider, Attempted)), status);
  }

  /** A session that makes no call can call the granted model exactly while a unit of its budget is left, and can be denied as exhausted
      exactly when none is. */
  lemma ModelCallMayRun(w: Assignment, ses: Session, id: string, status: Status)
    requires w.issued.claim.Some? && w.issued.authority.Some? && ses.call.Free? && FreshID(ses, id) && w.issued.authority.value.model != ""
    requires status.Succeeded? || status.Failed? || status.Cancelled?
    ensures var model, unit := w.issued.authority.value.model, ReservationEntry(w, ses, id);
            var reserved := NextSession(ses, unit);
            var decided := NextSession(reserved, DecisionEntry(w, ModelInvoke, id, model, Allow, NoCode));
            var attempted := NextSession(decided, ProviderEntry(w, ModelInvoke, id, model, Attempted));
            (Records(w, ses, unit) <==> |ses.budgeted| < CallLimit(w)) && Records(w, reserved, DecisionEntry(w, ModelInvoke, id, model, Allow, NoCode)) &&
            Records(w, decided, ProviderEntry(w, ModelInvoke, id, model, Attempted)) && Records(w, attempted, ProviderEntry(w, ModelInvoke, id, model, status)) &&
            NextSession(attempted, ProviderEntry(w, ModelInvoke, id, model, status)).call.Free? &&
            (Records(w, ses, DecisionEntry(w, ModelInvoke, id, model, Deny, ModelCallLimitReached)) <==> |ses.budgeted| == CallLimit(w))
  {
    hide Records, NextSession, FreshID, ReservationEntry, DecisionEntry, ProviderEntry;
    var model := w.issued.authority.value.model;
    ModelMayBeReserved(w, ses, id);
    var reserved := NextSession(ses, ReservationEntry(w, ses, id));
    ModelMayBeAllowed(w, reserved, id, model);
    var decided := NextSession(reserved, DecisionEntry(w, ModelInvoke, id, model, Allow, NoCode));
    AttemptMayFollow(w, decided, model, model);
    AnswerMayFollow(w, NextSession(decided, ProviderEntry(w, ModelInvoke, id, model, Attempted)), status);
  }
}
