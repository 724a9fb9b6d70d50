/** What acceptance by the client means: the exact order of lifecycle milestones, where work may happen
    relative to the network grant, and how many model calls can have been attempted. */
module CheckerSoundness {
  import opened Evidence
  import opened Checker
  import Sets

  /** Every fact of an accepted pass was accepted after the facts before it. */
  lemma FoldAt(s: Subject, facts: seq<Fact>, i: nat)
    requires Fold(s, facts).Some? && i < |facts|
    ensures Fold(s, facts[..i]).Some? && StepOk(s, Fold(s, facts[..i]).value, facts[i])
  {
    hide StepOk, Next;
    if Fold(s, facts[..i]).None? || !StepOk(s, Fold(s, facts[..i]).value, facts[i]) {
      FoldStep(s, facts, i);
      FoldRefused(s, facts, i + 1);
    }
  }

  // ---------------------------------------------------------------- lifecycle

  predicate IsMilestone(f: Fact) {
    f.kind.Runtime? && (f.operation.Bound? || f.operation.BackendReady? || f.operation.Running? ||
                        RuntimeTerminal(f.operation) || Termination(f.operation) || CleanupOp(f.operation))
  }

  /** The operations of the milestone facts, in order. */
  function Milestones(facts: seq<Fact>): seq<Op> {
    if facts == [] then [] else
    Add(Milestones(facts[..|facts| - 1]), IsMilestone(facts[|facts| - 1]), facts[|facts| - 1].operation)
  }

  function Add(ops: seq<Op>, when: bool, op: Op): seq<Op> { if when then ops + [op] else ops }

  /** The only milestone sequence a lifecycle can have; `t` and `k` say how termination and cleanup ended. */
  function Spine(life: Life, t: Op, k: Op): seq<Op> {
    Add(Add(Add(Add(Add(Add([], life.bound, Op.Bound), life.ready, BackendReady), life.running, Op.Running),
                    life.terminal, life.terminalOp), life.terminated, t), life.cleaned, k)
  }

  predicate LifeOrdered(life: Life) {
    (life.running ==> life.ready) && (life.ready ==> life.bound) && (life.cleaned ==> life.terminated) &&
    (life.terminated ==> life.terminal) && (life.terminal ==> RuntimeTerminal(life.terminalOp)) &&
    (life.terminal && life.terminalOp.Succeeded? ==> life.running)
  }

  /** A milestone comes before every later one. */
  predicate Advances(life: Life, op: Op) {
    (op.Bound? ==> !life.bound && !life.ready && !life.running && !life.terminal && !life.terminated && !life.cleaned) &&
    (op.BackendReady? ==> life.bound && !life.ready && !life.running && !life.terminal && !life.terminated && !life.cleaned) &&
    (op.Running? ==> life.bound && life.ready && !life.running && !life.terminal && !life.terminated && !life.cleaned) &&
    (RuntimeTerminal(op) ==> !life.terminal && !life.terminated && !life.cleaned && (op.Succeeded? ==> life.running)) &&
    (Termination(op) ==> life.terminal && !life.terminated && !life.cleaned) && (CleanupOp(op) ==> life.terminated && !life.cleaned)
  }

  lemma MilestoneAdvances(s: Subject, life: Life, net: Net, f: Fact)
    requires RuntimeOk(s, life, net, f) && LifeOrdered(life)
    ensures Advances(life, f.operation) && (f.operation.Bound? ==> f.identity.Some?)
  {
    hide NetworkOk;
  }

  lemma {:induction false} SpineGrows(s: Subject, life: Life, net: Net, f: Fact, t: Op, k: Op) returns (t': Op, k': Op)
    requires f.kind.Runtime? ==> RuntimeOk(s, life, net, f)
    requires f.identity.Some? ==> s.state.claim.Some? && s.state.claim.value.identity == f.identity
    requires LifeOrdered(life) && Termination(t) && CleanupOp(k)
    ensures LifeOrdered(NextLife(s, life, f)) && Termination(t') && CleanupOp(k')
    ensures Spine(NextLife(s, life, f), t', k') == Add(Spine(life, t, k), IsMilestone(f), f.operation)
  {
    hide RuntimeOk;
    if f.kind.Runtime? { MilestoneAdvances(s, life, net, f); }
    t' := if f.kind.Runtime? && Termination(f.operation) then f.operation else t;
    k' := if f.kind.Runtime? && CleanupOp(f.operation) then f.operation else k;
  }

  /** Milestones of an accepted pass are the spine of its final lifecycle. */
  lemma {:induction false} MilestonesAreSpine(s: Subject, facts: seq<Fact>) returns (t: Op, k: Op)
    requires Fold(s, facts).Some?
    ensures LifeOrdered(Fold(s, facts).value.life) && Termination(t) && CleanupOp(k)
    ensures Milestones(facts) == Spine(Fold(s, facts).value.life, t, k)
  {
    hide LogOk, RuntimeOk, CallsOk, WorkGateOk, NextLife, NextLog, NextCalls, NextNet;
    if facts == [] {
      t, k := TerminateSucceeded, CleanupSucceeded;
    } else {
      var before, f := facts[..|facts| - 1], facts[|facts| - 1];
      t, k := MilestonesAreSpine(s, before);
      var c := Fold(s, before).value;
      t, k := SpineGrows(s, c.life, c.net, f, t, k);
    }
  }

  /** Every fact before the last was accepted while no outcome had been seen. */
  lemma {:induction false} OutcomeIsLast(s: Subject, facts: seq<Fact>)
    requires Fold(s, facts).Some?
    ensures forall i | 0 <= i < |facts| - 1 :: !facts[i].kind.RunOutcome?
    ensures Fold(s, facts).value.log.outcomeSeen <==> facts != [] && facts[|facts| - 1].kind.RunOutcome?
    ensures Fold(s, facts).value.log.outcomes > 0 ==> Fold(s, facts).value.log.outcomeSeen
  {
    hide RuntimeOk, CallsOk, WorkGateOk, AttachedOk, NextLife, NextCalls, NextNet;
    if facts != [] {
      OutcomeIsLast(s, facts[..|facts| - 1]);
      assert forall i | 0 <= i < |facts| - 1 :: facts[i] == facts[..|facts| - 1][i];
    }
  }

  /** A view accepted as Succeeded records each milestone exactly once, in this order, and ends with its
      only run outcome. */
  lemma SucceededLifecycle(v: View, ref: string)
    requires Accepts(v, ref) && v.outcome.Some? && v.outcome.value.status.Succeeded?
    ensures var ops := Milestones(v.facts);
            |ops| == 6 && ops[..4] == [Op.Bound, BackendReady, Op.Running, Op.Succeeded] && Termination(ops[4]) && CleanupOp(ops[5])
    ensures v.facts != [] && v.facts[|v.facts| - 1].kind.RunOutcome? && forall i | 0 <= i < |v.facts| - 1 :: !v.facts[i].kind.RunOutcome?
  {
    hide StepOk, Next, ValidIssuedState, ValidClaimRequest, Fold, Milestones;
    var s := SubjectOf(v);
    var t, k := MilestonesAreSpine(s, v.facts);
    OutcomeIsLast(s, v.facts);
    assert Milestones(v.facts) == [Op.Bound, BackendReady, Op.Running, Op.Succeeded, t, k];
  }

  /** Any accepted finished view of an allocated claim was bound first and ends with one terminal operation, one
      termination and one cleanup; between them it became ready, or ready and running, or neither. */
  lemma FinishedLifecycle(v: View, ref: string)
    requires Accepts(v, ref) && v.outcome.Some? && v.state.value.claim.Some? && v.state.value.claim.value.identity.Some?
    ensures var ops, n := Milestones(v.facts), |Milestones(v.facts)|;
            4 <= n <= 6 && ops[..n - 3] == [Op.Bound, BackendReady, Op.Running][..n - 3] && RuntimeTerminal(ops[n - 3]) && Termination(ops[n - 2]) &&
            CleanupOp(ops[n - 1]) && (ops[n - 3].Succeeded? ==> n == 6)
    ensures v.facts != [] && v.facts[|v.facts| - 1].kind.RunOutcome?
  {
    hide StepOk, Next, ValidIssuedState, ValidClaimRequest, Fold, Milestones;
    var s := SubjectOf(v);
    var t, k := MilestonesAreSpine(s, v.facts);
    OutcomeIsLast(s, v.facts);
  }

  // ---------------------------------------------------------------- network

  /** Some runtime fact records the operation. */
  predicate Seen(facts: seq<Fact>, op: Op) {
    facts != [] && (Seen(facts[..|facts| - 1], op) || (facts[|facts| - 1].kind.Runtime? && facts[|facts| - 1].operation == op))
  }

  lemma {:induction false} SeenSomewhere(facts: seq<Fact>, op: Op)
    ensures Seen(facts, op) <==> exists j | 0 <= j < |facts| :: facts[j].kind.Runtime? && facts[j].operation == op
  {
    if facts != [] {
      var n := |facts| - 1;
      SeenSomewhere(facts[..n], op);
      if Seen(facts[..n], op) {
        var j :| 0 <= j < n && facts[..n][j].kind.Runtime? && facts[..n][j].operation == op;
        assert facts[j].operation == op;
      }
      assert forall j | 0 <= j < n :: facts[..n][j] == facts[j];
    }
  }

  lemma {:induction false} FlagsAreSeen(s: Subject, facts: seq<Fact>)
    requires Fold(s, facts).Some?
    ensures Fold(s, facts).value.net.active ==> Seen(facts, NetworkActive)
    ensures Seen(facts, NetworkRevocationAttempt) ==> Fold(s, facts).value.net.releaseStarted
  {
    hide StepOk, NextLife, NextCalls, NextLog;
    if facts != [] {
      FlagsAreSeen(s, facts[..|facts| - 1]);
    }
  }

  lemma WorkNeedsFlags(s: Subject, c: Cursor, f: Fact)
    requires StepOk(s, c, f) && WorkFact(f)
    ensures RequiresNetwork(s) ==> c.net.active
    ensures c.net.releaseStarted ==> f.kind.ProviderOutcome?
  {
    hide CallsOk, AttachedOk, NextCalls, NextLog;
    assert f.kind.Runtime? && NetworkOp(f.operation) ==> NetworkOk(s, c.life, c.net, f);
  }

  /** With a network grant every worker or invocation fact of an accepted view follows an activation, and
      once a release attempt is recorded only provider outcomes may still arrive. */
  lemma AcceptedWorkUnderGrant(v: View, ref: string, i: nat)
    requires Accepts(v, ref) && i < |v.facts| && WorkFact(v.facts[i])
    ensures RequiresNetwork(SubjectOf(v)) ==> Seen(v.facts[..i], NetworkActive)
    ensures Seen(v.facts[..i], NetworkRevocationAttempt) ==> v.facts[i].kind.ProviderOutcome?
  {
    hide StepOk, Next;
    var s := SubjectOf(v);
    FoldAt(s, v.facts, i);
    FlagsAreSeen(s, v.facts[..i]);
    WorkNeedsFlags(s, Fold(s, v.facts[..i]).value, v.facts[i]);
  }

  // ---------------------------------------------------------------- model calls

  predicate ModelAttempt(f: Fact) { f.kind.ProviderAttempt? && f.operation.ModelInvoke? }

  /** A reservation of the invocation is recorded. */
  predicate Reserved(facts: seq<Fact>, id: string) {
    facts != [] &&
    (Reserved(facts[..|facts| - 1], id) || (facts[|facts| - 1].kind.ModelBudgetReservation? && facts[|facts| - 1].invocationID == id))
  }

  /** An Allow decision of the invocation is recorded, and its reservation before that. */
  predicate Licensed(facts: seq<Fact>, id: string) {
    facts != [] &&
    var before, f := facts[..|facts| - 1], facts[|facts| - 1];
    Licensed(before, id) || (f.kind.ModelDecision? && f.result.Allow? && f.invocationID == id && Reserved(before, id))
  }

  /** The invocations with a recorded model attempt. */
  function AttemptIDs(facts: seq<Fact>): set<string> {
    if facts == [] then {} else
    AttemptIDs(facts[..|facts| - 1]) + (if ModelAttempt(facts[|facts| - 1]) then {facts[|facts| - 1].invocationID} else {})
  }

  function AttemptCount(facts: seq<Fact>): nat {
    if facts == [] then 0 else
    AttemptCount(facts[..|facts| - 1]) + (if ModelAttempt(facts[|facts| - 1]) then 1 else 0)
  }

  /** The authority or the request of the work states a call limit. */
  predicate Limited(s: Subject) {
    (s.state.authority.Some? && s.state.authority.value.runtime.maxModelCalls > 0) || s.request.runtime.maxModelCalls.Some?
  }

  function Limit(s: Subject): int
    requires s.state.authority.Some?
  {
    ModelCallLimit(s.state.authority.value.runtime.maxModelCalls)
  }

  ghost predicate BudgetTraced(s: Subject, facts: seq<Fact>, calls: Calls) {
    (forall id :: id in calls.budgetIDs <==> Reserved(facts, id)) &&
    |calls.budgetIDs| == calls.budget && (calls.budget > 0 ==> s.state.authority.Some? && calls.budget <= Limit(s))
  }

  ghost predicate StagesTraced(facts: seq<Fact>, calls: Calls) {
    forall id | id in calls.stages && calls.stages[id].operation.ModelInvoke? && calls.stages[id].stage >= 1 ::
      Licensed(facts, id) && id in calls.budgetIDs
  }

  ghost predicate AttemptsTraced(facts: seq<Fact>, calls: Calls) {
    (forall id | id in AttemptIDs(facts) :: id in calls.stages && calls.stages[id].operation.ModelInvoke? && calls.stages[id].stage >= 2) &&
    |AttemptIDs(facts)| == AttemptCount(facts)
  }

  ghost predicate CallsTraced(s: Subject, facts: seq<Fact>, calls: Calls) {
    BudgetTraced(s, facts, calls) && StagesTraced(facts, calls) && AttemptsTraced(facts, calls)
  }

  lemma {:induction false} BudgetGrows(s: Subject, facts: seq<Fact>, calls: Calls)
    requires facts != []
    requires BudgetTraced(s, facts[..|facts| - 1], calls) && CallsOk(s, calls, facts[|facts| - 1])
    ensures BudgetTraced(s, facts, NextCalls(calls, facts[|facts| - 1]))
  {
    hide ActionOk, NextStages, WorkerOk, ProviderOk, DecisionOk, ModelDecisionOk;
  }

  lemma {:induction false} StagesGrow(s: Subject, facts: seq<Fact>, calls: Calls)
    requires facts != [] && Limited(s) && BudgetTraced(s, facts[..|facts| - 1], calls)
    requires StagesTraced(facts[..|facts| - 1], calls) && CallsOk(s, calls, facts[|facts| - 1])
    ensures StagesTraced(facts, NextCalls(calls, facts[|facts| - 1]))
  {
    hide ActionOk, ReservationOk;
    var before, f := facts[..|facts| - 1], facts[|facts| - 1];
    var calls' := NextCalls(calls, f);
    forall id | id in calls'.stages && calls'.stages[id].operation.ModelInvoke? && calls'.stages[id].stage >= 1
      ensures Licensed(facts, id) && id in calls'.budgetIDs
    {
      if id in calls.stages {
        assert calls.stages[id].operation == calls'.stages[id].operation && calls.stages[id].stage >= 1;
      } else {
        assert f.kind.ModelDecision? && f.result.Allow? && f.invocationID == id;
      }
    }
  }

  lemma StageStays(s: Subject, calls: Calls, f: Fact, id: string)
    requires CallsOk(s, calls, f) && id in calls.stages
    ensures id in NextCalls(calls, f).stages && NextCalls(calls, f).stages[id].operation == calls.stages[id].operation
    ensures NextCalls(calls, f).stages[id].stage >= calls.stages[id].stage
  {
    hide ActionOk, ReservationOk, ModelDecisionOk;
  }

  lemma AttemptIsNew(s: Subject, calls: Calls, f: Fact)
    requires CallsOk(s, calls, f) && ModelAttempt(f)
    ensures f.invocationID in calls.stages && calls.stages[f.invocationID].operation.ModelInvoke? && calls.stages[f.invocationID].stage == 1
    ensures NextCalls(calls, f).stages[f.invocationID].stage == 2
  {
    hide ActionOk, ReservationOk, ModelDecisionOk, DecisionOk, WorkerOk;
  }

  lemma {:induction false} AttemptsGrow(s: Subject, facts: seq<Fact>, calls: Calls)
    requires facts != [] && AttemptsTraced(facts[..|facts| - 1], calls) && CallsOk(s, calls, facts[|facts| - 1])
    ensures AttemptsTraced(facts, NextCalls(calls, facts[|facts| - 1]))
  {
    hide CallsOk, NextCalls;
    var before, f := facts[..|facts| - 1], facts[|facts| - 1];
    forall id | id in AttemptIDs(before) ensures id in NextCalls(calls, f).stages { StageStays(s, calls, f, id); }
    forall id | id in AttemptIDs(before)
      ensures NextCalls(calls, f).stages[id].operation.ModelInvoke? && NextCalls(calls, f).stages[id].stage >= 2
    {
      StageStays(s, calls, f, id);
    }
    if ModelAttempt(f) {
      AttemptIsNew(s, calls, f);
      StageStays(s, calls, f, f.invocationID);
    }
  }

  lemma {:induction false} TraceGrows(s: Subject, facts: seq<Fact>, calls: Calls)
    requires facts != [] && Limited(s)
    requires CallsTraced(s, facts[..|facts| - 1], calls) && CallsOk(s, calls, facts[|facts| - 1])
    ensures CallsTraced(s, facts, NextCalls(calls, facts[|facts| - 1]))
    ensures var f := facts[|facts| - 1];
            ModelAttempt(f) ==> Licensed(facts[..|facts| - 1], f.invocationID) && f.invocationID !in AttemptIDs(facts[..|facts| - 1])
  {
    hide NextCalls, ActionOk, ReservationOk, ModelDecisionOk;
    BudgetGrows(s, facts, calls);
    StagesGrow(s, facts, calls);
    AttemptsGrow(s, facts, calls);
  }

  lemma {:induction false} PassIsTraced(s: Subject, facts: seq<Fact>)
    requires Fold(s, facts).Some? && Limited(s)
    ensures CallsTraced(s, facts, Fold(s, facts).value.calls)
  {
    hide CallsOk, LogOk, RuntimeOk, WorkGateOk, AttachedOk, NextCalls, NextLog, NextLife, NextNet;
    if facts != [] {
      PassIsTraced(s, facts[..|facts| - 1]);
      TraceGrows(s, facts, Fold(s, facts[..|facts| - 1]).value.calls);
    }
  }

  /** An accepted view attempts at most as many model calls as its stated limit allows. */
  lemma AttemptsWithinLimit(v: View, ref: string)
    requires Accepts(v, ref) && v.state.value.authority.Some? && Limited(SubjectOf(v))
    ensures AttemptCount(v.facts) <= Limit(SubjectOf(v))
  {
    hide StepOk, Next;
    var s := SubjectOf(v);
    PassIsTraced(s, v.facts);
    Sets.SubsetSize(AttemptIDs(v.facts), Fold(s, v.facts).value.calls.budgetIDs);
  }

  /** Before each model attempt of an accepted limited view there is an Allow decision for the same
      invocation, before that its reservation, and no earlier attempt of the same invocation. */
  lemma AttemptsAreLicensed(v: View, ref: string, a: nat)
    requires Accepts(v, ref) && Limited(SubjectOf(v)) && a < |v.facts| && ModelAttempt(v.facts[a])
    ensures Licensed(v.facts[..a], v.facts[a].invocationID)
    ensures v.facts[a].invocationID !in AttemptIDs(v.facts[..a])
  {
    hide StepOk, Next;
    var s := SubjectOf(v);
    FoldAt(s, v.facts, a);
    var before := v.facts[..a];
    PassIsTraced(s, before);
    var c := Fold(s, before).value;
    assert CallsOk(s, c.calls, v.facts[a]) by { StepCalls(s, c, v.facts[a]); }
    assert v.facts[..a + 1][..a] == before;
    TraceGrows(s, v.facts[..a + 1], c.calls);
  }

  lemma StepCalls(s: Subject, c: Cursor, f: Fact)
    requires StepOk(s, c, f)
    ensures CallsOk(s, c.calls, f)
  {
  }

  // ---------------------------------------------------------------- one model call

  predicate StageAgrees(calls: Calls, facts: seq<Fact>, id: string, profile: string) {
    if id !in calls.stages || !calls.stages[id].operation.ModelInvoke? then ModelCallStage(facts, id, profile) == Some(0)
    else
      var p := calls.stages[id];
      (p.stage >= 1 ==> p.target == profile && profile != "") &&
      (p.stage == 1 ==> ModelCallStage(facts, id, profile) == Some(1)) &&
      (p.stage == 2 ==> ModelCallStage(facts, id, profile) == Some(2) && p.providerTarget == profile) &&
      (p.stage >= 3 && p.status.Succeeded? ==> ModelCallStage(facts, id, profile) == Some(3))
  }

  predicate LastSucceeded(calls: Calls) {
    calls.lastModel != "" ==>
      calls.lastModel in calls.stages &&
      var p := calls.stages[calls.lastModel];
      p.operation.ModelInvoke? && p.stage >= 3 && p.status.Succeeded?
  }

  lemma StageGrows(s: Subject, facts: seq<Fact>, calls: Calls, id: string)
    requires facts != [] && id != "" && s.state.authority.Some? && CallsOk(s, calls, facts[|facts| - 1])
    requires StageAgrees(calls, facts[..|facts| - 1], id, s.state.authority.value.model)
    ensures StageAgrees(NextCalls(calls, facts[|facts| - 1]), facts, id, s.state.authority.value.model)
  {
    hide ActionOk, ReservationOk;
  }

  lemma LastGrows(s: Subject, calls: Calls, f: Fact)
    requires CallsOk(s, calls, f) && LastSucceeded(calls)
    ensures LastSucceeded(NextCalls(calls, f))
  {
    hide ActionOk, ReservationOk, ModelDecisionOk;
  }

  /** The last model call of an accepted pass that succeeded was allowed, attempted and answered, in this order
      and each once, for the granted profile. */
  lemma {:induction false} LastModelCall(s: Subject, facts: seq<Fact>, id: string)
    requires Fold(s, facts).Some? && s.state.authority.Some? && id != ""
    ensures StageAgrees(Fold(s, facts).value.calls, facts, id, s.state.authority.value.model) && LastSucceeded(Fold(s, facts).value.calls)
    ensures id == Fold(s, facts).value.calls.lastModel ==> SuccessfulModelInvocation(facts, id, s.state.authority.value.model)
  {
    hide CallsOk, LogOk, RuntimeOk, WorkGateOk, AttachedOk, NextCalls, NextLog, NextLife, NextNet;
    if facts != [] {
      var n := |facts| - 1;
      LastModelCall(s, facts[..n], id);
      var c := Fold(s, facts[..n]).value;
      StageGrows(s, facts, c.calls, id);
      LastGrows(s, c.calls, facts[n]);
    }
  }
}
