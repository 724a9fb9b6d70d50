/** What a half-written evidence log is worth: which durable records recovery can finish, and why each fact
    that recovery adds keeps them so. */
module RecoveryEvidence {
  import opened Evidence
  import opened ClientAuthority
  import opened Checker
  import opened Numbering
  import opened Producer
  import Acceptance
  import Protocol

  /** A durable record: the view written so far and the result staged by the work. */
  datatype Stored = Stored(view: View, staged: Option<Outcome>)

  // ---------------------------------------------------------------- views of one log under different states

  predicate Terminal(phase: Phase) { Protocol.TerminalPhase(phase) }

  /** The two subjects differ at most in the claim's phase, the recorded events, the outcome and the recovery note. */
  predicate SameWork(s: Subject, t: Subject) {
    s.ref == t.ref && s.request == t.request && s.state.claim.Some? && t.state.claim.Some? &&
    t.state == s.state.(claim := Some(s.state.claim.value.(phase := t.state.claim.value.phase)), evidence := t.state.evidence)
  }

  lemma LogTransfers(s: Subject, t: Subject, log: Log, f: Fact)
    requires SameWork(s, t) && LogOk(s, log, f) && !f.kind.RunOutcome?
    ensures LogOk(t, log, f) && NextLog(t, log, f) == NextLog(s, log, f)
  {
    hide ValidAuthorityChanges, EnvelopeOk, ProvesAllocation;
    assert EnvelopeOk(t, log, f) by { EnvelopeTransfers(s, t, log, f); }
  }

  lemma EnvelopeTransfers(s: Subject, t: Subject, log: Log, f: Fact)
    requires SameWork(s, t) && EnvelopeOk(s, log, f)
    ensures EnvelopeOk(t, log, f)
  {
  }

  lemma RuntimeTransfers(s: Subject, t: Subject, life: Life, net: Net, f: Fact)
    requires SameWork(s, t) && RuntimeOk(s, life, net, f)
    requires RuntimeTerminal(f.operation) ==> s.state.claim.value.phase == t.state.claim.value.phase
    ensures RuntimeOk(t, life, net, f)
  {
    hide PlainReason;
  }

  lemma StepTransfers(s: Subject, t: Subject, c: Cursor, f: Fact)
    requires SameWork(s, t) && StepOk(s, c, f) && !f.kind.RunOutcome?
    requires f.kind.Runtime? && RuntimeTerminal(f.operation) ==> s.state.claim.value.phase == t.state.claim.value.phase
    ensures StepOk(t, c, f) && Next(t, c, f) == Next(s, c, f)
  {
    hide LogOk, RuntimeOk, NextLog, NextStages, ActionOk;
    LogTransfers(s, t, c.log, f);
    if f.kind.Runtime? { RuntimeTransfers(s, t, c.life, c.net, f); }
  }

  /** A log without an outcome reads the same under any phase, as long as no terminal operation fixed it. */
  lemma {:induction false} FoldTransfers(s: Subject, t: Subject, facts: seq<Fact>)
    requires SameWork(s, t) && Fold(s, facts).Some? && !Fold(s, facts).value.log.outcomeSeen
    requires Fold(s, facts).value.life.terminal ==> s.state.claim.value.phase == t.state.claim.value.phase
    ensures Fold(t, facts) == Fold(s, facts)
  {
    hide StepOk, NextCalls, NextNet;
    if facts != [] {
      var n := |facts| - 1;
      FoldTransfers(s, t, facts[..n]);
      StepTransfers(s, t, Fold(s, facts[..n]).value, facts[n]);
    }
  }

  lemma {:induction false} LogTracks(s: Subject, facts: seq<Fact>)
    requires Fold(s, facts).Some?
    ensures Fold(s, facts).value.log.ids == IDs(facts) && Fold(s, facts).value.log.lastSequence == LastSequence(facts)
  {
    hide StepOk, NextLife, NextCalls, NextNet;
    if facts != [] { LogTracks(s, facts[..|facts| - 1]); }
  }

  // ---------------------------------------------------------------- records that recovery can finish

  predicate Numbered(facts: seq<Fact>) { forall i | 0 <= i < |facts| :: facts[i].id == FactID(facts[i].sequence) }

  /** Every identity used so far belongs to a position already taken. */
  lemma {:induction false} NextIDIsFresh(s: Subject, facts: seq<Fact>, sequence: nat)
    requires Fold(s, facts).Some? && Numbered(facts) && sequence > LastSequence(facts)
    ensures FactID(sequence) !in IDs(facts)
  {
    hide RuntimeOk, CallsOk, WorkGateOk, AttachedOk, AttributionOk, NextLife, NextCalls, NextNet, FactID;
    if facts != [] {
      var n := |facts| - 1;
      LogTracks(s, facts[..n]);
      assert Numbered(facts[..n]);
      NextIDIsFresh(s, facts[..n], sequence);
      if FactID(sequence) == facts[n].id { FactIDInjective(sequence, facts[n].sequence); }
    }
  }

  predicate ReleaseDone(s: Subject, c: Cursor) {
    !c.net.releasePending && (RequiresNetwork(s) || c.net.activationRecorded ==> c.net.releaseStarted)
  }

  predicate SuccessKept(c: Cursor) {
    c.life.running && (c.net.activationRecorded ==> c.net.active) && (forall id | id in c.calls.stages :: !OpenCall(c.calls, id))
  }

  /** The log so far belongs to a bound claim, has no outcome, and agrees with the recorded state. */
  predicate Coherent(s: Subject, c: Cursor) {
    c.log.received == 1 && c.log.resolutions == 1 && c.log.authorityResolved == 1 && !c.log.outcomeSeen && c.log.outcomes == 0 &&
    s.state.claim.Some? && s.state.claim.value.identity.Some? && s.state.decision.result.Allow? &&
    var phase := s.state.claim.value.phase;
    !phase.Pending? && c.life.bound && c.life.events == s.state.evidence.events &&
    (if c.life.terminal then Protocol.TerminalPhaseOf(c.life.terminalOp) == Some(phase) else !Terminal(phase)) &&
    (c.life.cleaned ==> ReleaseDone(s, c)) && (phase.Succeeded? ==> SuccessKept(c))
  }

  /** A staged result fits the log: it names the last model call that succeeded. */
  predicate StagedFits(s: Subject, facts: seq<Fact>, c: Cursor, o: Outcome) {
    o.status.Succeeded? && OutcomeModelOk(s, o, facts, c) && OutcomeCompletionOk(s, o, facts, c)
  }

  predicate Underway(st: Stored, ref: string) {
    var v := st.view;
    v.request.Some? && v.state.Some? && v.state.value.claim.Some? && v.outcome.None? && v.recovery.None? && ValidPreamble(v, ref) && Numbered(v.facts) &&
    Fold(SubjectOf(v), v.facts).Some? && Coherent(SubjectOf(v), Fold(SubjectOf(v), v.facts).value) &&
    (v.state.value.claim.value.phase.Succeeded? && st.staged.Some? && st.staged.value.model.Some? && st.staged.value.text != "" ==>
       StagedFits(SubjectOf(v), v.facts, Fold(SubjectOf(v), v.facts).value, st.staged.value))
  }

  /** The last fact decides whether only the publication of the outcome was lost. */
  function CompletedEvidence(st: Stored): Option<View> {
    var v := st.view;
    if v.state.None? || !ValidIssuedState(v.state.value) || v.state.value.claim.None? || v.facts == [] then None else
    var last, claim := v.facts[|v.facts| - 1], v.state.value.claim.value;
    if !last.kind.RunOutcome? || last.claimID != claim.id || last.requestRef != v.requestRef then None
    else if !Terminal(claim.phase) then None
    else if last.operation != PhaseOp(claim.phase) && !(last.operation.Cancelled? && claim.phase.Failed?) then None
    else if !claim.phase.Succeeded? then Some(v.(outcome := Some(Outcome(last.operation, "", last.reason, None, None))))
    else if st.staged.None? || !st.staged.value.status.Succeeded? || st.staged.value.text == "" || st.staged.value.model.None? then None
    else Some(v.(outcome := Some(Outcome(last.operation, st.staged.value.text, last.reason, st.staged.value.model, st.staged.value.completion))))
  }

  function PhaseOp(phase: Phase): Op {
    match phase
    case Succeeded => Op.Succeeded
    case Expired => Op.Expired
    case Failed => Op.Failed
    case Bound => Op.Bound
    case Running => Op.Running
    case _ => Op.Pending
  }

  predicate Done(st: Stored, ref: string) { CompletedEvidence(st).Some? && Accepts(CompletedEvidence(st).value, ref) }

  predicate Recoverable(st: Stored, ref: string) { Underway(st, ref) || Done(st, ref) }

  // ---------------------------------------------------------------- one recovery fact

  function AdvancedBy(st: State, op: Op): State
    requires st.claim.Some?
  {
    st.(claim := Some(st.claim.value.(phase := if op.Failed? then Phase.Failed else st.claim.value.phase)),
        evidence := st.evidence.(events := st.evidence.events + [op]))
  }

  predicate RecoveryFact(st: State, op: Op, f: Fact) {
    st.claim.Some? &&
    Bare(f).(reason := "") ==
      BLANK_FACT.(kind := Kind.Runtime, requestRef := st.requestRef, claimID := st.claim.value.id, identity := st.claim.value.identity, operation := op,
                  code := RecoveryCode(op), policyRef := Some(st.policyRef), target := if NetworkRevocation(op) then "work-network" else "") &&
    (NetworkRevocation(op) ==> PlainReason(f.reason))
  }

  predicate NextStamp(facts: seq<Fact>, f: Fact) {
    f.id == FactID(f.sequence) && f.sequence > LastSequence(facts) && f.timestamp != 0
  }

  /** What recovery may record next. */
  predicate MayRecover(s: Subject, c: Cursor, op: Op) {
    match op
    case Failed => !c.life.terminal
    case NetworkRevocationAttempt => c.life.terminal && !c.life.cleaned
    case NetworkRevoked => c.life.terminal && !c.life.cleaned && c.net.releasePending
    case NetworkRevocationFailed => c.life.terminal && !c.life.cleaned && c.net.releasePending
    case TerminateSucceeded => c.life.terminal && !c.life.terminated && !c.life.cleaned
    case TerminateFailed => c.life.terminal && !c.life.terminated && !c.life.cleaned
    case CleanupSucceeded => c.life.terminal && c.life.terminated && !c.life.cleaned && ReleaseDone(s, c)
    case _ => false
  }

  /** What a recovery fact says, field by field. */
  lemma RecoveryFields(st: State, op: Op, f: Fact)
    requires RecoveryFact(st, op, f)
    ensures f.kind.Runtime? && f.operation == op && f.identity == st.claim.value.identity && f.code == RecoveryCode(op) && f.claimID == st.claim.value.id
    ensures f.requestRef == st.requestRef && f.policyRef == Some(st.policyRef) && f.invocationID == "" && f.decision.None?
    ensures f.result.NoResult? && f.authority.None? && f.changes == [] && f.status.NoStatus? && f.turn == 0 && f.actionRef == "" && !DeclaresAction(f)
    ensures f.callCount == 0 && f.callLimit == 0 && (NetworkRevocation(op) ==> f.target == "work-network" && PlainReason(f.reason))
  {
    hide PlainReason;
    assert Bare(f).(reason := "").identity == f.identity;
  }

  lemma RecoveryRuntimeOk(s: Subject, c: Cursor, op: Op, f: Fact)
    requires Coherent(s, c) && MayRecover(s, c, op) && RecoveryFact(s.state, op, f)
    ensures RuntimeOk(s.(state := AdvancedBy(s.state, op)), c.life, c.net, f)
  {
    hide RecoveryFact, PlainReason, SuccessKept;
    RecoveryFields(s.state, op, f);
    var t := s.(state := AdvancedBy(s.state, op));
    assert ValidRuntimeOperation(op, t.state.claim.value.phase, true, c.life);
    assert NetworkOp(op) ==> ValidNetworkFact(t, f);
    assert NetworkOp(op) ==> NetworkOk(t, c.life, c.net, f);
  }

  lemma RecoveryAttached(s: Subject, c: Cursor, op: Op, f: Fact, facts: seq<Fact>)
    requires Coherent(s, c) && MayRecover(s, c, op) && RecoveryFact(s.state, op, f) && ValidSubject(s)
    requires c.log.ids == IDs(facts) && c.log.lastSequence == LastSequence(facts) && NextStamp(facts, f) && f.id !in IDs(facts)
    ensures LogOk(s.(state := AdvancedBy(s.state, op)), c.log, f) && AttachedOk(s.(state := AdvancedBy(s.state, op)), f)
  {
    hide RecoveryFact, PlainReason, SuccessKept, ReleaseDone, ValidTrail, IDs, LastSequence, Decimal;
    RecoveryFields(s.state, op, f);
  }

  lemma RecoveryKeepsCoherent(s: Subject, c: Cursor, op: Op, f: Fact)
    requires Coherent(s, c) && MayRecover(s, c, op) && RecoveryFact(s.state, op, f)
    ensures NextCalls(c.calls, f) == c.calls
    ensures Coherent(s.(state := AdvancedBy(s.state, op)), Next(s.(state := AdvancedBy(s.state, op)), c, f))
  {
    hide RecoveryFact, PlainReason;
    RecoveryFields(s.state, op, f);
  }

  // ---------------------------------------------------------------- the record after one recovery fact

  function WithFact(st: Stored, op: Op, f: Fact): Stored
    requires st.view.state.Some? && st.view.state.value.claim.Some?
  {
    st.(view := st.view.(facts := st.view.facts + [f], state := Some(AdvancedBy(st.view.state.value, op))))
  }

  lemma PreambleStays(v: View, ref: string, op: Op)
    requires ValidPreamble(v, ref) && v.state.value.claim.Some? && v.state.value.decision.result.Allow?
    requires op.Failed? ==> v.state.value.claim.value.identity.Some?
    ensures forall facts :: ValidPreamble(v.(facts := facts, state := Some(AdvancedBy(v.state.value, op))), ref)
  {
    hide ValidClaimRequest, AuthorityWithinRequest;
  }

  /** A fact outside every invocation leaves the stage of each model call as it was. */
  lemma QuietStage(facts: seq<Fact>, f: Fact, id: string, profile: string)
    requires f.invocationID == "" && id != ""
    ensures ModelCallStage(facts + [f], id, profile) == ModelCallStage(facts, id, profile)
  {
    assert (facts + [f])[..|facts|] == facts;
  }

  lemma StagedStays(s: Subject, t: Subject, facts: seq<Fact>, c: Cursor, d: Cursor, o: Outcome, f: Fact)
    requires StagedFits(s, facts, c, o) && SameWork(s, t) && d.calls == c.calls && f.invocationID == "" && !f.operation.FinalAnswer?
    ensures StagedFits(t, facts + [f], d, o)
  {
    hide ModelCallStage, LimitDenied, Answered;
    Acceptance.LastFact(facts, f);
    if o.model.Some? { QuietStage(facts, f, o.model.value.invocationID, s.state.authority.value.model); }
  }

  lemma MayRecoverOps(s: Subject, c: Cursor, op: Op)
    requires MayRecover(s, c, op)
    ensures !op.FinalAnswer? && !op.Succeeded? && (op.Failed? ==> !c.life.terminal)
  {
  }

  /** Each fact that recovery adds keeps the record recoverable, and moves the checker's cursor on. */
  lemma RecoveryStep(st: Stored, ref: string, op: Op, f: Fact)
    requires Underway(st, ref) && MayRecover(SubjectOf(st.view), Fold(SubjectOf(st.view), st.view.facts).value, op)
    requires RecoveryFact(st.view.state.value, op, f) && NextStamp(st.view.facts, f)
    ensures Underway(WithFact(st, op, f), ref)
    ensures var s, t := SubjectOf(st.view), SubjectOf(WithFact(st, op, f).view);
            Fold(t, st.view.facts + [f]) == Some(Next(t, Fold(s, st.view.facts).value, f))
  {
    hide StepOk, Next, Fold, ValidPreamble, RecoveryFact, SuccessKept, ReleaseDone, MayRecover, StagedFits, NextStamp, FactID, IDs, LastSequence, CallsOk, AttachedOk, LogOk, RuntimeOk;
    var s, facts := SubjectOf(st.view), st.view.facts;
    var after := WithFact(st, op, f);
    var t := SubjectOf(after.view);
    var c := Fold(s, facts).value;
    NextRecoveryAccepted(st, ref, op, f);
    assert (facts + [f])[..|facts|] == facts && (facts + [f])[..|facts| + 1] == facts + [f];
    FoldStep(t, facts + [f], |facts|);
    PreambleStays(st.view, ref, op);
    StagedAfter(st, ref, op, f);
    NumberedAfter(facts, f);
  }

  lemma NumberedAfter(facts: seq<Fact>, f: Fact)
    requires Numbered(facts) && NextStamp(facts, f)
    ensures Numbered(facts + [f])
  {
    hide FactID;
  }

  lemma NextRecoveryAccepted(st: Stored, ref: string, op: Op, f: Fact)
    requires Underway(st, ref) && MayRecover(SubjectOf(st.view), Fold(SubjectOf(st.view), st.view.facts).value, op)
    requires RecoveryFact(st.view.state.value, op, f) && NextStamp(st.view.facts, f)
    ensures var s, t := SubjectOf(st.view), SubjectOf(WithFact(st, op, f).view);
            var c := Fold(s, st.view.facts).value;
            Fold(t, st.view.facts) == Some(c) && StepOk(t, c, f) && Coherent(t, Next(t, c, f)) && Next(t, c, f).calls == c.calls
  {
    hide Fold, ValidPreamble, RecoveryFact, NextStamp, FactID, IDs, LastSequence, CallsOk, AttachedOk, LogOk, RuntimeOk, NextLog, NextLife, NextNet, NextCalls,
         MayRecover, SuccessKept, ReleaseDone;
    var s, facts := SubjectOf(st.view), st.view.facts;
    var t, c := SubjectOf(WithFact(st, op, f).view), Fold(s, facts).value;
    MayRecoverOps(s, c, op);
    FoldTransfers(s, t, facts);
    LogTracks(s, facts);
    SubjectIsValid(st.view, ref);
    StampIsFresh(s, facts, f);
    RecoveryAttached(s, c, op, f, facts);
    RecoveryRuntimeOk(s, c, op, f);
    RecoveryKeepsCoherent(s, c, op, f);
    RecoveryFields(s.state, op, f);
    QuietCalls(t, c.calls, f);
    assert t == s.(state := AdvancedBy(s.state, op));
  }

  lemma SubjectIsValid(v: View, ref: string)
    requires ValidPreamble(v, ref)
    ensures ValidSubject(SubjectOf(v)) && v.requestRef == ref && v.state.value.requestRef == ref
  {
    hide ValidClaimRequest, ValidIssuedState, AuthorityWithinRequest;
  }

  lemma StampIsFresh(s: Subject, facts: seq<Fact>, f: Fact)
    requires Fold(s, facts).Some? && Numbered(facts) && NextStamp(facts, f)
    ensures f.id !in IDs(facts)
  {
    hide Fold, FactID, IDs, LastSequence;
    NextIDIsFresh(s, facts, f.sequence);
  }

  lemma StagedAfter(st: Stored, ref: string, op: Op, f: Fact)
    requires Underway(st, ref) && MayRecover(SubjectOf(st.view), Fold(SubjectOf(st.view), st.view.facts).value, op)
    requires RecoveryFact(st.view.state.value, op, f)
    ensures var s, t := SubjectOf(st.view), SubjectOf(WithFact(st, op, f).view);
            var c := Fold(s, st.view.facts).value;
            t.state.claim.value.phase.Succeeded? && st.staged.Some? && st.staged.value.model.Some? && st.staged.value.text != "" ==>
              StagedFits(t, st.view.facts + [f], Next(t, c, f), st.staged.value)
  {
    hide Fold, ValidPreamble, RecoveryFact, Coherent, StagedFits, NextLog, NextLife, NextNet, NextCalls, MayRecover;
    var s, t := SubjectOf(st.view), SubjectOf(WithFact(st, op, f).view);
    var c := Fold(s, st.view.facts).value;
    if t.state.claim.value.phase.Succeeded? && st.staged.Some? && st.staged.value.model.Some? && st.staged.value.text != "" {
      MayRecoverOps(s, c, op);
      RecoveryFields(s.state, op, f);
      QuietCalls(t, c.calls, f);
      StagedStays(s, t, st.view.facts, c, Next(t, c, f), st.staged.value, f);
    }
  }

  // ---------------------------------------------------------------- reading a half-written log

  datatype Scan = Scan(terminal: bool, kind: Op, terminated: bool, cleaned: bool)

  const UNSCANNED := Scan(false, NoOp, false, false)

  predicate ScanRefuses(f: Fact, ref: string) {
    f.requestRef != ref || f.kind.RunOutcome? || (f.kind.Runtime? && f.operation.CleanupFailed?)
  }

  predicate ScanTerminal(op: Op) {
    op.Succeeded? || op.Failed? || op.Expired? || op.Cancelled? || op.StartFailed? || op.NetworkActivationFailed?
  }

  function NextScan(scan: Scan, f: Fact): Scan {
    if !f.kind.Runtime? then scan else
    Scan(scan.terminal || ScanTerminal(f.operation), if ScanTerminal(f.operation) then f.operation else scan.kind,
         scan.terminated || Termination(f.operation), scan.cleaned || f.operation.CleanupSucceeded?)
  }

  /** What recovery reads from the facts; nothing when it must not touch them. */
  function ScanFacts(facts: seq<Fact>, ref: string): Option<Scan> {
    if facts == [] then Some(UNSCANNED) else
    var before, f := ScanFacts(facts[..|facts| - 1], ref), facts[|facts| - 1];
    if before.None? || ScanRefuses(f, ref) then None else Some(NextScan(before.value, f))
  }

  lemma ScanStep(s: Subject, c: Cursor, f: Fact, scan: Scan)
    requires StepOk(s, c, f) && s.state.claim.Some? && s.state.claim.value.identity.Some? && !ScanRefuses(f, s.ref)
    requires scan == Scan(c.life.terminal, c.life.terminalOp, c.life.terminated, c.life.cleaned)
    ensures var life := Next(s, c, f).life; NextScan(scan, f) == Scan(life.terminal, life.terminalOp, life.terminated, life.cleaned)
  {
    hide LogOk, NetworkOk, CallsOk, WorkGateOk, AttachedOk, NextLog, NextNet, NextCalls;
  }

  /** On an accepted log the scan reads the checker's own lifecycle. */
  lemma {:induction false} ScanAgrees(s: Subject, facts: seq<Fact>)
    requires Fold(s, facts).Some? && s.state.claim.Some? && s.state.claim.value.identity.Some? && ScanFacts(facts, s.ref).Some?
    ensures var life := Fold(s, facts).value.life;
            ScanFacts(facts, s.ref) == Some(Scan(life.terminal, life.terminalOp, life.terminated, life.cleaned))
  {
    hide StepOk, Next, ScanRefuses, NextScan;
    if facts != [] {
      var n := |facts| - 1;
      ScanAgrees(s, facts[..n]);
      ScanStep(s, Fold(s, facts[..n]).value, facts[n], ScanFacts(facts[..n], s.ref).value);
    }
  }

  /** Some recorded event concerns the network. */
  predicate HasNetwork(ops: seq<Op>) { ops != [] && (HasNetwork(ops[..|ops| - 1]) || NetworkNamed(ops[|ops| - 1])) }

  predicate NetworkNamed(op: Op) { NetworkOp(op) || (op.OtherOp? && "Network" <= op.name) }

  lemma {:induction false} NetworkIsNamed(s: Subject, facts: seq<Fact>)
    requires Fold(s, facts).Some?
    ensures var c := Fold(s, facts).value; c.net != START.net ==> HasNetwork(c.life.events)
  {
    hide StepOk, NextLog, NextCalls;
    if facts != [] { NetworkIsNamed(s, facts[..|facts| - 1]); }
  }

  predicate NetworkMarker(f: Fact) {
    (f.kind.Runtime? && NetworkNamed(f.operation)) || (f.identity.Some? && f.identity.value.allocation != "") ||
    (f.authority.Some? && f.authority.value.network != [])
  }

  predicate StateMarker(st: State) {
    (st.claim.Some? && st.claim.value.identity.Some? && st.claim.value.identity.value.allocation != "") ||
    (st.authority.Some? && st.authority.value.network != []) || HasNetwork(st.evidence.events)
  }

  /** Any durable sign of network authority forbids releasing the worker as if it had none. */
  predicate RequiresNetworkRelease(v: View) {
    (v.request.Some? && v.request.value.access.network != []) || (v.state.Some? && StateMarker(v.state.value)) ||
    exists i | 0 <= i < |v.facts| :: NetworkMarker(v.facts[i])
  }

  lemma UnmarkedHasNoNetwork(st: Stored, ref: string)
    requires Underway(st, ref) && !RequiresNetworkRelease(st.view)
    ensures ReleaseDone(SubjectOf(st.view), Fold(SubjectOf(st.view), st.view.facts).value)
  {
    hide Fold, ValidPreamble;
    NetworkIsNamed(SubjectOf(st.view), st.view.facts);
  }

  // ---------------------------------------------------------------- finishing the record

  const INTERRUPTED := "The service was interrupted. " + "Runtime release was verified; " + "uncertain external operations were not replayed."

  function RecoveredStatus(phase: Phase, kind: Op): Op { if kind.Cancelled? then Op.Cancelled else PhaseOp(phase) }

  function RecoveredOutcome(phase: Phase, kind: Op, staged: Option<Outcome>): Outcome {
    if phase.Succeeded? && staged.Some? then
      Outcome(RecoveredStatus(phase, kind), staged.value.text, "", staged.value.model, staged.value.completion)
    else Outcome(RecoveredStatus(phase, kind), "", INTERRUPTED, None, None)
  }

  predicate RecoveredFact(st: State, o: Outcome, f: Fact) {
    st.claim.Some? &&
    Bare(f) == BLANK_FACT.(kind := RunOutcome, requestRef := st.requestRef, claimID := st.claim.value.id, operation := o.status,
                           code := RecoveredInterruption, reason := o.failure)
  }

  function Published(v: View, f: Fact, o: Outcome): View { v.(facts := v.facts + [f], outcome := Some(o)) }

  predicate ReadyToPublish(st: Stored, ref: string) {
    Underway(st, ref) &&
    var c, phase := Fold(SubjectOf(st.view), st.view.facts).value, st.view.state.value.claim.value.phase;
    c.life.terminal && c.life.terminated && c.life.cleaned &&
    (phase.Succeeded? ==> st.staged.Some? && st.staged.value.model.Some? && st.staged.value.text != "")
  }

  lemma InterruptedIsText()
    ensures !Blank(INTERRUPTED) && |INTERRUPTED| <= 4096
  {
    assert INTERRUPTED[0] == 'T' && !IsSpace('T');
  }

  lemma RecoveredFields(st: State, o: Outcome, f: Fact)
    requires RecoveredFact(st, o, f)
    ensures f.kind.RunOutcome? && f.operation == o.status && f.reason == o.failure && f.code.RecoveredInterruption?
    ensures f.claimID == st.claim.value.id && f.requestRef == st.requestRef && f.invocationID == "" && f.identity.None? && f.decision.None?
    ensures f.authority.None? && f.result.NoResult? && f.policyRef.None? && f.turn == 0 && f.actionRef == "" && !DeclaresAction(f)
    ensures f.callCount == 0 && f.callLimit == 0
  {
    assert Bare(f).operation == f.operation;
  }

  lemma RecoveredFactAccepted(s: Subject, c: Cursor, o: Outcome, f: Fact, facts: seq<Fact>)
    requires Coherent(s, c) && c.life.terminal && o.status == RecoveredStatus(s.state.claim.value.phase, c.life.terminalOp) && s.state.requestRef == s.ref
    requires RecoveredFact(s.state, o, f) && s.outcome == Some(o) && s.state.claim.value.id != ""
    requires c.log.ids == IDs(facts) && c.log.lastSequence == LastSequence(facts) && NextStamp(facts, f) && f.id !in IDs(facts)
    ensures StepOk(s, c, f)
    ensures Next(s, c, f) == c.(log := Log(c.log.ids + {f.id}, f.sequence, 1, 1, 1, true, 1, RecoveredInterruption))
  {
    hide RecoveredFact, SuccessKept, ReleaseDone, Decimal, IDs, LastSequence;
    RecoveredFields(s.state, o, f);
  }

  /** The outcome of a released record is accepted. */
  lemma RecoveredOutcomeOk(s: Subject, c: Cursor, d: Cursor, o: Outcome, facts: seq<Fact>, f: Fact, staged: Option<Outcome>)
    requires Coherent(s, c) && c.life.terminal && c.life.terminated && c.life.cleaned
    requires o == RecoveredOutcome(s.state.claim.value.phase, c.life.terminalOp, staged)
    requires s.state.claim.value.phase.Succeeded? ==> staged.Some? && StagedFits(s, facts, c, staged.value)
    requires d == c.(log := d.log) && d.log.authorityResolved == 1 && d.log.outcomes == 1 && d.log.outcomeCode.RecoveredInterruption?
    requires f.invocationID == "" && !f.operation.FinalAnswer?
    ensures OutcomeOk(s, o, facts + [f], d)
  {
    hide Blank, ModelCallStage, LimitDenied, Answered;
    InterruptedIsText();
    if staged.Some? && s.state.claim.value.phase.Succeeded? { StagedStays(s, s, facts, c, d, staged.value, f); }
  }

  lemma PublishedPreamble(v: View, ref: string, f: Fact, o: Outcome)
    requires ValidPreamble(v, ref) && v.recovery.None?
    ensures ValidPreamble(Published(v, f, o), ref) && ValidSubject(SubjectOf(v)) && ValidIssuedState(v.state.value) && v.requestRef == ref
    ensures v.state.value.requestRef == ref
  {
    hide ValidClaimRequest, ValidIssuedState, AuthorityWithinRequest;
  }

  lemma SubjectNames(s: Subject)
    requires ValidSubject(s) && s.state.claim.Some? && s.state.decision.result.Allow?
    ensures s.state.requestRef == s.ref && s.state.claim.value.id != ""
  {
    hide ValidTrail, AuthorityWithinRequest;
  }

  /** Publishing the outcome of a released record gives a view that the client accepts. */
  lemma PublishStep(st: Stored, ref: string, o: Outcome, f: Fact)
    requires ReadyToPublish(st, ref) && RecoveredFact(st.view.state.value, o, f) && NextStamp(st.view.facts, f)
    requires o == RecoveredOutcome(st.view.state.value.claim.value.phase, Fold(SubjectOf(st.view), st.view.facts).value.life.terminalOp, st.staged)
    ensures Accepts(Published(st.view, f, o), ref)
  {
    hide StepOk, Next, Fold, ValidPreamble, RecoveredFact, SuccessKept, StagedFits, NextStamp, IDs, LastSequence, ValidSubject, OutcomeOk,
         RecoveredOutcome, ValidIssuedState;
    var facts, s := st.view.facts, SubjectOf(st.view);
    var t, c := SubjectOf(Published(st.view, f, o)), Fold(s, facts).value;
    PublishedPreamble(st.view, ref, f, o);
    SubjectNames(s);
    FoldTransfers(s, t, facts);
    LogTracks(s, facts);
    StampIsFresh(s, facts, f);
    OutcomeStatus(s.state.claim.value.phase, c.life.terminalOp, st.staged);
    RecoveredFactAccepted(t, c, o, f, facts);
    RecoveredFields(s.state, o, f);
    OutcomeIsNoAnswer(s.state.claim.value.phase, c.life.terminalOp);
    if s.state.claim.value.phase.Succeeded? { StagedElsewhere(s, t, facts, c, st.staged.value); }
    RecoveredOutcomeOk(t, c, Next(t, c, f), o, facts, f, st.staged);
    assert (facts + [f])[..|facts|] == facts && (facts + [f])[..|facts| + 1] == facts + [f];
    FoldStep(t, facts + [f], |facts|);
  }

  lemma StagedElsewhere(s: Subject, t: Subject, facts: seq<Fact>, c: Cursor, o: Outcome)
    requires StagedFits(s, facts, c, o) && SameWork(s, t)
    ensures StagedFits(t, facts, c, o)
  {
    hide ModelCallStage, LimitDenied, Answered;
  }

  lemma OutcomeStatus(phase: Phase, kind: Op, staged: Option<Outcome>)
    ensures RecoveredOutcome(phase, kind, staged).status == RecoveredStatus(phase, kind)
  {
  }

  lemma OutcomeIsNoAnswer(phase: Phase, kind: Op)
    ensures !RecoveredStatus(phase, kind).FinalAnswer?
  {
  }

  /** If a crash loses only the publication, the same view is completed from the record. */
  lemma PublishedCompletes(st: Stored, ref: string, o: Outcome, f: Fact)
    requires ReadyToPublish(st, ref) && RecoveredFact(st.view.state.value, o, f) && ValidIssuedState(st.view.state.value)
    requires st.view.state.value.requestRef == st.view.requestRef
    requires o == RecoveredOutcome(st.view.state.value.claim.value.phase, Fold(SubjectOf(st.view), st.view.facts).value.life.terminalOp, st.staged)
    ensures CompletedEvidence(st.(view := st.view.(facts := st.view.facts + [f]))) == Some(Published(st.view, f, o))
  {
    hide Fold, ValidPreamble, RecoveredFact, SuccessKept, ReleaseDone, OutcomeModelOk, OutcomeCompletionOk, ValidIssuedState;
    RecoveredFields(st.view.state.value, o, f);
  }
}
