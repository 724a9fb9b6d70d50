/** What every legal trace of a run keeps, said about the trace alone: the order of the release calls,
    when work may be dispatched, when success may be published, and how phases and bindings move. */
module Discipline {
  import opened Evidence
  import opened Protocol

  /** Each event of a legal trace was allowed by the events before it. */
  lemma {:induction false} LegalAt(claim: string, trace: seq<Event>, i: nat)
    requires Legal(claim, trace) && i < |trace|
    ensures Legal(claim, trace[..i]) && Guard(RunOf(claim, trace[..i]), trace[i])
    ensures RunOf(claim, trace[..i + 1]) == After(RunOf(claim, trace[..i]), trace[i])
    decreases |trace|
  {
    hide Guard, After;
    var n := |trace| - 1;
    if i < n {
      LegalAt(claim, trace[..n], i);
      assert trace[..n][..i] == trace[..i] && trace[..n][..i + 1] == trace[..i + 1];
    } else {
      assert trace[..i + 1] == trace;
    }
  }

  // ---------------------------------------------------------------- what a trace records

  predicate Happened(trace: seq<Event>, p: Event -> bool) {
    trace != [] && (Happened(trace[..|trace| - 1], p) || p(trace[|trace| - 1]))
  }

  lemma {:induction false} HappenedSomewhere(trace: seq<Event>, p: Event -> bool)
    ensures Happened(trace, p) <==> exists j | 0 <= j < |trace| :: p(trace[j])
  {
    if trace != [] {
      var n := |trace| - 1;
      HappenedSomewhere(trace[..n], p);
      assert forall j | 0 <= j < n :: trace[..n][j] == trace[j];
      if Happened(trace[..n], p) {
        var j :| 0 <= j < n && p(trace[..n][j]);
        assert p(trace[j]);
      }
    }
  }

  function Count(trace: seq<Event>, p: Event -> bool): nat {
    if trace == [] then 0 else Count(trace[..|trace| - 1], p) + if p(trace[|trace| - 1]) then 1 else 0
  }

  predicate LostWrite(e: Event) { e.Wrote? && !e.ok }
  predicate EndWrite(e: Event) { e.Wrote? && TerminalPhaseOf(e.op).Some? }
  predicate Dispatch(e: Event) { e.Dispatched? }
  predicate StartedWell(e: Event) { e.Started? && e.ok }
  predicate StartFailed(e: Event) { e.Started? && !e.ok }
  predicate IsUnsupported(e: Event) { e.Unsupported? }
  predicate IsUnusable(e: Event) { e.Allocated? && e.offer.None? }
  predicate IsUnallocated(e: Event) { IsUnsupported(e) || IsUnusable(e) }
  predicate IsTaken(e: Event) { e.Taken? }
  predicate Mismatched(e: Event) { e.Observed? && !e.sound }
  predicate HasWrapped(e: Event) { e.Wrapped? }
  predicate ActiveWrite(e: Event) { e.Wrote? && e.op.NetworkActive? && e.ok }

  /** The work was dispatched and has not returned. */
  predicate WorkOpen(trace: seq<Event>) {
    trace != [] && (trace[|trace| - 1].Dispatched? || (WorkOpen(trace[..|trace| - 1]) && !trace[|trace| - 1].Returned?))
  }

  /** A write or a call that may take time; readings made before it say nothing about what follows it. */
  predicate Blocks(e: Event) {
    e.Wrote? || e.Allocated? || e.Observed? || e.Started? || e.Activated? || e.Returned? || e.Revoked? || e.Terminated? || e.Cleaned?
  }

  /** The clock was read before the run's deadline since the last write or call, and last so. */
  predicate InTime(trace: seq<Event>) {
    trace != [] &&
    var e, before := trace[|trace| - 1], trace[..|trace| - 1];
    if e.SawClock? then Before(GrantIn(before), e.now) else !Blocks(e) && InTime(before)
  }

  /** Some reading of the clock was not before the run's deadline. */
  predicate SawLate(trace: seq<Event>) {
    trace != [] &&
    var e, before := trace[|trace| - 1], trace[..|trace| - 1];
    SawLate(before) || (e.SawClock? && Passed(GrantIn(before), e.now))
  }

  /** The context was read as live since the last write or call, and last so. */
  predicate InContext(trace: seq<Event>) {
    trace != [] &&
    var e, before := trace[|trace| - 1], trace[..|trace| - 1];
    if e.SawContext? then e.context.Live? else !Blocks(e) && InContext(before)
  }

  function LastContext(trace: seq<Event>): Context {
    if trace == [] then Live else if trace[|trace| - 1].SawContext? then trace[|trace| - 1].context else LastContext(trace[..|trace| - 1])
  }

  predicate ReturnedBadly(trace: seq<Event>) {
    trace != [] && (if trace[|trace| - 1].Returned? then !trace[|trace| - 1].ok else ReturnedBadly(trace[..|trace| - 1]))
  }

  predicate ReturnedWell(trace: seq<Event>) {
    trace != [] && (if trace[|trace| - 1].Returned? then trace[|trace| - 1].ok else ReturnedWell(trace[..|trace| - 1]))
  }

  function GrantIn(trace: seq<Event>): Option<NetworkAuthority> {
    if trace == [] then None else if trace[|trace| - 1].Granted? then Some(trace[|trace| - 1].authority) else GrantIn(trace[..|trace| - 1])
  }

  /** The worker that the last allocation offered, if it offered one. */
  function OfferIn(trace: seq<Event>): Option<Identity> {
    if trace == [] then None else if trace[|trace| - 1].Allocated? then trace[|trace| - 1].offer else OfferIn(trace[..|trace| - 1])
  }

  function ReservedIn(trace: seq<Event>): Option<Identity> {
    if trace == [] then None else if trace[|trace| - 1].Reserved? then Some(trace[|trace| - 1].identity) else ReservedIn(trace[..|trace| - 1])
  }

  /** The evidence of an answer names this claim and worker and what was granted, at a known level. */
  predicate Shows(e: Option<NetworkEvidence>, claim: string, worker: Identity, grant: Option<NetworkAuthority>) {
    e.Some? && grant.Some? && e.value.claim == claim && e.value.identity == worker &&
    e.value.profiles == grant.value.profiles && e.value.expires == grant.value.expires && !e.value.level.OtherLevel?
  }

  /** Some activation of the reserved worker answered that it is active as granted. */
  predicate ActivatedAsGranted(claim: string, trace: seq<Event>) {
    trace != [] &&
    var e, before := trace[|trace| - 1], trace[..|trace| - 1];
    ActivatedAsGranted(claim, before) ||
    (e.Activated? && Some(e.identity) == ReservedIn(before) && Shows(e.evidence, claim, e.identity, GrantIn(before)) && e.evidence.value.state.ActiveState?)
  }

  /** Some activation failed, or answered with something else. */
  predicate ActivatedOtherwise(claim: string, trace: seq<Event>) {
    trace != [] &&
    var e, before := trace[|trace| - 1], trace[..|trace| - 1];
    ActivatedOtherwise(claim, before) ||
    (e.Activated? && !(Shows(e.evidence, claim, e.identity, GrantIn(before)) && e.evidence.value.state.ActiveState?))
  }

  // ---------------------------------------------------------------- the run agrees with its trace

  lemma AfterFields(r: Run, e: Event)
    ensures After(r, e).claim == r.claim
    ensures After(r, e).clean == (r.clean && !LostWrite(e))
    ensures After(r, e).phase == if e.Wrote? then PhaseAfter(r.phase, e.op) else r.phase
    ensures After(r, e).grant == if e.Granted? then Some(e.authority) else r.grant
    ensures After(r, e).reserved == if e.Reserved? then Some(e.identity) else r.reserved
    ensures After(r, e).bound == if e.Wrote? && e.op.Bound? then r.reserved else r.bound
    ensures After(r, e).inserted == (r.inserted || (e.Wrote? && e.op.Pending?))
    ensures After(r, e).offer == if e.Allocated? then e.offer else r.offer
    ensures After(r, e).work == if e.Dispatched? then Active else if e.Returned? then Joined(e.ok) else r.work
  {
    hide PhaseAfter, StepsAfter, ReleaseAfter, TerminalPhaseOf, Matches;
  }

  lemma AfterIsWrite(r: Run, op: Op, ok: bool)
    ensures After(r, Wrote(op, ok)) == AfterWrite(r, op, ok)
  {
  }

  lemma AfterName(r: Run, e: Event)
    ensures After(r, e).terminalOp == if EndWrite(e) then e.op else r.terminalOp
    ensures After(r, e).events == if e.Wrote? && !e.op.Pending? then r.events + [e.op] else r.events
  {
    hide PhaseAfter, StepsAfter, ReleaseAfter, TerminalPhaseOf, Matches;
  }

  /** A write moves the phase along an allowed transition or not at all. */
  lemma WriteMovesPhase(r: Run, op: Op)
    requires MayWrite(r, op) && !r.phase.UnknownPhase?
    ensures PhaseAfter(r.phase, op) == r.phase || AllowedTransition(r.phase, PhaseAfter(r.phase, op))
    ensures TerminalPhaseOf(op).Some? ==> !TerminalPhase(r.phase) && TerminalPhase(PhaseAfter(r.phase, op))
    ensures TerminalPhaseOf(op).None? ==> TerminalPhase(PhaseAfter(r.phase, op)) == TerminalPhase(r.phase)
    ensures op.Bound? ==> r.phase.Pending? && r.reserved.Some?
    ensures op.Succeeded? ==> r.phase.Running?
  {
  }

  lemma {:induction false} WritesAgree(claim: string, trace: seq<Event>)
    requires Legal(claim, trace)
    ensures RunOf(claim, trace).clean <==> !Happened(trace, LostWrite)
    ensures RunOf(claim, trace).reserved == ReservedIn(trace) && RunOf(claim, trace).grant == GrantIn(trace)
    ensures RunOf(claim, trace).claim == claim && RunOf(claim, trace).offer == OfferIn(trace)
  {
    hide Guard, After;
    if trace != [] {
      WritesAgree(claim, trace[..|trace| - 1]);
      AfterFields(RunOf(claim, trace[..|trace| - 1]), trace[|trace| - 1]);
    }
  }

  lemma {:induction false} EndAgrees(claim: string, trace: seq<Event>)
    requires Legal(claim, trace)
    ensures !RunOf(claim, trace).phase.UnknownPhase?
    ensures Count(trace, EndWrite) == if TerminalPhase(RunOf(claim, trace).phase) then 1 else 0
  {
    hide After, MayWrite, PhaseAfter, TerminalPhaseOf;
    if trace != [] {
      var before, e := trace[..|trace| - 1], trace[|trace| - 1];
      EndAgrees(claim, before);
      AfterFields(RunOf(claim, before), e);
      if e.Wrote? { WriteMovesPhase(RunOf(claim, before), e.op); }
    }
  }

  lemma {:induction false} WorkAgrees(claim: string, trace: seq<Event>)
    requires Legal(claim, trace)
    ensures RunOf(claim, trace).work.Active? <==> WorkOpen(trace)
    ensures Count(trace, Dispatch) == if RunOf(claim, trace).work.Idle? then 0 else 1
    ensures RunOf(claim, trace).work == Joined(true) <==> ReturnedWell(trace) && !WorkOpen(trace)
    ensures RunOf(claim, trace).work == Joined(false) <==> ReturnedBadly(trace) && !WorkOpen(trace)
  {
    hide After, MayWrite;
    if trace != [] {
      WorkAgrees(claim, trace[..|trace| - 1]);
      AfterFields(RunOf(claim, trace[..|trace| - 1]), trace[|trace| - 1]);
    }
  }

  lemma AfterChecks(r: Run, e: Event)
    ensures After(r, e).checks.clock == if e.SawClock? then Before(r.grant, e.now) else !Blocks(e) && r.checks.clock
    ensures After(r, e).checks.context == if e.SawContext? then e.context.Live? else !Blocks(e) && r.checks.context
    ensures After(r, e).checks.late == (r.checks.late || (e.SawClock? && Passed(r.grant, e.now)))
    ensures After(r, e).checks.ended == if e.SawContext? then e.context else r.checks.ended
  {
    hide PhaseAfter, StepsAfter, ReleaseAfter, TerminalPhaseOf, Matches;
  }

  lemma {:induction false} ChecksAgree(claim: string, trace: seq<Event>)
    requires Legal(claim, trace)
    ensures RunOf(claim, trace).checks.clock <==> InTime(trace)
    ensures RunOf(claim, trace).checks.context <==> InContext(trace)
    ensures RunOf(claim, trace).checks.late <==> SawLate(trace)
    ensures RunOf(claim, trace).checks.ended == LastContext(trace)
  {
    hide Guard, After;
    if trace != [] {
      ChecksAgree(claim, trace[..|trace| - 1]);
      WritesAgree(claim, trace[..|trace| - 1]);
      AfterChecks(RunOf(claim, trace[..|trace| - 1]), trace[|trace| - 1]);
    }
  }

  lemma WriteKeepsFaults(r: Run, op: Op, ok: bool)
    ensures AfterWrite(r, op, ok).faults == r.faults
  {
    hide PhaseAfter, StepsAfter, ReleaseAfter, TerminalPhaseOf;
  }

  lemma AfterFaults(r: Run, e: Event)
    ensures After(r, e).faults == Faults(r.faults.unallocated || IsUnallocated(e), r.faults.taken || IsTaken(e),
                                         r.faults.missed || Mismatched(e), r.faults.canceled || HasWrapped(e))
  {
    hide AfterWrite, AfterRevocation, Matches;
    if e.Wrote? { WriteKeepsFaults(r, e.op, e.ok); }
  }

  lemma {:induction false} FaultsAgree(claim: string, trace: seq<Event>)
    requires Legal(claim, trace)
    ensures RunOf(claim, trace).faults == Faults(Happened(trace, IsUnallocated), Happened(trace, IsTaken), Happened(trace, Mismatched), Happened(trace, HasWrapped))
  {
    hide Guard, After;
    if trace != [] {
      FaultsAgree(claim, trace[..|trace| - 1]);
      AfterFaults(RunOf(claim, trace[..|trace| - 1]), trace[|trace| - 1]);
    }
  }

  lemma AfterSteps(r: Run, e: Event)
    ensures After(r, e).steps.started == if e.Started? then Some(e.ok) else r.steps.started
    ensures After(r, e).steps.matched == if e.Activated? then Some(Matches(e.evidence, r.claim, e.identity, ActiveState, r.grant)) else r.steps.matched
    ensures After(r, e).steps.ready == (r.steps.ready || (e.Wrote? && e.op.BackendReady?))
    ensures After(r, e).steps.attempted == (r.steps.attempted || (e.Wrote? && e.op.NetworkActivationAttempt?))
    ensures After(r, e).steps.active == (r.steps.active || (e.Wrote? && e.op.NetworkActive?))
  {
    hide PhaseAfter, ReleaseAfter, TerminalPhaseOf, Matches;
  }

  lemma MatchIsShown(e: Option<NetworkEvidence>, claim: string, worker: Identity, grant: Option<NetworkAuthority>)
    ensures Matches(e, claim, worker, ActiveState, grant) <==> Shows(e, claim, worker, grant) && e.value.state.ActiveState?
    ensures Matches(e, claim, worker, RevokedState, grant) <==> Shows(e, claim, worker, grant) && e.value.state.RevokedState?
  {
  }

  lemma {:induction false} StepsAgree(claim: string, trace: seq<Event>)
    requires Legal(claim, trace)
    ensures RunOf(claim, trace).steps.started == Some(true) ==> Happened(trace, StartedWell)
    ensures RunOf(claim, trace).steps.started == Some(false) ==> Happened(trace, StartFailed)
    ensures RunOf(claim, trace).steps.matched == Some(true) ==> ActivatedAsGranted(claim, trace)
    ensures RunOf(claim, trace).steps.matched == Some(false) ==> ActivatedOtherwise(claim, trace)
    ensures RunOf(claim, trace).steps.active && RunOf(claim, trace).clean ==> Happened(trace, ActiveWrite)
  {
    hide Matches, Shows, After, MayWrite;
    if trace != [] {
      var before, e := trace[..|trace| - 1], trace[|trace| - 1];
      StepsAgree(claim, before);
      WritesAgree(claim, before);
      AfterFields(RunOf(claim, before), e);
      if e.Activated? { MatchIsShown(e.evidence, claim, e.identity, GrantIn(before)); }
      AfterSteps(RunOf(claim, before), e);
    }
  }

  // ---------------------------------------------------------------- dispatch and success

  /** Work is dispatched at most once, after a successful start and an activation as granted that was also
      written, only while every evidence write has succeeded and no terminal phase was written, and only after the
      deadline and the context were read as clear since the last write. */
  lemma DispatchGate(claim: string, trace: seq<Event>, i: nat)
    requires Legal(claim, trace) && i < |trace| && trace[i].Dispatched?
    ensures Count(trace[..i], Dispatch) == 0
    ensures !Happened(trace[..i], LostWrite) && Count(trace[..i], EndWrite) == 0
    ensures Happened(trace[..i], StartedWell) && ActivatedAsGranted(claim, trace[..i]) && Happened(trace[..i], ActiveWrite)
    ensures InTime(trace[..i]) && InContext(trace[..i])
  {
    LegalAt(claim, trace, i);
    WritesAgree(claim, trace[..i]);
    EndAgrees(claim, trace[..i]);
    WorkAgrees(claim, trace[..i]);
    StepsAgree(claim, trace[..i]);
    ChecksAgree(claim, trace[..i]);
  }

  /** The backend is asked to allocate, observe, start or activate only after the deadline and the context were
      read as clear since the last write or call, and to allocate, start or activate only while no write was lost. */
  lemma GrantingCallsAreChecked(claim: string, trace: seq<Event>, i: nat)
    requires Legal(claim, trace) && i < |trace| && (trace[i].Allocated? || trace[i].Observed? || trace[i].Started? || trace[i].Activated?)
    ensures InTime(trace[..i]) && InContext(trace[..i]) && Count(trace[..i], EndWrite) == 0
    ensures !trace[i].Observed? ==> !Happened(trace[..i], LostWrite)
  {
    LegalAt(claim, trace, i);
    WritesAgree(claim, trace[..i]);
    EndAgrees(claim, trace[..i]);
    ChecksAgree(claim, trace[..i]);
  }

  /** Success is written only after the work returned without an error, with the deadline and the context
      read as clear since then and every earlier write taken. */
  lemma SuccessGate(claim: string, trace: seq<Event>, i: nat)
    requires Legal(claim, trace) && i < |trace| && trace[i].Wrote? && trace[i].op.Succeeded?
    ensures ReturnedWell(trace[..i]) && !WorkOpen(trace[..i]) && InTime(trace[..i]) && InContext(trace[..i])
    ensures !Happened(trace[..i], LostWrite) && Count(trace[..i], Dispatch) == 1
  {
    LegalAt(claim, trace, i);
    WritesAgree(claim, trace[..i]);
    WorkAgrees(claim, trace[..i]);
    ChecksAgree(claim, trace[..i]);
  }

  lemma {:induction false} UnallocatedEitherWay(trace: seq<Event>)
    ensures Happened(trace, IsUnallocated) ==> Happened(trace, IsUnsupported) || Happened(trace, IsUnusable)
  {
    if trace != [] { UnallocatedEitherWay(trace[..|trace| - 1]); }
  }

  /** Why a claim that holds a worker may fail. */
  predicate FailureHappened(trace: seq<Event>) {
    Happened(trace, LostWrite) || Happened(trace, Mismatched) || (ReturnedBadly(trace) && !WorkOpen(trace)) ||
    (ReservedIn(trace).Some? && !ValidIdentity(ReservedIn(trace).value))
  }

  /** A claim expires only if a clock reading was not before its deadline or its context had run out, is cancelled only
      if its context was last seen cancelled, and fails to start only if a start failed. */
  lemma EndsHaveReasons(claim: string, trace: seq<Event>, i: nat)
    requires Legal(claim, trace) && i < |trace| && trace[i].Wrote?
    ensures trace[i].op.Expired? ==> SawLate(trace[..i]) || LastContext(trace[..i]).DeadlineExceeded?
    ensures trace[i].op.Cancelled? ==> LastContext(trace[..i]).Canceled?
    ensures trace[i].op.StartFailed? ==> Happened(trace[..i], StartFailed)
  {
    hide RunOf, After, SawLate, Happened, LastContext;
    LegalAt(claim, trace, i);
    StepsAgree(claim, trace[..i]);
    ChecksAgree(claim, trace[..i]);
  }

  /** An allocation fails only if nothing usable was allocated or another claim owns the worker, an activation only if a
      write was lost or nothing was activated as granted, and a claim that holds a worker for one of four reasons. */
  lemma FailuresHaveReasons(claim: string, trace: seq<Event>, i: nat)
    requires Legal(claim, trace) && i < |trace| && trace[i].Wrote?
    ensures trace[i].op.AllocationFailed? ==>
              Happened(trace[..i], IsUnsupported) || Happened(trace[..i], IsUnusable) || Happened(trace[..i], IsTaken)
    ensures trace[i].op.NetworkActivationFailed? ==> Happened(trace[..i], LostWrite) || ActivatedOtherwise(claim, trace[..i])
    ensures trace[i].op.Failed? ==> FailureHappened(trace[..i])
  {
    hide RunOf, After, Happened, ValidIdentity, ReturnedBadly, WorkOpen, ReservedIn, ActivatedOtherwise;
    LegalAt(claim, trace, i);
    FaultsAgree(claim, trace[..i]);
    StepsAgree(claim, trace[..i]);
    UnallocatedEitherWay(trace[..i]);
    WritesAgree(claim, trace[..i]);
    WorkAgrees(claim, trace[..i]);
  }

  /** Once work was dispatched, its error fails the claim only after the deadline and the context were read as clear
      since it returned. */
  lemma DeadlineDecidesFirst(claim: string, trace: seq<Event>, i: nat)
    requires Legal(claim, trace) && i < |trace| && trace[i].Wrote? && trace[i].op.Failed? && Count(trace[..i], Dispatch) > 0
    ensures InTime(trace[..i]) && InContext(trace[..i]) && !WorkOpen(trace[..i])
  {
    LegalAt(claim, trace, i);
    WorkAgrees(claim, trace[..i]);
    ChecksAgree(claim, trace[..i]);
  }

  // ---------------------------------------------------------------- release

  datatype Call = RevokeCall(confirmed: bool) | TerminateCall | CleanupCall

  predicate Releases(e: Event) { e.Revoked? || e.Terminated? || e.Cleaned? }

  /** The release calls of a trace; a revocation is confirmed when its evidence shows the grant as revoked. */
  function ReleaseCalls(claim: string, trace: seq<Event>): seq<Call> {
    if trace == [] then [] else
    var e, before := trace[|trace| - 1], trace[..|trace| - 1];
    match e
    case Revoked(identity, evidence) =>
      ReleaseCalls(claim, before) + [RevokeCall(Shows(evidence, claim, identity, GrantIn(before)) && evidence.value.state.RevokedState?)]
    case Terminated(_, _) => ReleaseCalls(claim, before) + [TerminateCall]
    case Cleaned(_, _) => ReleaseCalls(claim, before) + [CleanupCall]
    case _ => ReleaseCalls(claim, before)
  }

  function RevokeCalls(confirmed: seq<bool>): seq<Call> { seq(|confirmed|, i requires 0 <= i < |confirmed| => RevokeCall(confirmed[i])) }

  function AddCall(calls: seq<Call>, when: bool, call: Call): seq<Call> { if when then calls + [call] else calls }

  predicate ReleaseOrdered(release: Release) {
    |release.revocations| <= 2 && (|release.revocations| == 2 ==> !release.revocations[0]) &&
    (release.terminated.Some? ==> release.revocations != []) && (release.cleaned.Some? ==> release.terminated.Some?) &&
    (release.terminateWritten ==> release.terminated.Some?) && (release.cleanupWritten ==> release.cleaned.Some?) &&
    (release.revoking ==> |release.revocations| < 2 && !Confirmed(release) && release.terminated.None?) &&
    (release.terminated.Some? ==> !release.revoking && !release.unwritten)
  }

  /** What one event does to a release, whatever else it does. */
  function ReleaseStep(r: Run, e: Event): Release {
    match e
    case Wrote(op, _) => ReleaseAfter(r.release, op)
    case Revoked(identity, evidence) => AfterRevocation(r.release, Matches(evidence, r.claim, identity, RevokedState, r.grant))
    case Terminated(_, ok) => r.release.(terminated := Some(ok))
    case Cleaned(_, ok) => r.release.(cleaned := Some(ok))
    case _ => r.release
  }

  lemma AfterRelease(r: Run, e: Event)
    ensures After(r, e).release == ReleaseStep(r, e)
  {
    hide PhaseAfter, ReleaseAfter, StepsAfter, TerminalPhaseOf, Matches;
  }

  function CallsOf(release: Release): seq<Call> {
    AddCall(AddCall(RevokeCalls(release.revocations), release.terminated.Some?, TerminateCall), release.cleaned.Some?, CleanupCall)
  }

  lemma WriteKeepsRelease(r: Run, op: Op)
    requires MayWrite(r, op) && ReleaseOrdered(r.release)
    ensures ReleaseOrdered(ReleaseAfter(r.release, op)) && CallsOf(ReleaseAfter(r.release, op)) == CallsOf(r.release)
  {
    hide MayEnd;
  }

  lemma CallKeepsRelease(r: Run, e: Event)
    requires Guard(r, e) && ReleaseOrdered(r.release) && Releases(e)
    ensures ReleaseOrdered(ReleaseStep(r, e))
    ensures CallsOf(ReleaseStep(r, e)) ==
            CallsOf(r.release) + [if e.Revoked? then RevokeCall(Matches(e.evidence, r.claim, e.identity, RevokedState, r.grant))
                                  else if e.Terminated? then TerminateCall else CleanupCall]
  {
    hide Matches, MayWrite;
    if e.Revoked? {
      var now := ReleaseStep(r, e);
      assert RevokeCalls(now.revocations) == RevokeCalls(r.release.revocations) + [RevokeCall(now.revocations[|now.revocations| - 1])];
    }
  }

  lemma EmptyRelease()
    ensures ReleaseOrdered(HELD) && CallsOf(HELD) == []
  {
  }

  lemma {:induction false} ReleaseAgrees(claim: string, trace: seq<Event>)
    requires Legal(claim, trace)
    ensures ReleaseOrdered(RunOf(claim, trace).release) && ReleaseCalls(claim, trace) == CallsOf(RunOf(claim, trace).release)
  {
    hide Matches, Shows, After, MayWrite, ReleaseOrdered, CallsOf, ReleaseAfter;
    if trace == [] {
      EmptyRelease();
    } else {
      var before, e := trace[..|trace| - 1], trace[|trace| - 1];
      ReleaseAgrees(claim, before);
      WritesAgree(claim, before);
      AfterRelease(RunOf(claim, before), e);
      if e.Wrote? { WriteKeepsRelease(RunOf(claim, before), e.op); }
      if Releases(e) { CallKeepsRelease(RunOf(claim, before), e); }
      if e.Revoked? { MatchIsShown(e.evidence, claim, e.identity, GrantIn(before)); }
    }
  }

  lemma {:induction false} InsertedFirst(claim: string, trace: seq<Event>)
    requires Legal(claim, trace)
    ensures RunOf(claim, trace).offer.Some? || RunOf(claim, trace).reserved.Some? ==> RunOf(claim, trace).inserted
  {
    hide After, MayWrite;
    if trace != [] {
      InsertedFirst(claim, trace[..|trace| - 1]);
      AfterFields(RunOf(claim, trace[..|trace| - 1]), trace[|trace| - 1]);
    }
  }

  /** A finished run that reserved an identity revoked, then terminated once, then cleaned up once; a second
      revocation was made only because the first was not confirmed. */
  lemma TeardownDiscipline(claim: string, trace: seq<Event>)
    requires Legal(claim, trace) && Complete(RunOf(claim, trace)) && ReservedIn(trace).Some?
    ensures var calls, n := ReleaseCalls(claim, trace), |ReleaseCalls(claim, trace)|;
            (n == 3 || (n == 4 && calls[0] == RevokeCall(false))) && calls[n - 3].RevokeCall? && calls[n - 2..] == [TerminateCall, CleanupCall]
  {
    WritesAgree(claim, trace);
    ReleaseAgrees(claim, trace);
    InsertedFirst(claim, trace);
  }

  /** A finished run releases every worker it was offered, unless another claim owns it. */
  lemma OfferedIsReleased(claim: string, trace: seq<Event>)
    requires Legal(claim, trace) && Complete(RunOf(claim, trace)) && OfferIn(trace).Some?
    ensures Happened(trace, IsTaken) ||
            (ReservedIn(trace) == OfferIn(trace) &&
             var calls := ReleaseCalls(claim, trace); |calls| >= 3 && calls[|calls| - 2..] == [TerminateCall, CleanupCall])
  {
    WritesAgree(claim, trace);
    FaultsAgree(claim, trace);
    InsertedFirst(claim, trace);
    if ReservedIn(trace).Some? { TeardownDiscipline(claim, trace); }
  }

  /** Work that is still running when its claim ends is joined only after its network authority was revoked. */
  lemma RevokedBeforeJoined(claim: string, trace: seq<Event>, i: nat)
    requires Legal(claim, trace) && i < |trace| && trace[i].Returned? && Count(trace[..i], EndWrite) > 0
    ensures ReleaseCalls(claim, trace[..i]) != [] && ReleaseCalls(claim, trace[..i])[0].RevokeCall?
  {
    LegalAt(claim, trace, i);
    EndAgrees(claim, trace[..i]);
    ReleaseAgrees(claim, trace[..i]);
  }

  predicate Names(e: Event, identity: Identity) {
    match e
    case Observed(i, _, _) => i == identity
    case Started(i, _) => i == identity
    case Activated(i, _) => i == identity
    case Revoked(i, _) => i == identity
    case Terminated(i, _) => i == identity
    case Cleaned(i, _) => i == identity
    case _ => false
  }

  predicate BackendCall(e: Event) { e.Observed? || e.Started? || e.Activated? || Releases(e) }

  /** Every call that names an identity names the one this run reserved. */
  lemma CallsNameTheReserved(claim: string, trace: seq<Event>, i: nat)
    requires Legal(claim, trace) && i < |trace| && BackendCall(trace[i])
    ensures ReservedIn(trace[..i]).Some? && Names(trace[i], ReservedIn(trace[..i]).value)
  {
    LegalAt(claim, trace, i);
    WritesAgree(claim, trace[..i]);
  }

  /** Before the first release call a terminal phase was written, exactly once; before termination the work
      had returned; and no backend call but release calls follows a terminal phase. */
  lemma ReleaseFollowsTheEnd(claim: string, trace: seq<Event>, i: nat)
    requires Legal(claim, trace) && i < |trace|
    ensures Releases(trace[i]) ==> Count(trace[..i], EndWrite) == 1
    ensures trace[i].Terminated? ==> !WorkOpen(trace[..i])
    ensures BackendCall(trace[i]) && Count(trace[..i], EndWrite) > 0 ==> Releases(trace[i])
    ensures Count(trace, EndWrite) <= 1
  {
    hide MayWrite, After;
    LegalAt(claim, trace, i);
    EndAgrees(claim, trace);
    EndAgrees(claim, trace[..i]);
    WorkAgrees(claim, trace[..i]);
    ReleaseIsLast(claim, trace[..i]);
  }

  lemma {:induction false} ReleaseIsLast(claim: string, trace: seq<Event>)
    requires Legal(claim, trace)
    ensures RunOf(claim, trace).release != HELD ==> TerminalPhase(RunOf(claim, trace).phase)
  {
    hide After, Matches;
    if trace != [] {
      var before, e := trace[..|trace| - 1], trace[|trace| - 1];
      ReleaseIsLast(claim, before);
      EndAgrees(claim, before);
      EndAgrees(claim, trace);
      AfterFields(RunOf(claim, before), e);
      AfterRelease(RunOf(claim, before), e);
    }
  }

  // ---------------------------------------------------------------- phases and bindings

  /** Along a legal trace the phase moves only along allowed transitions and a binding, once made, stays. */
  lemma PhaseStep(claim: string, trace: seq<Event>, i: nat)
    requires Legal(claim, trace) && i < |trace|
    ensures var before, after := RunOf(claim, trace[..i]), RunOf(claim, trace[..i + 1]);
            (after.phase == before.phase || AllowedTransition(before.phase, after.phase)) &&
            (after.phase.Bound? && before.phase != after.phase ==> before.phase.Pending?) &&
            (after.phase.Running? && before.phase != after.phase ==> before.phase.Bound?) &&
            (after.phase.Succeeded? && before.phase != after.phase ==> before.phase.Running?) &&
            (before.phase.Succeeded? || before.phase.Failed? || before.phase.Expired? ==> after.phase == before.phase) &&
            (before.bound.Some? ==> after.bound == before.bound) &&
            (after.phase.Pending? ==> after.bound.None?) &&
            (after.bound.Some? ==> after.bound == ReservedIn(trace[..i + 1]))
  {
    hide MayWrite, After, PhaseAfter;
    LegalAt(claim, trace, i);
    PhaseKnown(claim, trace[..i]);
    var before, e := RunOf(claim, trace[..i]), trace[i];
    AfterFields(before, e);
    if e.Wrote? { WriteMovesPhase(before, e.op); }
    assert Legal(claim, trace[..i + 1]) by { assert trace[..i + 1][..i] == trace[..i]; }
    PhaseKnown(claim, trace[..i + 1]);
    WritesAgree(claim, trace[..i + 1]);
  }

  lemma {:induction false} PhaseKnown(claim: string, trace: seq<Event>)
    requires Legal(claim, trace)
    ensures var r := RunOf(claim, trace);
            !r.phase.UnknownPhase? && (r.phase.Pending? ==> r.bound.None?) && (r.bound.Some? ==> r.bound == r.reserved) &&
            (r.phase.Bound? || r.phase.Running? || r.phase.Succeeded? ==> r.bound.Some?)
  {
    hide MayWrite, After;
    if trace != [] {
      var before, e := trace[..|trace| - 1], trace[|trace| - 1];
      PhaseKnown(claim, before);
      AfterFields(RunOf(claim, before), e);
      if e.Wrote? { WriteMovesPhase(RunOf(claim, before), e.op); }
    }
  }

  /** A binding never changes once made. */
  lemma {:induction false} BindingStays(claim: string, trace: seq<Event>, i: nat)
    requires Legal(claim, trace) && i <= |trace| && RunOf(claim, trace[..i]).bound.Some?
    ensures RunOf(claim, trace).bound == RunOf(claim, trace[..i]).bound
    decreases |trace| - i
  {
    if i < |trace| {
      PhaseStep(claim, trace, i);
      BindingStays(claim, trace, i + 1);
    } else {
      assert trace[..i] == trace;
    }
  }
}
