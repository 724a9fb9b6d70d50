/** The runtime facts of a run: how each evidence write is projected to a journal fact, and why the
    client's lifecycle and network automata accept every projection of a legal run. */
module Lifecycle {
  import opened Evidence
  import opened Protocol
  import opened Checker
  import opened Session
  import Discipline

  /** The journal's fact for one write: named after its operation, attributed to the claim and its binding.
      Network facts carry one bounded line of text. */
  predicate Projects(w: Assignment, run: Run, op: Op, f: Fact) {
    w.issued.claim.Some? && f.id != "" &&
    Bare(f).(reason := "") ==
      BLANK_FACT.(kind := Kind.Runtime, requestRef := w.issued.requestRef, claimID := w.issued.claim.value.id, identity := run.bound, operation := op,
                  code := RuntimeCode(op), policyRef := Some(w.issued.policyRef), target := if NetworkOp(op) then "work-network" else "") &&
    (NetworkOp(op) ==> PlainReason(f.reason))
  }

  /** `later` is a run that `now` can still become. */
  predicate Ahead(now: Run, later: Run) {
    (now.bound.Some? ==> later.bound == now.bound) && (now.reserved.Some? ==> later.reserved == now.reserved) &&
    (TerminalPhase(now.phase) ==> later.phase == now.phase && later.bound == now.bound && later.terminalOp == now.terminalOp) &&
    (now.release != HELD ==> later.release != HELD)
  }

  /** A worker that was never bound is neither failed nor released yet, so no fact shows it. */
  predicate ShowsOnlyBound(run: Run) { run.bound.None? ==> run.release == HELD && !run.terminalOp.Failed? }

  /** What the guards of a legal run keep about it. */
  predicate Sound(run: Run) { SoundPhase(run) && SoundRelease(run) && SoundWork(run) }

  predicate SoundPhase(run: Run) {
    !run.phase.UnknownPhase? && (run.phase.Pending? ==> run.bound.None?) && (run.bound.Some? ==> run.bound == run.reserved) &&
    (run.phase.Bound? || run.phase.Running? || run.phase.Succeeded? ==> run.bound.Some?) &&
    (!run.phase.Pending? || run.reserved.Some? || run.offer.Some? ==> run.inserted) && (run.terminalOp.Failed? ==> run.reserved.Some?) &&
    TerminalPhaseOf(run.terminalOp) == (if TerminalPhase(run.phase) then Some(run.phase) else None)
  }

  predicate SoundRelease(run: Run) {
    Discipline.ReleaseOrdered(run.release) && (run.release.cleaned.Some? ==> run.release.terminateWritten) &&
    !(run.release.revoking && run.release.unwritten) && (run.release.unwritten ==> run.release.revocations != []) &&
    (run.release != HELD ==> TerminalPhase(run.phase) && run.reserved.Some?)
  }

  predicate SoundWork(run: Run) {
    (run.steps.active ==> run.steps.attempted) && (run.steps.attempted ==> run.steps.ready) && (run.steps.ready ==> run.bound.Some?) &&
    (run.phase.Bound? ==> !run.steps.attempted) && (run.phase.Running? ==> run.steps.ready) &&
    (run.phase.Succeeded? ==> !run.work.Idle?) && (!run.work.Idle? ==> run.steps.active && (run.phase.Running? || TerminalPhase(run.phase))) &&
    (run.work.Active? && TerminalPhase(run.phase) ==> run.terminalOp.Expired? || run.terminalOp.Cancelled?)
  }

  lemma PhaseStaysSound(r: Run, e: Event)
    requires SoundPhase(r) && Guard(r, e)
    ensures SoundPhase(After(r, e))
  {
    hide After, MayWrite;
    Discipline.AfterFields(r, e);
    Discipline.AfterName(r, e);
    if e.Wrote? {
      Discipline.WriteMovesPhase(r, e.op);
      WriteIsInserted(r, e.op);
    }
  }

  lemma WriteIsInserted(r: Run, op: Op)
    requires SoundPhase(r) && MayWrite(r, op)
    ensures PhaseAfter(r.phase, op) != r.phase ==> r.inserted
    ensures op.Failed? ==> r.reserved.Some?
  {
  }

  lemma ReleaseStaysSound(r: Run, e: Event)
    requires SoundPhase(r) && SoundRelease(r) && Guard(r, e)
    ensures SoundRelease(After(r, e))
  {
    hide After, MayWrite, Discipline.ReleaseOrdered, Discipline.CallsOf, Matches;
    Discipline.AfterFields(r, e);
    Discipline.AfterRelease(r, e);
    if e.Wrote? {
      Discipline.WriteMovesPhase(r, e.op);
      Discipline.WriteKeepsRelease(r, e.op);
      WriteStartsRelease(r, e.op);
    }
    if Discipline.Releases(e) {
      Discipline.CallKeepsRelease(r, e);
      CallStartsRelease(r, e);
    }
  }

  /** The first write of a release follows a terminal phase, and its cleanup follows its termination. */
  lemma WriteStartsRelease(r: Run, op: Op)
    requires SoundPhase(r) && SoundRelease(r) && MayWrite(r, op)
    ensures ReleaseAfter(r.release, op) != HELD ==> TerminalPhase(r.phase) && r.reserved.Some?
    ensures ReleaseAfter(r.release, op).cleaned == r.release.cleaned
    ensures r.release.terminateWritten ==> ReleaseAfter(r.release, op).terminateWritten
    ensures !(ReleaseAfter(r.release, op).revoking && ReleaseAfter(r.release, op).unwritten)
  {
    hide Discipline.ReleaseOrdered;
  }

  lemma CallStartsRelease(r: Run, e: Event)
    requires SoundRelease(r) && Guard(r, e) && Discipline.Releases(e)
    ensures TerminalPhase(r.phase) && r.reserved.Some?
    ensures Discipline.ReleaseStep(r, e).cleaned.Some? ==> Discipline.ReleaseStep(r, e).terminateWritten
    ensures !(Discipline.ReleaseStep(r, e).revoking && Discipline.ReleaseStep(r, e).unwritten)
  {
    hide Discipline.ReleaseOrdered, Matches, MayWrite;
  }

  lemma WorkStaysSound(r: Run, e: Event)
    requires SoundPhase(r) && SoundWork(r) && Guard(r, e)
    ensures SoundWork(After(r, e))
  {
    hide After, MayWrite, PhaseAfter, Matches;
    Discipline.AfterFields(r, e);
    Discipline.AfterName(r, e);
    Discipline.AfterSteps(r, e);
    if e.Wrote? {
      WriteKeepsWork(r, e.op, e.ok);
      Discipline.AfterIsWrite(r, e.op, e.ok);
    }
  }

  lemma WriteKeepsWork(r: Run, op: Op, ok: bool)
    requires SoundPhase(r) && SoundWork(r) && MayWrite(r, op)
    ensures SoundWork(AfterWrite(r, op, ok))
  {
    hide ReleaseAfter;
  }

  lemma {:induction false} LegalIsSound(claim: string, trace: seq<Event>)
    requires Legal(claim, trace)
    ensures Sound(RunOf(claim, trace))
  {
    hide Guard, After, SoundPhase, SoundRelease, SoundWork;
    if trace == [] {
      BeginIsSound(claim);
    } else {
      var before, e := trace[..|trace| - 1], trace[|trace| - 1];
      LegalIsSound(claim, before);
      PhaseStaysSound(RunOf(claim, before), e);
      ReleaseStaysSound(RunOf(claim, before), e);
      WorkStaysSound(RunOf(claim, before), e);
    }
  }

  lemma BeginIsSound(claim: string)
    ensures Sound(Begin(claim))
  {
  }

  lemma StaysAhead(r: Run, e: Event)
    requires SoundPhase(r) && SoundRelease(r) && Guard(r, e)
    ensures Ahead(r, After(r, e))
  {
    hide After, MayWrite, Matches;
    Discipline.AfterFields(r, e);
    Discipline.AfterName(r, e);
    Discipline.AfterRelease(r, e);
    if Discipline.Releases(e) { CallEndsHold(r, e); }
    if e.Wrote? {
      Discipline.WriteMovesPhase(r, e.op);
      WriteEndsHold(r, e.op);
      if TerminalPhase(r.phase) { TerminalStays(r, e.op); }
    }
  }

  /** A release that has begun stays begun. */
  lemma WriteEndsHold(r: Run, op: Op)
    requires MayWrite(r, op) && SoundRelease(r)
    ensures r.release != HELD || Teardown(op) ==> ReleaseAfter(r.release, op) != HELD
  {
    hide MayEnd, Discipline.ReleaseOrdered;
  }

  lemma CallEndsHold(r: Run, e: Event)
    ensures Discipline.Releases(e) ==> Discipline.ReleaseStep(r, e) != HELD
  {
    hide Matches;
  }

  lemma TerminalStays(r: Run, op: Op)
    requires SoundPhase(r) && MayWrite(r, op) && TerminalPhase(r.phase)
    ensures PhaseAfter(r.phase, op) == r.phase && !op.Bound? && TerminalPhaseOf(op).None?
  {
  }

  /** A run only moves ahead. */
  lemma {:induction false} PrefixIsBehind(claim: string, trace: seq<Event>, i: nat)
    requires Legal(claim, trace) && i <= |trace|
    ensures Ahead(RunOf(claim, trace[..i]), RunOf(claim, trace))
  {
    hide Guard, After, SoundRelease, SoundWork;
    var n := |trace| - 1;
    if i == |trace| {
      assert trace[..i] == trace;
    } else {
      PrefixIsBehind(claim, trace[..n], i);
      assert trace[..n][..i] == trace[..i];
      LegalIsSound(claim, trace[..n]);
      StaysAhead(RunOf(claim, trace[..n]), trace[n]);
    }
  }

  // ---------------------------------------------------------------- the checker follows a run

  predicate LifeFollows(run: Run, life: Life) { FlagsFollow(run, life) && EndFollows(run, life) }

  predicate FlagsFollow(run: Run, life: Life) {
    life.pending == run.inserted && life.bound == run.bound.Some? && life.ready == run.steps.ready &&
    (run.phase.Running? || run.steps.attempted || run.terminalOp.Succeeded? ==> life.running) &&
    (run.phase.Pending? || run.phase.Bound? ==> !life.running)
  }

  predicate EndFollows(run: Run, life: Life) {
    life.terminal == TerminalPhase(run.phase) && life.terminalOp == run.terminalOp &&
    life.terminated == run.release.terminateWritten && life.cleaned == run.release.cleanupWritten && life.events == run.events
  }

  predicate NetFollows(run: Run, net: Net) { ActivationFollows(run, net) && ReleaseFollows(run, net) }

  predicate ActivationFollows(run: Run, net: Net) {
    net.activationRecorded == run.steps.attempted && (net.activationPending ==> net.activationRecorded) && net.active == run.steps.active &&
    (run.phase.Running? ==> net.activationPending == (run.steps.attempted && !run.steps.active))
  }

  predicate ReleaseFollows(run: Run, net: Net) { ReleaseMirrors(run.release, net) }

  predicate ReleaseMirrors(release: Release, net: Net) {
    net.releaseStarted == (release.revoking || release.revocations != []) &&
    net.releasePending == (release.revoking || release.unwritten) && (net.released ==> Confirmed(release))
  }

  /** The subject of a view taken when the run has come as far as `run`. */
  predicate TakenAt(s: Subject, run: Run) {
    s.state.claim.Some? && s.state.claim.value.phase == run.phase && s.state.claim.value.identity == run.bound
  }

  predicate Written(w: Assignment, s: Subject, run: Run, op: Op, f: Fact, later: Run) {
    Concerns(s, w) && TakenAt(s, later) && Sound(run) && run.clean && MayWrite(run, op) &&
    Ahead(AfterWrite(run, op, true), later) && ShowsOnlyBound(later) && Projects(w, AfterWrite(run, op, true), op, f)
  }

  /** What the projected fact says, field by field. */
  lemma ProjectedFields(w: Assignment, run: Run, op: Op, f: Fact)
    requires Projects(w, run, op, f)
    ensures f.kind.Runtime? && f.operation == op && f.identity == run.bound && f.code == RuntimeCode(op) && f.claimID == w.issued.claim.value.id
    ensures f.requestRef == w.issued.requestRef && f.policyRef == Some(w.issued.policyRef) && f.invocationID == "" && f.decision.None?
    ensures f.result.NoResult? && f.authority.None? && f.changes == [] && f.status.NoStatus? && f.turn == 0 && f.actionRef == "" && !DeclaresAction(f)
    ensures f.callCount == 0 && f.callLimit == 0 && (NetworkOp(op) ==> f.target == "work-network" && PlainReason(f.reason))
  {
    hide PlainReason;
    assert Bare(f).(reason := "").identity == f.identity;
  }

  lemma WrittenFields(r: Run, op: Op)
    ensures var now := AfterWrite(r, op, true);
            now.phase == PhaseAfter(r.phase, op) && now.bound == (if op.Bound? then r.reserved else r.bound) && now.reserved == r.reserved &&
            now.inserted == (r.inserted || op.Pending?) && now.terminalOp == (if TerminalPhaseOf(op).Some? then op else r.terminalOp) &&
            now.events == (if op.Pending? then r.events else r.events + [op]) && now.release == ReleaseAfter(r.release, op)
    ensures var steps := AfterWrite(r, op, true).steps;
            steps.ready == (r.steps.ready || op.BackendReady?) && steps.attempted == (r.steps.attempted || op.NetworkActivationAttempt?) &&
            steps.active == (r.steps.active || op.NetworkActive?)
  {
    hide PhaseAfter, ReleaseAfter, TerminalPhaseOf;
  }

  /** Release operations belong to a bound run. */
  lemma ReleaseIsBound(w: Assignment, s: Subject, run: Run, op: Op, f: Fact, later: Run)
    requires Written(w, s, run, op, f, later) && Teardown(op)
    ensures TerminalPhase(run.phase) && run.bound.Some? && later.bound == run.bound && !op.Bound? && AfterWrite(run, op, true).phase == run.phase
    ensures NetworkRevocation(op) ==> !run.release.terminateWritten && !run.release.cleanupWritten
  {
    hide Projects, Concerns, TakenAt, SoundWork, AfterWrite, ReleaseAfter, Discipline.CallsOf;
    WrittenFields(run, op);
    WriteEndsHold(run, op);
  }

  lemma NetworkFactValid(w: Assignment, s: Subject, run: Run, op: Op, f: Fact, later: Run)
    requires Written(w, s, run, op, f, later) && NetworkOp(op)
    ensures ValidNetworkFact(s, f)
  {
    hide PlainReason, Discipline.ReleaseOrdered, Projects, AfterWrite, ReleaseAfter;
    ProjectedFields(w, AfterWrite(run, op, true), op, f);
    WrittenFields(run, op);
    if NetworkRevocation(op) { ReleaseIsBound(w, s, run, op, f, later); }
  }

  lemma NetworkWriteAccepted(w: Assignment, s: Subject, run: Run, op: Op, f: Fact, later: Run, life: Life, net: Net)
    requires Written(w, s, run, op, f, later) && NetworkOp(op) && LifeFollows(run, life) && NetFollows(run, net)
    ensures NetworkOk(s, life, net, f)
  {
    hide ValidNetworkFact, Discipline.ReleaseOrdered, Projects, AfterWrite, ReleaseAfter, Concerns, TakenAt;
    NetworkFactValid(w, s, run, op, f, later);
    ProjectedFields(w, AfterWrite(run, op, true), op, f);
    if NetworkRevocation(op) { ReleaseIsBound(w, s, run, op, f, later); }
  }

  lemma EndAccepted(w: Assignment, s: Subject, run: Run, op: Op, f: Fact, later: Run, life: Life)
    requires Written(w, s, run, op, f, later) && LifeFollows(run, life)
    ensures ValidRuntimeOperation(op, later.phase, later.bound.Some?, life)
  {
    hide PlainReason, SoundRelease, Projects, Concerns, TakenAt, AfterWrite;
    WrittenFields(run, op);
  }

  /** The order of milestones: each comes after the one before it and once. */
  lemma MilestoneInOrder(w: Assignment, s: Subject, run: Run, op: Op, f: Fact, later: Run, life: Life)
    requires Written(w, s, run, op, f, later) && LifeFollows(run, life)
    ensures op.Pending? ==> !life.pending && !life.bound && !life.ready && !life.running
    ensures op.Bound? ==> !life.bound && !life.ready && !life.running && AfterWrite(run, op, true).bound.Some?
    ensures op.BackendReady? ==> life.bound && !life.ready && !life.running
    ensures op.Running? ==> !life.running && life.bound && life.ready
    ensures Termination(op) ==> !life.terminated && !life.cleaned
    ensures CleanupOp(op) ==> life.terminated && !life.cleaned
  {
    hide Discipline.ReleaseOrdered, Projects, AfterWrite, Concerns, TakenAt, TerminalPhaseOf;
    WrittenFields(run, op);
    CleanupAfterTermination(run);
  }

  /** Nothing but release follows a terminal operation, and nothing is terminated before it. */
  lemma TeardownInOrder(w: Assignment, s: Subject, run: Run, op: Op, f: Fact, later: Run, life: Life, net: Net)
    requires Written(w, s, run, op, f, later) && LifeFollows(run, life) && NetFollows(run, net)
    ensures life.terminal ==> Teardown(op)
    ensures Teardown(op) ==> life.terminal
    ensures op.Succeeded? ==> net.active
  {
    hide Discipline.ReleaseOrdered, Projects, AfterWrite, Concerns, TakenAt, TerminalPhaseOf, FlagsFollow, ReleaseFollows;
    if Teardown(op) { ReleaseIsBound(w, s, run, op, f, later); }
  }

  /** The client's lifecycle accepts the projection of every write a legal run makes. */
  lemma WriteAccepted(w: Assignment, s: Subject, run: Run, op: Op, f: Fact, later: Run, life: Life, net: Net)
    requires Written(w, s, run, op, f, later) && LifeFollows(run, life) && NetFollows(run, net)
    ensures RuntimeOk(s, life, net, f)
  {
    hide NetworkOk, ValidRuntimeOperation, PlainReason, Projects, AfterWrite, MayWrite, Sound, LifeFollows, NetFollows, Teardown, Termination, CleanupOp;
    ProjectedFields(w, AfterWrite(run, op, true), op, f);
    if NetworkOp(op) { NetworkWriteAccepted(w, s, run, op, f, later, life, net); }
    EndAccepted(w, s, run, op, f, later, life);
    MilestoneInOrder(w, s, run, op, f, later, life);
    TeardownInOrder(w, s, run, op, f, later, life, net);
  }

  lemma CleanupAfterTermination(run: Run)
    requires Sound(run)
    ensures run.release.cleanupWritten ==> run.release.terminateWritten
  {
  }

  lemma FlagsFollowed(w: Assignment, s: Subject, run: Run, op: Op, f: Fact, later: Run, life: Life)
    requires Written(w, s, run, op, f, later) && LifeFollows(run, life)
    ensures FlagsFollow(AfterWrite(run, op, true), NextLife(s, life, f))
  {
    hide Projects, AfterWrite, SoundRelease, EndFollows;
    ProjectedFields(w, AfterWrite(run, op, true), op, f);
    WrittenFields(run, op);
  }

  lemma EndFollowed(w: Assignment, s: Subject, run: Run, op: Op, f: Fact, later: Run, life: Life)
    requires Written(w, s, run, op, f, later) && LifeFollows(run, life)
    ensures EndFollows(AfterWrite(run, op, true), NextLife(s, life, f))
  {
    hide Projects, AfterWrite, SoundRelease, SoundWork, FlagsFollow, MayWrite, PhaseAfter, Concerns, TakenAt, ShowsOnlyBound, Ahead;
    ProjectedFields(w, AfterWrite(run, op, true), op, f);
    WrittenFields(run, op);
    Discipline.WriteMovesPhase(run, op);
  }

  lemma LifeFollowed(w: Assignment, s: Subject, run: Run, op: Op, f: Fact, later: Run, life: Life)
    requires Written(w, s, run, op, f, later) && LifeFollows(run, life)
    ensures LifeFollows(AfterWrite(run, op, true), NextLife(s, life, f))
  {
    hide Written, FlagsFollow, EndFollows, AfterWrite, NextLife;
    FlagsFollowed(w, s, run, op, f, later, life);
    EndFollowed(w, s, run, op, f, later, life);
  }

  lemma ActivationFollowed(w: Assignment, s: Subject, run: Run, op: Op, f: Fact, later: Run, net: Net)
    requires Written(w, s, run, op, f, later) && NetFollows(run, net)
    ensures ActivationFollows(AfterWrite(run, op, true), NextNet(net, f))
  {
    hide Discipline.ReleaseOrdered, Projects, AfterWrite, SoundRelease, ReleaseFollows, ReleaseAfter, Concerns, TakenAt;
    ProjectedFields(w, AfterWrite(run, op, true), op, f);
    WrittenFields(run, op);
  }

  /** A write that is no revocation leaves the network release as it was, on both sides. */
  lemma ReleaseUntouched(release: Release, op: Op, net: Net, f: Fact)
    requires f.kind.Runtime? && f.operation == op && !NetworkRevocation(op)
    ensures var now := ReleaseAfter(release, op);
            now.revoking == release.revoking && now.revocations == release.revocations && now.unwritten == release.unwritten
    ensures var next := NextNet(net, f); next.releaseStarted == net.releaseStarted && next.releasePending == net.releasePending && next.released == net.released
  {
  }

  lemma RevocationFollowed(run: Run, op: Op, net: Net, f: Fact)
    requires f.kind.Runtime? && f.operation == op && NetworkRevocation(op) && MayWrite(run, op) && SoundRelease(run) && ReleaseFollows(run, net)
    ensures ReleaseMirrors(ReleaseAfter(run.release, op), NextNet(net, f))
  {
    hide Discipline.ReleaseOrdered, TerminalPhaseOf;
  }

  lemma ReleaseFollowed(w: Assignment, s: Subject, run: Run, op: Op, f: Fact, later: Run, net: Net)
    requires Written(w, s, run, op, f, later) && NetFollows(run, net)
    ensures ReleaseFollows(AfterWrite(run, op, true), NextNet(net, f))
  {
    hide Projects, AfterWrite, SoundWork, SoundRelease, ActivationFollows, PhaseAfter, TerminalPhaseOf, Concerns, TakenAt, MayWrite, ReleaseAfter, NextNet;
    ProjectedFields(w, AfterWrite(run, op, true), op, f);
    WrittenFields(run, op);
    if NetworkRevocation(op) { RevocationFollowed(run, op, net, f); } else { ReleaseUntouched(run.release, op, net, f); }
  }

  lemma NetFollowed(w: Assignment, s: Subject, run: Run, op: Op, f: Fact, later: Run, net: Net)
    requires Written(w, s, run, op, f, later) && NetFollows(run, net)
    ensures NetFollows(AfterWrite(run, op, true), NextNet(net, f))
  {
    hide Written, AfterWrite, NextNet, ActivationFollows, ReleaseFollows;
    ActivationFollowed(w, s, run, op, f, later, net);
    ReleaseFollowed(w, s, run, op, f, later, net);
  }

  /** A fact that proves an allocation is written only once the claim is bound. */
  lemma ProofIsBound(w: Assignment, s: Subject, run: Run, op: Op, f: Fact, later: Run)
    requires Written(w, s, run, op, f, later) && ProvesAllocation(f)
    ensures later.bound.Some?
  {
    hide PlainReason, Discipline.ReleaseOrdered, Projects, AfterWrite, NextLife, ReleaseAfter;
    ProjectedFields(w, AfterWrite(run, op, true), op, f);
    WrittenFields(run, op);
    if Teardown(op) { ReleaseIsBound(w, s, run, op, f, later); }
  }

  /** Attribution and attached values of a projected fact. */
  lemma WriteAttributed(w: Assignment, s: Subject, run: Run, op: Op, f: Fact, later: Run)
    requires Written(w, s, run, op, f, later)
    requires s.state.policyRef.id != "" && s.state.policyRef.version != ""
    requires later.bound.Some? ==> later.bound.value.backend != "" && later.bound.value.worker != ""
    ensures AttributionOk(s, f) && AttachedOk(s, f)
  {
    hide Projects, AfterWrite, NextLife, ReleaseAfter, ProvesAllocation, Sound, MayWrite, PhaseAfter;
    ProjectedFields(w, AfterWrite(run, op, true), op, f);
    WrittenFields(run, op);
    if ProvesAllocation(f) { ProofIsBound(w, s, run, op, f, later); }
  }
}
