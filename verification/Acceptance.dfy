/** When the client accepts what a run leaves behind: every snapshot taken during the run, and the view
    published at its end. */
module Acceptance {
  import opened Evidence
  import opened Protocol
  import opened ClientAuthority
  import opened Checker
  import opened Session
  import opened Lifecycle
  import opened Numbering
  import opened Producer
  import CheckerSoundness
  import Discipline
  import RunService

  /** What a query shows while the run is at `trace`: state and facts read together. */
  function Snapshot(w: Assignment, trace: seq<Event>, facts: seq<Fact>): View
    requires w.issued.claim.Some?
  {
    View(VERSION, w.issued.requestRef, Some(w.request), Some(RunService.StateOf(w.issued, RunOf(ClaimOf(w), trace))), facts, None, None)
  }

  /** The run of `trace` wrote every event into the journal holding `facts`, and its work was governed. */
  predicate Recorded(w: Assignment, trace: seq<Event>, facts: seq<Fact>) {
    AdmittedWork(w) && Legal(ClaimOf(w), trace) && RunOf(ClaimOf(w), trace).clean &&
    Journaled(w, trace, facts) && Stamped(facts) && Governed(w, trace) &&
    ValidIssuedState(RunService.StateOf(w.issued, RunOf(ClaimOf(w), trace)))
  }

  lemma SubjectViews(w: Assignment, s: Subject, run: Run)
    requires AdmittedWork(w) && ShowsOnlyBound(run) && s.ref == w.issued.requestRef && s.request == w.request
    requires s.state == RunService.StateOf(w.issued, run) && ValidIssuedState(s.state)
    ensures Views(w, s, run)
  {
    hide ValidClaimRequest, AuthorityWithinRequest, ValidAuthorityChanges, ValidTrail;
    if run.bound.Some? { RunService.ReachedStateHasValidIdentity(w.issued, run); }
  }

  lemma PreambleValid(w: Assignment, v: View, run: Run)
    requires AdmittedWork(w) && v.version == VERSION && v.requestRef == w.issued.requestRef && v.request == Some(w.request) && v.recovery.None?
    requires v.state == Some(RunService.StateOf(w.issued, run)) && ValidIssuedState(v.state.value) && SoundPhase(run)
    ensures ValidPreamble(v, w.issued.requestRef)
  {
    hide ValidClaimRequest, AuthorityWithinRequest, ValidAuthorityChanges, ValidTrail, ValidGranted;
  }

  lemma RunIsAhead(run: Run)
    ensures Ahead(run, run)
  {
  }

  /** At every moment of such a run what it shows is accepted exactly when no late fact was recorded and nothing that
      was never bound is shown as failed or released. */
  lemma SnapshotAccepted(w: Assignment, trace: seq<Event>, facts: seq<Fact>)
    requires Recorded(w, trace, facts)
    ensures Accepts(Snapshot(w, trace, facts), w.issued.requestRef) <==>
            Quiet(ClaimOf(w), trace) && ShowsOnlyBound(RunOf(ClaimOf(w), trace))
  {
    hide StepOk, Next, Views, RunOf, Journaled, Governed, Stamped, SoundRelease, SoundWork, LifeFollows, NetFollows, CallsFollow, Quiet, ShowsOnlyBound, Fold;
    var run, v := RunOf(ClaimOf(w), trace), Snapshot(w, trace, facts);
    var s := SubjectOf(v);
    LegalIsSound(ClaimOf(w), trace);
    if !ShowsOnlyBound(run) {
      UnboundIsRefused(w, s, trace, facts);
    } else {
      SubjectViews(w, s, run);
      RunIsAhead(run);
      if Quiet(ClaimOf(w), trace) {
        Produced(w, s, trace, facts, run);
        PreambleValid(w, v, run);
        EventsAgree(w, run, Fold(s, facts).value.life);
      } else {
        LateWorkRefused(w, s, trace, facts, run);
      }
    }
  }

  lemma EventsAgree(w: Assignment, run: Run, life: Life)
    requires AdmittedWork(w) && LifeFollows(run, life)
    ensures life.events == RunService.StateOf(w.issued, run).evidence.events
  {
  }

  // ---------------------------------------------------------------- the end of a run

  /** The status shown for a finished run: its phase, unless its error wraps a cancellation. */
  function StatusOf(run: Run, err: RunService.Err): Op {
    if RunService.Wraps(err) then Op.Cancelled
    else match run.phase
      case Succeeded => Op.Succeeded
      case Expired => Op.Expired
      case _ => Op.Failed
  }

  /** The result of the work names the last model call that succeeded; only the platform may report a run
      that ended without an answer because its budget was spent. */
  predicate ResultFits(w: Assignment, ses: Session, o: Outcome) {
    w.issued.authority.Some? &&
    (o.model.Some? ==> o.model.value.invocationID == ses.last && ses.last != "" && o.model.value.model != "" &&
                       o.model.value.inputTokens >= 0 && o.model.value.outputTokens >= 0) &&
    (o.completion.Some? ==> o.completion.value.AgentReport? || (o.completion.value.PlatformLimit? && ses.exhausted && !ses.answered))
  }

  /** The outcome of a finished run: a result only on success, a bounded failure text whenever there is an error. */
  predicate OutcomeOf(w: Assignment, ses: Session, run: Run, err: RunService.Err, o: Outcome) {
    o.status == StatusOf(run, err) && ResultFits(w, ses, o) &&
    (!run.phase.Succeeded? ==> o.text == "" && o.model.None? && o.completion.None?) &&
    (if err.Nil? then o.failure == "" else !Blank(o.failure) && |o.failure| <= 4096)
  }

  predicate OutcomeFact(w: Assignment, o: Outcome, f: Fact) {
    Bare(f).(code := NoCode) ==
      BLANK_FACT.(kind := RunOutcome, requestRef := w.issued.requestRef, claimID := ClaimOf(w), operation := o.status, reason := o.failure) &&
    !f.code.RecoveredInterruption? && !f.code.TemplateConfigurationFailed?
  }

  /** A finished run, its error and its published outcome, as the run service promises them: no error exactly when the
      run is unblemished, and an error that wraps a cancellation only where the claim failed or a release call's did. */
  predicate Finished(w: Assignment, trace: seq<Event>, facts: seq<Fact>, err: RunService.Err, o: Outcome, f: Fact) {
    var run := RunOf(ClaimOf(w), trace);
    Recorded(w, trace, facts) && Complete(run) && run.inserted && (err.Nil? <==> RunService.Unblemished(run)) &&
    (RunService.Wraps(err) ==> run.phase.Failed? || run.faults.canceled) && (run.faults.canceled ==> RunService.Wraps(err)) &&
    OutcomeOf(w, SessionOf(trace), run, err, o) && OutcomeFact(w, o, f) && Stamped(facts + [f])
  }

  function Final(w: Assignment, trace: seq<Event>, facts: seq<Fact>, o: Outcome, f: Fact): View
    requires w.issued.claim.Some?
  {
    View(VERSION, w.issued.requestRef, Some(w.request), Some(RunService.StateOf(w.issued, RunOf(ClaimOf(w), trace))), facts + [f], None, Some(o))
  }

  /** Some governed call was allowed but its outcome never recorded. */
  predicate LeftOpen(call: Call) { call.Allowed? || call.Dispatched? }

  // ---------------------------------------------------------------- the released lifecycle

  lemma CompleteIsReleased(run: Run)
    requires Complete(run) && run.inserted && run.clean && Sound(run)
    ensures TerminalPhase(run.phase) && !run.release.revoking && !run.release.unwritten
    ensures run.bound.Some? ==> run.release.revocations != [] && run.release.terminateWritten && run.release.cleanupWritten
    ensures run.reserved.Some? ==> run.release.terminateWritten
    ensures run.steps.attempted ==> run.bound.Some?
    ensures ShowsOnlyBound(run) <==> (run.reserved.Some? ==> run.bound.Some?)
    ensures run.phase.Succeeded? ==> run.steps.active && run.bound.Some? && run.terminalOp.Succeeded?
  {
  }

  lemma ReleaseAccepted(s: Subject, o: Outcome, run: Run, c: Cursor)
    requires Complete(run) && run.inserted && run.clean && Sound(run) && LifeFollows(run, c.life) && NetFollows(run, c.net) && TakenAt(s, run)
    requires o.status.Succeeded? ==> run.phase.Succeeded?
    ensures OutcomeReleaseOk(s, o, c)
    ensures c.log.outcomes == 1 && c.log.authorityResolved == 1 ==> OutcomeLifeOk(s, o, c)
  {
    hide Sound, Complete;
    CompleteIsReleased(run);
  }

  // ---------------------------------------------------------------- what the session marks

  predicate Denial(f: Fact) { f.kind.ModelDecision? && f.result.Deny? && f.code.ModelCallLimitReached? }

  lemma LastFact(facts: seq<Fact>, f: Fact)
    ensures LimitDenied(facts + [f]) <==> LimitDenied(facts) || Denial(f)
    ensures Answered(facts + [f]) <==> Answered(facts) || f.operation.FinalAnswer?
  {
    var all, n := facts + [f], |facts|;
    assert all[n] == f && forall i | 0 <= i < n :: all[i] == facts[i];
    if LimitDenied(facts) {
      var i :| 0 <= i < n && facts[i].kind.ModelDecision? && facts[i].result.Deny? && facts[i].code.ModelCallLimitReached?;
      assert all[i].kind.ModelDecision? && all[i].result.Deny? && all[i].code.ModelCallLimitReached?;
    }
    if Answered(facts) {
      var i :| 0 <= i < n && facts[i].operation.FinalAnswer?;
      assert all[i].operation.FinalAnswer?;
    }
  }

  lemma AdmissionHasNoAnswer(w: Assignment, facts: seq<Fact>)
    requires Journaled(w, [], facts)
    ensures !Answered(facts)
  {
    assert forall i | 0 <= i < 3 :: Bare(facts[i]).(reason := "", code := NoCode).operation == facts[i].operation;
  }

  lemma MarkGrows(w: Assignment, ses: Session, f: Fact)
    requires Records(w, ses, f) && w.issued.authority.Some?
    ensures NextSession(ses, f).exhausted ==> ses.exhausted || Denial(f)
    ensures Denial(f) ==> |ses.budgeted| == CallLimit(w) && NextSession(ses, f).budgeted == ses.budgeted
    ensures ses.exhausted && |ses.budgeted| == CallLimit(w) ==> NextSession(ses, f).budgeted == ses.budgeted
    ensures NextSession(ses, f).answered == (ses.answered || f.operation.FinalAnswer?)
  {
  }

  lemma WriteIsNoAnswer(w: Assignment, before: Run, run: Run, op: Op, f: Fact)
    requires MayWrite(before, op) && Projects(w, run, op, f)
    ensures !f.operation.FinalAnswer? && !Denial(f)
  {
    hide PlainReason;
    ProjectedFields(w, run, op, f);
  }

  /** What the session remembers of denials and answers is in the journal. */
  lemma {:induction false} MarksAreFacts(w: Assignment, trace: seq<Event>, facts: seq<Fact>)
    requires Journaled(w, trace, facts) && Governed(w, trace) && Legal(ClaimOf(w), trace) && w.issued.authority.Some?
    ensures SessionOf(trace).exhausted ==> LimitDenied(facts) && |SessionOf(trace).budgeted| == CallLimit(w)
    ensures !SessionOf(trace).answered ==> !Answered(facts)
  {
    hide After, Records, NextSession, Projects, MayWrite, LimitDenied, Answered, ReceivedFact, AuthorityFact, ResolutionFact;
    if trace == [] {
      AdmissionHasNoAnswer(w, facts);
    } else {
      var before, e := trace[..|trace| - 1], trace[|trace| - 1];
      if (e.Wrote? && e.ok) || e.Worked? {
        var earlier, f := facts[..|facts| - 1], facts[|facts| - 1];
        MarksAreFacts(w, before, earlier);
        LastFact(earlier, f);
        assert facts == earlier + [f];
        if e.Worked? { MarkGrows(w, SessionOf(before), f); }
        else { WriteIsNoAnswer(w, RunOf(ClaimOf(w), before), RunOf(ClaimOf(w), trace), e.op, f); }
      } else {
        MarksAreFacts(w, before, facts);
      }
    }
  }

  // ---------------------------------------------------------------- the end is accepted

  /** The published outcome fact is accepted after the facts of the run exactly when its status fits the phase. */
  lemma OutcomeFactAccepted(w: Assignment, s: Subject, o: Outcome, facts: seq<Fact>, f: Fact, run: Run, err: RunService.Err, c: Cursor)
    requires Views(w, s, run) && (s.outcome == Some(o) || s.outcome.None?) && OutcomeFact(w, o, f) && LogFollows(facts, c.log) && Stamped(facts + [f])
    requires TerminalPhase(run.phase) && o.status == StatusOf(run, err)
    ensures StepOk(s, c, f) <==> (RunService.Wraps(err) ==> run.phase.Failed?)
    ensures Next(s, c, f) == c.(log := Log(c.log.ids + {f.id}, f.sequence, 1, 1, 1, true, if s.outcome.Some? then 1 else 0, f.code))
  {
    hide ValidClaimRequest, AuthorityWithinRequest, ValidAuthorityChanges, ValidTrail, ValidGranted, ShowsOnlyBound, RuntimeOk, WorkGateOk;
    assert Bare(f).(code := NoCode).operation == f.operation && Bare(f).(code := NoCode).reason == f.reason;
    assert (facts + [f])[..|facts|] == facts;
  }

  lemma ModelAccepted(w: Assignment, s: Subject, ses: Session, facts: seq<Fact>, f: Fact, o: Outcome, c: Cursor)
    requires Fold(s, facts + [f]) == Some(c) && Concerns(s, w) && c.calls.lastModel == ses.last && ResultFits(w, ses, o)
    requires o.model.Some? ==> o.status.Succeeded?
    ensures OutcomeModelOk(s, o, facts + [f], c)
  {
    hide Fold;
    if o.model.Some? { CheckerSoundness.LastModelCall(s, facts + [f], o.model.value.invocationID); }
  }

  lemma CompletionAccepted(w: Assignment, s: Subject, trace: seq<Event>, facts: seq<Fact>, f: Fact, o: Outcome, c: Cursor)
    requires Journaled(w, trace, facts) && Governed(w, trace) && Legal(ClaimOf(w), trace) && Concerns(s, w) && ResultFits(w, SessionOf(trace), o)
    requires CallsFollow(SessionOf(trace), c.calls) && !f.operation.FinalAnswer? && CallLimit(w) > 0
    ensures OutcomeCompletionOk(s, o, facts + [f], c)
  {
    hide StagesFollow, LimitDenied, Answered, Journaled, Governed, Legal;
    MarksAreFacts(w, trace, facts);
    LastFact(facts, f);
  }

  lemma CallsClosed(ses: Session, o: Outcome, c: Cursor)
    requires CallsFollow(ses, c.calls) && !c.log.outcomeCode.RecoveredInterruption?
    ensures OutcomeCallsOk(o, c) <==> !LeftOpen(ses.call)
  {
    hide BudgetFollows;
    if ses.call.Allowed? { assert OpenCall(c.calls, ses.call.id); }
    if ses.call.Dispatched? { assert OpenCall(c.calls, ses.call.id); }
  }

  lemma LimitIsPositive(w: Assignment)
    requires AdmittedWork(w)
    ensures CallLimit(w) > 0
  {
    hide ValidClaimRequest, AuthorityWithinRequest, ValidAuthorityChanges, ValidTrail;
  }

  /** What a caller could check before publishing: nothing was released unbound, no late fact was recorded, no call was
      left open, and an error that wraps a cancellation belongs to a Failed claim. */
  predicate Publishable(w: Assignment, trace: seq<Event>, err: RunService.Err) {
    Showable(w, trace, err) && !LeftOpen(SessionOf(trace).call)
  }

  predicate Showable(w: Assignment, trace: seq<Event>, err: RunService.Err) {
    var run := RunOf(ClaimOf(w), trace);
    (run.reserved.Some? ==> run.bound.Some?) && Quiet(ClaimOf(w), trace) && (RunService.Wraps(err) ==> run.phase.Failed?)
  }

  lemma OutcomeAccepted(w: Assignment, s: Subject, trace: seq<Event>, facts: seq<Fact>, err: RunService.Err, o: Outcome, f: Fact, c: Cursor)
    requires Finished(w, trace, facts, err, o, f) && Fold(s, facts + [f]) == Some(c) && Concerns(s, w) && TakenAt(s, RunOf(ClaimOf(w), trace))
    requires s.outcome == Some(o) && s.state.decision == w.issued.decision && Sound(RunOf(ClaimOf(w), trace))
    requires RunService.Wraps(err) ==> RunOf(ClaimOf(w), trace).phase.Failed?
    requires LifeFollows(RunOf(ClaimOf(w), trace), c.life) && NetFollows(RunOf(ClaimOf(w), trace), c.net) && CallsFollow(SessionOf(trace), c.calls)
    requires c.log.outcomes == 1 && c.log.authorityResolved == 1 && c.log.outcomeCode == f.code
    ensures OutcomeOk(s, o, facts + [f], c) <==> !LeftOpen(SessionOf(trace).call)
  {
    hide Sound, LifeFollows, NetFollows, Journaled, Governed, Legal, Stamped, RunOf, Fold, OutcomeReleaseOk, OutcomeLifeOk, OutcomeCallsOk, OutcomeModelOk,
         OutcomeCompletionOk, StagesFollow, ResultFits, Blank, ValidIssuedState, AdmittedWork, LeftOpen, Complete;
    var run, ses := RunOf(ClaimOf(w), trace), SessionOf(trace);
    CompleteIsReleased(run);
    assert Bare(f).(code := NoCode).operation == f.operation;
    ReleaseAccepted(s, o, run, c);
    ModelAccepted(w, s, ses, facts, f, o, c);
    LimitIsPositive(w);
    CompletionAccepted(w, s, trace, facts, f, o, c);
    CallsClosed(ses, o, c);
    AllowIsGranted(w);
  }

  lemma AllowIsGranted(w: Assignment)
    requires AdmittedWork(w)
    ensures w.issued.decision.result.Allow?
  {
    hide ValidClaimRequest, AuthorityWithinRequest, ValidAuthorityChanges, ValidTrail, ValidIssuedState;
  }

  /** Every release begins with a recorded attempt to revoke, and every failure is recorded. */
  lemma {:induction false} EndIsRecorded(w: Assignment, trace: seq<Event>, facts: seq<Fact>)
    requires Journaled(w, trace, facts) && Legal(ClaimOf(w), trace) && RunOf(ClaimOf(w), trace).clean
    ensures RunOf(ClaimOf(w), trace).release != HELD ==> CheckerSoundness.Seen(facts, NetworkRevocationAttempt)
    ensures RunOf(ClaimOf(w), trace).terminalOp.Failed? ==> CheckerSoundness.Seen(facts, Op.Failed)
  {
    hide Projects, Matches, After, Guard, RunOf, MayWrite;
    if trace == [] {
      NothingEnded(ClaimOf(w));
    } else {
      var before, e := trace[..|trace| - 1], trace[|trace| - 1];
      var r := RunOf(ClaimOf(w), before);
      assert trace == before + [e];
      Extend(ClaimOf(w), before, e);
      LegalIsSound(ClaimOf(w), before);
      Discipline.AfterFields(r, e);
      Discipline.AfterRelease(r, e);
      Discipline.AfterName(r, e);
      if r.release == HELD { EndStep(r, e); }
      if e.Wrote? {
        EndIsRecorded(w, before, facts[..|facts| - 1]);
        ProjectedFields(w, RunOf(ClaimOf(w), trace), e.op, facts[|facts| - 1]);
      } else if e.Worked? {
        EndIsRecorded(w, before, facts[..|facts| - 1]);
      } else {
        EndIsRecorded(w, before, facts);
      }
    }
  }

  lemma NothingEnded(claim: string)
    ensures RunOf(claim, []).release == HELD && RunOf(claim, []).terminalOp.NoOp?
  {
  }

  /** A release that is held is begun by a written attempt and by nothing else. */
  lemma EndStep(r: Run, e: Event)
    requires Guard(r, e) && SoundRelease(r) && r.release == HELD
    ensures Discipline.ReleaseStep(r, e) == HELD || (e.Wrote? && e.op.NetworkRevocationAttempt?)
  {
    hide Discipline.ReleaseOrdered, Matches;
  }

  lemma UnboundEndRefused(s: Subject, facts: seq<Fact>, op: Op)
    requires s.state.claim.Some? && s.state.claim.value.identity.None? && (op.NetworkRevocationAttempt? || op.Failed?) && CheckerSoundness.Seen(facts, op)
    ensures Fold(s, facts).None?
  {
    hide Fold, Next, CallsOk, WorkGateOk, AttachedOk, EnvelopeOk, NetworkOk, CheckerSoundness.Seen;
    if Fold(s, facts).Some? {
      CheckerSoundness.SeenSomewhere(facts, op);
      var j :| 0 <= j < |facts| && facts[j].kind.Runtime? && facts[j].operation == op;
      CheckerSoundness.FoldAt(s, facts, j);
    }
  }

  /** A failure or a release of a worker that was never bound is a fact the client refuses. */
  lemma UnboundIsRefused(w: Assignment, s: Subject, trace: seq<Event>, facts: seq<Fact>)
    requires Journaled(w, trace, facts) && Legal(ClaimOf(w), trace) && RunOf(ClaimOf(w), trace).clean && TakenAt(s, RunOf(ClaimOf(w), trace))
    requires !ShowsOnlyBound(RunOf(ClaimOf(w), trace))
    ensures Fold(s, facts).None?
  {
    hide Fold, Journaled, Legal, RunOf, CheckerSoundness.Seen;
    EndIsRecorded(w, trace, facts);
    if RunOf(ClaimOf(w), trace).release != HELD { UnboundEndRefused(s, facts, NetworkRevocationAttempt); }
    else { UnboundEndRefused(s, facts, Op.Failed); }
  }

  /** Once the outcome fact was accepted, only an open call can still refuse the view. */
  lemma OutcomeDecides(w: Assignment, s: Subject, trace: seq<Event>, facts: seq<Fact>, err: RunService.Err, o: Outcome, f: Fact, c: Cursor)
    requires Finished(w, trace, facts, err, o, f) && Views(w, s, RunOf(ClaimOf(w), trace)) && s.outcome == Some(o)
    requires s.state == RunService.StateOf(w.issued, RunOf(ClaimOf(w), trace))
    requires Fold(s, facts) == Some(c) && Follows(w, trace, facts, c) && StepOk(s, c, f)
    requires Next(s, c, f) == c.(log := Log(c.log.ids + {f.id}, f.sequence, 1, 1, 1, true, 1, f.code))
    requires RunService.Wraps(err) ==> RunOf(ClaimOf(w), trace).phase.Failed?
    ensures AcceptsFacts(s, facts + [f]) <==> !LeftOpen(SessionOf(trace).call)
  {
    hide Fold, StepOk, Next, RunOf, Journaled, Governed, Legal, Stamped, LifeFollows, NetFollows, CallsFollow, OutcomeOf, OutcomeFact, Complete, OutcomeOk,
         LeftOpen, LogFollows, ValidClaimRequest, AuthorityWithinRequest, ValidAuthorityChanges, ValidIssuedState, ShowsOnlyBound, TakenAt, Concerns;
    var run, all := RunOf(ClaimOf(w), trace), facts + [f];
    LegalIsSound(ClaimOf(w), trace);
    assert all[..|facts|] == facts && all[..|facts| + 1] == all;
    FoldStep(s, all, |facts|);
    OutcomeAccepted(w, s, trace, facts, err, o, f, Next(s, c, f));
    EventsAgree(w, run, c.life);
  }

  /** The cursor after the facts of a run that nothing keeps from being shown. */
  lemma OutcomeFollows(w: Assignment, s: Subject, trace: seq<Event>, facts: seq<Fact>, err: RunService.Err, o: Outcome, f: Fact)
    requires Finished(w, trace, facts, err, o, f) && (s.outcome == Some(o) || s.outcome.None?)
    requires s.state == RunService.StateOf(w.issued, RunOf(ClaimOf(w), trace)) && s.ref == w.issued.requestRef && s.request == w.request
    ensures var run := RunOf(ClaimOf(w), trace);
            if (run.reserved.Some? ==> run.bound.Some?) && Quiet(ClaimOf(w), trace)
            then Views(w, s, run) && Fold(s, facts).Some? && Follows(w, trace, facts, Fold(s, facts).value) &&
                 var c := Fold(s, facts).value;
                 (StepOk(s, c, f) <==> (RunService.Wraps(err) ==> run.phase.Failed?)) &&
                 Next(s, c, f) == c.(log := Log(c.log.ids + {f.id}, f.sequence, 1, 1, 1, true, if s.outcome.Some? then 1 else 0, f.code))
            else Fold(s, facts).None?
  {
    hide Fold, StepOk, Next, Views, RunOf, Journaled, Governed, Legal, Stamped, SoundRelease, SoundWork, SoundPhase, LifeFollows, NetFollows, CallsFollow,
         Complete, ValidClaimRequest, AuthorityWithinRequest, ValidAuthorityChanges, ValidIssuedState, Quiet, ShowsOnlyBound, OutcomeFact, ResultFits, Blank,
         RunService.Unblemished, AdmittedWork;
    var run := RunOf(ClaimOf(w), trace);
    LegalIsSound(ClaimOf(w), trace);
    CompleteIsReleased(run);
    var earlier := facts + [f];
    assert earlier[..|facts|] == facts;
    if !ShowsOnlyBound(run) {
      UnboundIsRefused(w, s, trace, facts);
    } else {
      SubjectViews(w, s, run);
      RunIsAhead(run);
      if Quiet(ClaimOf(w), trace) {
        Produced(w, s, trace, facts, run);
        OutcomeFactAccepted(w, s, o, facts, f, run, err, Fold(s, facts).value);
      } else {
        LateWorkRefused(w, s, trace, facts, run);
      }
    }
  }

  /** The client accepts the final view of a run exactly when it was publishable. */
  lemma FinalAccepted(w: Assignment, trace: seq<Event>, facts: seq<Fact>, err: RunService.Err, o: Outcome, f: Fact)
    requires Finished(w, trace, facts, err, o, f)
    ensures Accepts(Final(w, trace, facts, o, f), w.issued.requestRef) <==> Publishable(w, trace, err)
  {
    hide Fold, StepOk, Next, Views, RunOf, Journaled, Governed, Legal, Stamped, SoundRelease, SoundWork, SoundPhase, LifeFollows, NetFollows, CallsFollow,
         Complete, ValidPreamble, FinalOk, LeftOpen, ValidClaimRequest, AuthorityWithinRequest, ValidAuthorityChanges, ValidIssuedState, Quiet, Follows;
    var run, v := RunOf(ClaimOf(w), trace), Final(w, trace, facts, o, f);
    var s, all := SubjectOf(v), facts + [f];
    LegalIsSound(ClaimOf(w), trace);
    assert all[..|facts|] == facts && all[..|facts| + 1] == all;
    FoldStep(s, all, |facts|);
    OutcomeFollows(w, s, trace, facts, err, o, f);
    if Showable(w, trace, err) {
      PreambleValid(w, v, run);
      OutcomeDecides(w, s, trace, facts, err, o, f, Fold(s, facts).value);
    }
  }

  /** Between the recording of the outcome and its publication a query shows the outcome fact without the outcome: that
      view is accepted under the same conditions, except that a call may still be open. */
  lemma UnpublishedAccepted(w: Assignment, trace: seq<Event>, facts: seq<Fact>, err: RunService.Err, o: Outcome, f: Fact)
    requires Finished(w, trace, facts, err, o, f)
    ensures Accepts(Final(w, trace, facts, o, f).(outcome := None), w.issued.requestRef) <==> Showable(w, trace, err)
  {
    hide Fold, StepOk, Next, Views, RunOf, Journaled, Governed, Legal, Stamped, SoundRelease, SoundWork, SoundPhase, NetFollows, CallsFollow,
         Complete, ValidPreamble, ValidClaimRequest, AuthorityWithinRequest, ValidAuthorityChanges, ValidIssuedState, Quiet;
    var run, v := RunOf(ClaimOf(w), trace), Final(w, trace, facts, o, f).(outcome := None);
    var s, all := SubjectOf(v), facts + [f];
    LegalIsSound(ClaimOf(w), trace);
    assert all[..|facts|] == facts && all[..|facts| + 1] == all;
    FoldStep(s, all, |facts|);
    OutcomeFollows(w, s, trace, facts, err, o, f);
    if Showable(w, trace, err) {
      PreambleValid(w, v, run);
      EventsAgree(w, run, Fold(s, facts).value.life);
    }
  }
}
