/** Every durable prefix of a run whose claim was bound is a record that recovery can finish. */
module CrashClosure {
  import opened Evidence
  import opened Protocol
  import opened Checker
  import opened Session
  import opened Lifecycle
  import opened Numbering
  import opened Producer
  import opened Acceptance
  import opened RecoveryEvidence
  import CheckerSoundness
  import RunService

  /** The work staged a result of its own, before success was written. */
  predicate StagedByWork(w: Assignment, ses: Session, staged: Option<Outcome>) {
    staged.Some? ==> staged.value.status.Succeeded? && ResultFits(w, ses, staged.value)
  }

  lemma StagedResultFits(w: Assignment, s: Subject, trace: seq<Event>, facts: seq<Fact>, o: Outcome)
    requires Recorded(w, trace, facts) && Concerns(s, w) && o.status.Succeeded? && ResultFits(w, SessionOf(trace), o)
    requires Fold(s, facts).Some? && CallsFollow(SessionOf(trace), Fold(s, facts).value.calls)
    ensures StagedFits(s, facts, Fold(s, facts).value, o)
  {
    hide Fold, StagesFollow, Journaled, Governed, Legal, Stamped, AdmittedWork, ValidIssuedState, LimitDenied, Answered;
    LimitIsPositive(w);
    MarksAreFacts(w, trace, facts);
    if o.model.Some? { CheckerSoundness.LastModelCall(s, facts, o.model.value.invocationID); }
  }

  lemma RunIsCoherent(w: Assignment, s: Subject, run: Run, ses: Session, c: Cursor)
    requires Sound(run) && run.clean && run.bound.Some? && TakenAt(s, run) && LifeFollows(run, c.life) && NetFollows(run, c.net)
    requires CallsFollow(ses, c.calls) && c.log.received == 1 && c.log.resolutions == 1 && c.log.authorityResolved == 1 && !c.log.outcomeSeen && c.log.outcomes == 0
    requires s.state.decision.result.Allow? && s.state.evidence.events == run.events
    ensures Coherent(s, c) <==> (run.phase.Succeeded? ==> !LeftOpen(ses.call))
  {
    hide BudgetFollows;
    if ses.call.Allowed? { assert OpenCall(c.calls, ses.call.id); }
    if ses.call.Dispatched? { assert OpenCall(c.calls, ses.call.id); }
  }

  /** A crash anywhere after the claim was bound leaves a record that is underway exactly when no late fact was recorded
      and a run that already succeeded left no call open. */
  lemma CrashIsUnderway(w: Assignment, trace: seq<Event>, facts: seq<Fact>, staged: Option<Outcome>)
    requires Recorded(w, trace, facts) && RunOf(ClaimOf(w), trace).bound.Some? && Numbered(facts)
    requires RunOf(ClaimOf(w), trace).phase.Succeeded? ==> StagedByWork(w, SessionOf(trace), staged)
    ensures Underway(Stored(Snapshot(w, trace, facts), staged), w.issued.requestRef) <==>
            Quiet(ClaimOf(w), trace) && (RunOf(ClaimOf(w), trace).phase.Succeeded? ==> !LeftOpen(SessionOf(trace).call))
  {
    hide Fold, RunOf, Journaled, Governed, Legal, Stamped, SoundRelease, SoundWork, LifeFollows, NetFollows, CallsFollow, ValidPreamble, Coherent, StagedFits,
         ValidClaimRequest, ValidIssuedState, LeftOpen, Views, Quiet;
    var run, v := RunOf(ClaimOf(w), trace), Snapshot(w, trace, facts);
    var s := SubjectOf(v);
    SubjectViews(w, s, run);
    RunIsAhead(run);
    LegalIsSound(ClaimOf(w), trace);
    if !Quiet(ClaimOf(w), trace) {
      LateWorkRefused(w, s, trace, facts, run);
      return;
    }
    Produced(w, s, trace, facts, run);
    PreambleValid(w, v, run);
    var c := Fold(s, facts).value;
    EventsAgree(w, run, c.life);
    RunIsCoherent(w, s, run, SessionOf(trace), c);
    if run.phase.Succeeded? && staged.Some? { StagedResultFits(w, s, trace, facts, staged.value); }
  }

  /** The staged result is the one the outcome reports. */
  predicate StagedIs(o: Outcome, staged: Option<Outcome>) {
    staged.Some? && staged.value.status.Succeeded? && staged.value.text == o.text && o.text != "" && staged.value.model == o.model && o.model.Some? &&
    staged.value.completion == o.completion
  }

  /** A crash between the outcome fact and its publication loses nothing: the record completes to the very view
      that would have been published. */
  lemma CrashIsDone(w: Assignment, trace: seq<Event>, facts: seq<Fact>, err: RunService.Err, o: Outcome, f: Fact, staged: Option<Outcome>)
    requires Finished(w, trace, facts, err, o, f) && Publishable(w, trace, err)
    requires RunOf(ClaimOf(w), trace).phase.Succeeded? ==> StagedIs(o, staged)
    ensures CompletedEvidence(Stored(Final(w, trace, facts, o, f).(outcome := None), staged)) == Some(Final(w, trace, facts, o, f))
    ensures Done(Stored(Final(w, trace, facts, o, f).(outcome := None), staged), w.issued.requestRef)
  {
    hide Fold, RunOf, Journaled, Governed, Legal, Stamped, Accepts, ValidIssuedState, ResultFits, ValidClaimRequest, SoundPhase, SoundRelease, SoundWork;
    var run := RunOf(ClaimOf(w), trace);
    FinalAccepted(w, trace, facts, err, o, f);
    assert Bare(f).(code := NoCode).operation == f.operation && Bare(f).(code := NoCode).reason == f.reason;
    assert Bare(f).(code := NoCode).claimID == f.claimID && Bare(f).(code := NoCode).kind == f.kind && Bare(f).(code := NoCode).requestRef == f.requestRef;
    LegalIsSound(ClaimOf(w), trace);
    CompleteIsReleased(run);
  }
}
