/** One submission from the run to the published view: the run service drives the work, the service reports how it
    ended, and the client decides. */
module Submission {
  import opened Evidence
  import opened Protocol
  import opened Checker
  import opened Session
  import opened Numbering
  import opened Producer
  import opened Acceptance
  import RunService

  /** The journal of the run, the outcome and its fact are what the service makes of this run and error. */
  ghost predicate Reports(w: Assignment, trace: seq<Event>, err: RunService.Err, facts: seq<Fact>, o: Outcome, f: Fact) {
    Journaled(w, trace, facts) && Governed(w, trace) && Stamped(facts) && Stamped(facts + [f]) &&
    OutcomeOf(w, SessionOf(trace), RunOf(ClaimOf(w), trace), err, o) && OutcomeFact(w, o, f)
  }

  /** What the client decides about everything that may be published of this run. */
  ghost predicate DecidedBy(w: Assignment, trace: seq<Event>, state: State, err: RunService.Err) {
    forall facts, o, f | Reports(w, trace, err, facts, o, f) ::
      Accepts(View(VERSION, w.issued.requestRef, Some(w.request), Some(state), facts + [f], None, Some(o)), w.issued.requestRef)
      <==> Publishable(w, trace, err)
  }

  lemma RunIsFinished(w: Assignment, trace: seq<Event>, err: RunService.Err, facts: seq<Fact>, o: Outcome, f: Fact)
    requires AdmittedWork(w) && Legal(ClaimOf(w), trace) && Reports(w, trace, err, facts, o, f)
    requires var run := RunOf(ClaimOf(w), trace);
             run.clean && Complete(run) && run.inserted && (err.Nil? <==> RunService.Unblemished(run)) &&
             (RunService.Wraps(err) ==> run.phase.Failed? || run.faults.canceled) && (run.faults.canceled ==> RunService.Wraps(err)) &&
             w.issued.claim.Some? && ValidIssuedState(RunService.StateOf(w.issued, run))
    ensures Finished(w, trace, facts, err, o, f)
  {
    hide AdmittedWork, Legal, RunOf, Journaled, Governed, Stamped, OutcomeOf, OutcomeFact, Complete, ValidIssuedState, RunService.Unblemished;
  }

  /** What the work returned: a text, the model call it rests on, and how the agent says it ended. */
  datatype WorkResult = WorkResult(text: string, model: Option<ModelResult>, completion: Option<Completion>)

  function NameOf(phase: Phase): Op {
    match phase
    case Pending => Op.Pending
    case Bound => Op.Bound
    case Running => Op.Running
    case Succeeded => Op.Succeeded
    case Failed => Op.Failed
    case Expired => Op.Expired
    case UnknownPhase(name) => OtherOp(name)
  }

  /** The outcome the service publishes of a run: Cancelled exactly when the run's error wraps a cancellation, otherwise the phase of the
      final claim, or Failed without one; the result of the work exactly when the claim succeeded; a failure text exactly with an
      error. */
  method ReportOutcome(final: Option<State>, err: RunService.Err, result: WorkResult, reason: string) returns (o: Outcome)
    ensures o.status.Cancelled? <==> RunService.Wraps(err)
    ensures !RunService.Wraps(err) ==> o.status == if final.Some? && final.value.claim.Some? then NameOf(final.value.claim.value.phase) else Op.Failed
    ensures if final.Some? && final.value.claim.Some? && final.value.claim.value.phase.Succeeded?
            then o.text == result.text && o.model == result.model && o.completion == result.completion
            else o.text == "" && o.model.None? && o.completion.None?
    ensures o.failure == if err.Nil? then "" else reason
  {
    var status := Op.Failed;
    if final.Some? && final.value.claim.Some? { status := NameOf(final.value.claim.value.phase); }
    if RunService.Wraps(err) { status := Op.Cancelled; }
    o := Outcome(status, "", "", None, None);
    if final.Some? && final.value.claim.Some? && final.value.claim.value.phase.Succeeded? {
      o := o.(text := result.text, model := result.model, completion := result.completion);
    }
    if !err.Nil? { o := o.(failure := reason); }
  }

  /** What the service reports of a finished run is an outcome of it, if the result is one its work could have returned. */
  lemma ReportedIsOutcome(w: Assignment, ses: Session, run: Run, err: RunService.Err, o: Outcome)
    requires w.issued.claim.Some? && TerminalPhase(run.phase) && ResultFits(w, ses, o)
    requires o.status.Cancelled? <==> RunService.Wraps(err)
    requires !RunService.Wraps(err) ==> o.status == NameOf(run.phase)
    requires !run.phase.Succeeded? ==> o.text == "" && o.model.None? && o.completion.None?
    requires if err.Nil? then o.failure == "" else !Blank(o.failure) && |o.failure| <= 4096
    ensures OutcomeOf(w, ses, run, err, o)
  {
    hide ResultFits, Blank;
  }

  /** Drives admitted work to its end and reports it. If every write was taken, the client accepts what is published of it exactly when
      it is publishable. */
  method Drive(service: RunService.Service, world: RunService.World, w: Assignment, launch: RunService.Launch, reason: string)
    returns (state: Option<State>, err: RunService.Err, o: Outcome)
    requires service.Valid() && world.Valid() && world.run == Begin(world.claim) && AdmittedWork(w) && ClaimOf(w) == world.claim
    requires !Blank(reason) && |reason| <= 4096
    modifies service, world
    ensures service.Valid() && world.Valid() && Complete(world.run)
    ensures world.run.inserted <==> RunService.ValidInitialRun(w.issued, launch) && world.claim !in old(service.state)
    ensures world.run.inserted ==> state.Some? && (world.run.clean ==> DecidedBy(w, world.trace, state.value, err))
    ensures world.run.inserted && state.value.claim.Some? ==> state.value.claim.value.phase == world.run.phase && state.value.claim.value.identity == world.run.bound
    ensures world.run.inserted && world.run.clean && ResultFits(w, SessionOf(world.trace), o) ==> OutcomeOf(w, SessionOf(world.trace), world.run, err, o)
  {
    hide AdmittedWork, Legal, RunOf, Complete, ValidIssuedState, RunService.Unblemished, RunService.ValidInitialRun, Publishable, Accepts, Reports, ResultFits,
         OutcomeOf, Blank, TerminalPhase, RunService.Advanced;
    WorkHasClaim(w);
    state, err := service.RunContext(world, w.issued, launch);
    if world.run.inserted && world.run.clean {
      forall facts, o, f | Reports(w, world.trace, err, facts, o, f)
        ensures Accepts(View(VERSION, w.issued.requestRef, Some(w.request), Some(state.value), facts + [f], None, Some(o)), w.issued.requestRef)
                <==> Publishable(w, world.trace, err)
      {
        RunIsFinished(w, world.trace, err, facts, o, f);
        FinalAccepted(w, world.trace, facts, err, o, f);
      }
    }
    var result: WorkResult := *;
    o := ReportOutcome(state, err, result, reason);
    if world.run.inserted {
      StateShows(w, world.run);
      if world.run.clean && ResultFits(w, SessionOf(world.trace), o) { ReportedIsOutcome(w, SessionOf(world.trace), world.run, err, o); }
    }
  }

  lemma StateShows(w: Assignment, run: Run)
    requires w.issued.claim.Some? && Complete(run) && run.inserted
    ensures var state := RunService.StateOf(w.issued, run);
            state.claim.Some? && state.claim.value.phase == run.phase && state.claim.value.identity == run.bound && (run.clean ==> TerminalPhase(run.phase))
  {
  }

  lemma WorkHasClaim(w: Assignment)
    requires AdmittedWork(w)
    ensures w.issued.claim.Some? && w.issued.claim.value.id == ClaimOf(w)
  {
    hide ValidIssuedState;
  }
}
