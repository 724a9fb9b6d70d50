/** Runs on both sides of the boundary of acceptance, for every admitted work: one that succeeds and is accepted,
    and one for each condition under which the client refuses what a run publishes. Each takes its readings, writes and
    calls in the order in which the run service takes them. */
module Boundaries {
  import opened Evidence
  import opened Protocol
  import opened Checker
  import opened Session
  import opened Lifecycle
  import opened Numbering
  import opened Producer
  import opened Acceptance
  import Discipline
  import RunService

  // ---------------------------------------------------------------- the journal of a run

  function Stamp(f: Fact, n: nat): Fact { f.(id := FactID(n), sequence := n, timestamp := 1) }

  function Admissions(w: Assignment): seq<Fact> {
    [Stamp(BLANK_FACT.(kind := RequestReceived, requestRef := w.issued.requestRef), 1),
     Stamp(BLANK_FACT.(kind := RequestResolution, requestRef := w.issued.requestRef, decision := Some(w.issued.decision), result := Allow,
                       policyRef := Some(w.issued.decision.policyRef)), 2),
     Stamp(BLANK_FACT.(kind := AuthorityResolved, requestRef := w.issued.requestRef, claimID := ClaimOf(w), authority := w.issued.authority,
                       changes := w.changes, policyRef := Some(w.issued.decision.policyRef)), 3)]
  }

  function WriteFact(w: Assignment, run: Run, op: Op): Fact {
    BLANK_FACT.(kind := Kind.Runtime, requestRef := w.issued.requestRef, claimID := ClaimOf(w), identity := run.bound, operation := op,
                code := RuntimeCode(op), policyRef := Some(w.issued.policyRef), target := if NetworkOp(op) then "work-network" else "", reason := "recorded")
  }

  /** The journal of a run: a fact for every write that was taken and every fact of the work, numbered from one. */
  function FactsOf(w: Assignment, trace: seq<Event>): seq<Fact> {
    if trace == [] then Admissions(w) else
    var before, e := FactsOf(w, trace[..|trace| - 1]), trace[|trace| - 1];
    if e.Wrote? && e.ok then before + [Stamp(WriteFact(w, RunOf(ClaimOf(w), trace), e.op), |before| + 1)]
    else if e.Worked? then before + [e.fact] else before
  }

  predicate NumberedFrom(facts: seq<Fact>) {
    forall i | 0 <= i < |facts| :: facts[i].id == FactID(i + 1) && facts[i].sequence == i + 1 && facts[i].timestamp == 1
  }

  /** The facts of the work took the numbers that were next. */
  predicate WorkNumbered(w: Assignment, trace: seq<Event>) { NumberedFrom(FactsOf(w, trace)) }

  lemma {:induction false} NumberedIDs(facts: seq<Fact>, id: string)
    requires NumberedFrom(facts) && id in IDs(facts)
    ensures exists i | 0 <= i < |facts| :: facts[i].id == id
  {
    hide FactID;
    var n := |facts| - 1;
    if id == facts[n].id {
      assert facts[n].id == id;
    } else {
      NumberedIDs(facts[..n], id);
      var i :| 0 <= i < n && facts[..n][i].id == id;
      assert facts[i].id == id;
    }
  }

  lemma {:induction false} NumberedIsStamped(facts: seq<Fact>)
    requires NumberedFrom(facts)
    ensures Stamped(facts)
  {
    hide IDs, FactID;
    if facts != [] {
      var n := |facts| - 1;
      NumberedIsStamped(facts[..n]);
      assert facts[n].id == FactID(n + 1);
      FactIDNotEmpty(n + 1);
      if facts[n].id in IDs(facts[..n]) {
        NumberedIDs(facts[..n], facts[n].id);
        var i :| 0 <= i < n && facts[..n][i].id == facts[n].id;
        assert facts[i].id == FactID(i + 1);
        FactIDInjective(n + 1, i + 1);
      }
    }
  }

  lemma FactIDNotEmpty(n: nat)
    ensures FactID(n) != ""
  {
  }

  lemma RecordedIsPlain()
    ensures PlainReason("recorded")
  {
    var s := "recorded";
    assert s[0] == 'r' && !IsSpace(s[0]);
  }

  lemma AdmissionsJournaled(w: Assignment)
    ensures Journaled(w, [], Admissions(w)) && NumberedFrom(Admissions(w))
  {
    hide FactID;
  }

  lemma WriteProjects(w: Assignment, run: Run, op: Op, n: nat)
    requires w.issued.claim.Some?
    ensures Projects(w, run, op, Stamp(WriteFact(w, run, op), n))
  {
    hide FactID, PlainReason;
    FactIDNotEmpty(n);
    RecordedIsPlain();
  }

  /** Every run whose work is numbered in turn has this journal. */
  lemma {:induction false} RunIsJournaled(w: Assignment, trace: seq<Event>)
    requires w.issued.claim.Some?
    ensures Journaled(w, trace, FactsOf(w, trace))
  {
    hide Projects, Admissions, Stamp, WriteFact, RunOf;
    if trace == [] {
      AdmissionsJournaled(w);
    } else {
      var n := |trace| - 1;
      var before, e := FactsOf(w, trace[..n]), trace[n];
      RunIsJournaled(w, trace[..n]);
      if e.Wrote? && e.ok { WriteProjects(w, RunOf(ClaimOf(w), trace), e.op, |before| + 1); }
      if (e.Wrote? && e.ok) || e.Worked? { assert FactsOf(w, trace)[..|before|] == before; }
    }
  }

  // ---------------------------------------------------------------- scenes

  /** What the work has said so far: its session, and whether it kept to what may be said after the end of its claim. */
  datatype Talk = Talk(ses: Session, quiet: bool)

  const SILENT := Talk(FRESH, true)

  /** A governed run that was journaled as it went. */
  ghost predicate Scene(w: Assignment, trace: seq<Event>, run: Run, talk: Talk) {
    Legal(ClaimOf(w), trace) && RunOf(ClaimOf(w), trace) == run && run.clean && Governed(w, trace) && SessionOf(trace) == talk.ses &&
    Quiet(ClaimOf(w), trace) == talk.quiet && WorkNumbered(w, trace)
  }

  lemma Opening(w: Assignment)
    ensures Scene(w, [], Begin(ClaimOf(w)), SILENT)
  {
    hide Admissions;
    AdmissionsJournaled(w);
  }

  /** The next event of a scene that leaves no fact of the work. */
  lemma Happens(w: Assignment, trace: seq<Event>, run: Run, talk: Talk, e: Event, next: Run)
    requires Scene(w, trace, run, talk) && !e.Worked? && Guard(run, e) && After(run, e) == next && (e.Wrote? ==> e.ok)
    ensures Scene(w, trace + [e], next, talk)
  {
    hide Guard, After, FactID;
    Extend(ClaimOf(w), trace, e);
    Discipline.AfterFields(run, e);
    assert (trace + [e])[..|trace|] == trace;
  }

  lemma Writes(w: Assignment, trace: seq<Event>, run: Run, talk: Talk, op: Op, next: Run)
    requires Scene(w, trace, run, talk) && MayWrite(run, op) && AfterWrite(run, op, true) == next
    ensures Scene(w, trace + [Wrote(op, true)], next, talk)
  {
    hide Scene, MayWrite, AfterWrite;
    Happens(w, trace, run, talk, Wrote(op, true), next);
  }

  function InContext(run: Run): Run { run.(checks := run.checks.(context := true, ended := Live)) }

  function InTime(run: Run): Run { run.(checks := run.checks.(clock := true)) }

  /** Context and clock are read as clear. */
  function Rechecked(run: Run): Run { run.(checks := run.checks.(context := true, ended := Live, clock := true)) }

  lemma SeesContext(w: Assignment, trace: seq<Event>, run: Run, talk: Talk)
    requires Scene(w, trace, run, talk)
    ensures Scene(w, trace + [SawContext(Live)], InContext(run), talk)
  {
    hide Scene;
    Happens(w, trace, run, talk, SawContext(Live), InContext(run));
  }

  function JustBefore(grant: NetworkAuthority): Event { SawClock(grant.expires - 1) }

  lemma SeesClock(w: Assignment, trace: seq<Event>, run: Run, talk: Talk, grant: NetworkAuthority)
    requires Scene(w, trace, run, talk) && run.grant == Some(grant)
    ensures Scene(w, trace + [JustBefore(grant)], InTime(run), talk)
  {
    hide Scene;
    Happens(w, trace, run, talk, JustBefore(grant), InTime(run));
  }

  /** The context is read, then the clock. */
  lemma Checks(w: Assignment, trace: seq<Event>, run: Run, talk: Talk, grant: NetworkAuthority) returns (t: seq<Event>)
    requires Scene(w, trace, run, talk) && run.grant == Some(grant)
    ensures Scene(w, t, Rechecked(run), talk)
  {
    hide Scene;
    SeesContext(w, trace, run, talk);
    SeesClock(w, trace + [SawContext(Live)], InContext(run), talk, grant);
    t := trace + [SawContext(Live)] + [JustBefore(grant)];
  }

  /** The clock is read, then the context. */
  lemma ChecksBack(w: Assignment, trace: seq<Event>, run: Run, talk: Talk, grant: NetworkAuthority) returns (t: seq<Event>)
    requires Scene(w, trace, run, talk) && run.grant == Some(grant)
    ensures Scene(w, t, Rechecked(run), talk)
  {
    hide Scene;
    SeesClock(w, trace, run, talk, grant);
    SeesContext(w, trace + [JustBefore(grant)], InTime(run), talk);
    t := trace + [JustBefore(grant)] + [SawContext(Live)];
  }

  function Said(run: Run, talk: Talk, f: Fact): Talk {
    Talk(NextSession(talk.ses, f), talk.quiet && (TerminalPhase(run.phase) ==> CallCancelled(f)))
  }

  lemma Works(w: Assignment, trace: seq<Event>, run: Run, talk: Talk, f: Fact)
    requires Scene(w, trace, run, talk) && run.work.Active? && Records(w, talk.ses, f)
    requires var n := |FactsOf(w, trace)| + 1; f.id == FactID(n) && f.sequence == n && f.timestamp == 1
    ensures Scene(w, trace + [Worked(f)], run, Said(run, talk, f))
    ensures FactsOf(w, trace + [Worked(f)]) == FactsOf(w, trace) + [f]
  {
    hide Records, NextSession, FactID, RunOf, Legal, MayWrite, SessionOf;
    Extend(ClaimOf(w), trace, Worked(f));
    RunAfterWork(ClaimOf(w), trace, f);
    assert (trace + [Worked(f)])[..|trace|] == trace;
  }

  // ---------------------------------------------------------------- the stages of a run that nothing disturbs

  function OfferedRun(w: Assignment, id: Identity, grant: NetworkAuthority): Run {
    Begin(ClaimOf(w)).(inserted := true, grant := Some(grant), offer := Some(id))
  }

  function BoundRun(w: Assignment, id: Identity, grant: NetworkAuthority): Run {
    OfferedRun(w, id, grant).(reserved := Some(id), bound := Some(id), phase := Phase.Bound, events := [Op.Bound])
  }

  function RunningRun(w: Assignment, id: Identity, grant: NetworkAuthority): Run {
    BoundRun(w, id, grant).(phase := Phase.Running, events := [Op.Bound, BackendReady, Op.Running],
                            steps := GROUND.(seen := true, ready := true, started := Some(true)))
  }

  function ActiveRun(w: Assignment, id: Identity, grant: NetworkAuthority): Run {
    RunningRun(w, id, grant).(events := [Op.Bound, BackendReady, Op.Running, NetworkActivationAttempt, NetworkActive],
                              steps := Steps(true, true, Some(true), true, Some(true), true), work := Active)
  }

  function Answer(w: Assignment, id: Identity, grant: NetworkAuthority, state: NetworkState): Option<NetworkEvidence> {
    Some(NetworkEvidence(ClaimOf(w), id, grant.profiles, grant.expires, state, Simulated))
  }

  /** The claim is registered and a worker allocated for it. */
  lemma Arrives(w: Assignment, id: Identity, grant: NetworkAuthority) returns (t: seq<Event>)
    ensures Scene(w, t, OfferedRun(w, id, grant), SILENT)
  {
    hide Scene;
    var r := Begin(ClaimOf(w));
    Opening(w);
    SeesContext(w, [], r, SILENT);
    t := [] + [SawContext(Live)];
    var inserted := r.(inserted := true);
    Writes(w, t, InContext(r), SILENT, Op.Pending, inserted);
    t := t + [Wrote(Op.Pending, true)];
    var granted := inserted.(grant := Some(grant));
    Happens(w, t, inserted, SILENT, Granted(grant), granted);
    t := t + [Granted(grant)];
    t := Checks(w, t, granted, SILENT, grant);
    Happens(w, t, Rechecked(granted), SILENT, Allocated(Some(id)), OfferedRun(w, id, grant));
    t := t + [Allocated(Some(id))];
  }

  lemma Binds(w: Assignment, id: Identity, grant: NetworkAuthority) returns (t: seq<Event>)
    ensures Scene(w, t, BoundRun(w, id, grant), SILENT)
  {
    hide Scene;
    t := Arrives(w, id, grant);
    var offered := OfferedRun(w, id, grant);
    SeesClock(w, t, offered, SILENT, grant);
    t := t + [JustBefore(grant)];
    var reserved := InTime(offered).(reserved := Some(id));
    Happens(w, t, InTime(offered), SILENT, Reserved(id), reserved);
    t := t + [Reserved(id)];
    Writes(w, t, reserved, SILENT, Op.Bound, BoundRun(w, id, grant));
    t := t + [Wrote(Op.Bound, true)];
  }

  lemma Starts(w: Assignment, id: Identity, grant: NetworkAuthority, before: seq<Event>) returns (t: seq<Event>)
    requires Scene(w, before, BoundRun(w, id, grant), SILENT)
    ensures Scene(w, t, RunningRun(w, id, grant), SILENT)
  {
    hide Scene;
    var r := BoundRun(w, id, grant);
    t := Checks(w, before, r, SILENT, grant);
    var seen := r.(steps := GROUND.(seen := true));
    Happens(w, t, Rechecked(r), SILENT, Observed(id, true, true), seen);
    t := t + [Observed(id, true, true)];
    t := Checks(w, t, seen, SILENT, grant);
    var ready := r.(steps := GROUND.(seen := true, ready := true), events := [Op.Bound] + [BackendReady]);
    Writes(w, t, Rechecked(seen), SILENT, BackendReady, ready);
    t := t + [Wrote(BackendReady, true)];
    t := ChecksBack(w, t, ready, SILENT, grant);
    var started := ready.(steps := ready.steps.(started := Some(true)));
    Happens(w, t, Rechecked(ready), SILENT, Started(id, true), started);
    t := t + [Started(id, true)];
    t := Checks(w, t, started, SILENT, grant);
    assert [Op.Bound] + [BackendReady] + [Op.Running] == [Op.Bound, BackendReady, Op.Running];
    Writes(w, t, Rechecked(started), SILENT, Op.Running, RunningRun(w, id, grant));
    t := t + [Wrote(Op.Running, true)];
  }

  /** The network authority is activated and the work dispatched. */
  lemma Activates(w: Assignment, id: Identity, grant: NetworkAuthority, before: seq<Event>) returns (t: seq<Event>)
    requires Scene(w, before, RunningRun(w, id, grant), SILENT)
    ensures Scene(w, t, Rechecked(ActiveRun(w, id, grant)), SILENT)
  {
    hide Scene;
    var r := RunningRun(w, id, grant);
    t := Checks(w, before, r, SILENT, grant);
    var tried := r.(steps := r.steps.(attempted := true), events := r.events + [NetworkActivationAttempt]);
    Writes(w, t, Rechecked(r), SILENT, NetworkActivationAttempt, tried);
    t := t + [Wrote(NetworkActivationAttempt, true)];
    t := Checks(w, t, tried, SILENT, grant);
    var e := Activated(id, Answer(w, id, grant, ActiveState));
    var matched := tried.(steps := tried.steps.(matched := Some(true)));
    Happens(w, t, Rechecked(tried), SILENT, e, matched);
    t := t + [e];
    t := Checks(w, t, matched, SILENT, grant);
    var active := matched.(steps := matched.steps.(active := true), events := matched.events + [NetworkActive]);
    Writes(w, t, Rechecked(matched), SILENT, NetworkActive, active);
    t := t + [Wrote(NetworkActive, true)];
    t := Checks(w, t, active, SILENT, grant);
    t := Checks(w, t, Rechecked(active), SILENT, grant);
    assert active.events == [Op.Bound, BackendReady, Op.Running, NetworkActivationAttempt, NetworkActive];
    Happens(w, t, Rechecked(active), SILENT, Event.Dispatched, Rechecked(ActiveRun(w, id, grant)));
    t := t + [Event.Dispatched];
  }

  // ---------------------------------------------------------------- release

  /** An ended run whose worker is still held. */
  predicate Ending(w: Assignment, run: Run, id: Identity, grant: NetworkAuthority) {
    run.claim == ClaimOf(w) && run.inserted && TerminalPhase(run.phase) && run.reserved == Some(id) && run.grant == Some(grant) && run.release == HELD &&
    !run.checks.clock && !run.checks.context
  }

  function RevokedRun(run: Run): Run {
    run.(release := HELD.(revocations := [true]), events := run.events + [NetworkRevocationAttempt] + [NetworkRevoked])
  }

  function GoneRun(run: Run, ok: bool): Run {
    run.(release := Release(false, run.release.revocations, false, Some(ok), true, None, false),
         events := run.events + [if ok then TerminateSucceeded else TerminateFailed], faults := run.faults.(canceled := run.faults.canceled || !ok))
  }

  function ReleasedRun(run: Run, ok: bool): Run {
    GoneRun(run, ok).(release := Release(false, run.release.revocations, false, Some(ok), true, Some(true), true),
                      events := GoneRun(run, ok).events + [CleanupSucceeded])
  }

  lemma Revokes(w: Assignment, id: Identity, grant: NetworkAuthority, before: seq<Event>, r: Run, talk: Talk) returns (t: seq<Event>)
    requires Scene(w, before, r, talk) && Ending(w, r, id, grant)
    ensures Scene(w, t, RevokedRun(r), talk)
  {
    hide Scene;
    var asked := r.(release := HELD.(revoking := true), events := r.events + [NetworkRevocationAttempt]);
    Writes(w, before, r, talk, NetworkRevocationAttempt, asked);
    t := before + [Wrote(NetworkRevocationAttempt, true)];
    var e := Revoked(id, Answer(w, id, grant, RevokedState));
    var answered := asked.(release := HELD.(revocations := [] + [true], unwritten := true));
    Happens(w, t, asked, talk, e, answered);
    t := t + [e];
    assert [] + [true] == [true];
    Writes(w, t, answered, talk, NetworkRevoked, RevokedRun(r));
    t := t + [Wrote(NetworkRevoked, true)];
  }

  /** A revoked run whose work has returned. */
  predicate Joinable(run: Run, id: Identity) {
    TerminalPhase(run.phase) && run.reserved == Some(id) && !run.work.Active? && run.release.revocations != [] &&
    run.release == HELD.(revocations := run.release.revocations) && !run.checks.clock && !run.checks.context
  }

  lemma Terminates(w: Assignment, id: Identity, before: seq<Event>, r: Run, talk: Talk) returns (t: seq<Event>)
    requires Scene(w, before, r, talk) && Joinable(r, id)
    ensures Scene(w, t, GoneRun(r, true), talk)
  {
    hide Scene, MayEnd;
    var gone := r.(release := r.release.(terminated := Some(true)));
    Happens(w, before, r, talk, Terminated(id, true), gone);
    t := before + [Terminated(id, true)];
    Writes(w, t, gone, talk, TerminateSucceeded, GoneRun(r, true));
    t := t + [Wrote(TerminateSucceeded, true)];
  }

  /** Termination fails with an error that wraps a cancellation. */
  lemma FailsToTerminate(w: Assignment, id: Identity, before: seq<Event>, r: Run, talk: Talk) returns (t: seq<Event>)
    requires Scene(w, before, r, talk) && Joinable(r, id)
    ensures Scene(w, t, GoneRun(r, false), talk)
  {
    hide Scene, MayEnd;
    var gone := r.(release := r.release.(terminated := Some(false)));
    Happens(w, before, r, talk, Terminated(id, false), gone);
    t := before + [Terminated(id, false)];
    var wrapped := gone.(faults := gone.faults.(canceled := true));
    Happens(w, t, gone, talk, Wrapped, wrapped);
    t := t + [Wrapped];
    Writes(w, t, wrapped, talk, TerminateFailed, GoneRun(r, false));
    t := t + [Wrote(TerminateFailed, true)];
  }

  lemma CleansUp(w: Assignment, id: Identity, before: seq<Event>, r: Run, ok: bool, talk: Talk) returns (t: seq<Event>)
    requires Scene(w, before, GoneRun(r, ok), talk) && Joinable(r, id)
    ensures Scene(w, t, ReleasedRun(r, ok), talk)
  {
    hide Scene, MayEnd, TerminalPhaseOf, Matches;
    var noted := GoneRun(r, ok);
    var clear := noted.(release := noted.release.(cleaned := Some(true)));
    Happens(w, before, noted, talk, Cleaned(id, true), clear);
    t := before + [Cleaned(id, true)];
    CleanupIsWritten(clear);
    Writes(w, t, clear, talk, CleanupSucceeded, ReleasedRun(r, ok));
    t := t + [Wrote(CleanupSucceeded, true)];
  }

  lemma CleanupIsWritten(r: Run)
    ensures AfterWrite(r, CleanupSucceeded, true) ==
            r.(events := r.events + [CleanupSucceeded], checks := Stale(r.checks), release := r.release.(cleanupWritten := true))
  {
  }

  lemma Releases(w: Assignment, id: Identity, before: seq<Event>, r: Run, talk: Talk) returns (t: seq<Event>)
    requires Scene(w, before, r, talk) && Joinable(r, id)
    ensures Scene(w, t, ReleasedRun(r, true), talk)
  {
    hide Scene, GoneRun, ReleasedRun;
    t := Terminates(w, id, before, r, talk);
    t := CleansUp(w, id, t, r, true, talk);
  }

  // ---------------------------------------------------------------- publishing

  function Reported(run: Run, err: RunService.Err): Outcome {
    Outcome(StatusOf(run, err), "", if err.Nil? then "" else "failed", None, None)
  }

  function Closing(w: Assignment, o: Outcome, n: nat): Fact {
    Stamp(BLANK_FACT.(kind := RunOutcome, requestRef := w.issued.requestRef, claimID := ClaimOf(w), operation := o.status, reason := o.failure), n)
  }

  /** What is published at the end of a complete scene. */
  function Published(w: Assignment, trace: seq<Event>, run: Run, err: RunService.Err): View
    requires w.issued.claim.Some?
  {
    var facts := FactsOf(w, trace);
    Final(w, trace, facts, Reported(run, err), Closing(w, Reported(run, err), |facts| + 1))
  }

  /** The run is finished with this error and published. */
  ghost predicate Ends(w: Assignment, trace: seq<Event>, run: Run, err: RunService.Err) {
    var facts, o := FactsOf(w, trace), Reported(run, err);
    RunOf(ClaimOf(w), trace) == run && Finished(w, trace, facts, err, o, Closing(w, o, |facts| + 1))
  }

  lemma FailedIsNotBlank()
    ensures !Blank("failed")
  {
    assert "failed"[0] == 'f' && !IsSpace('f');
  }

  lemma ReportFits(w: Assignment, ses: Session, run: Run, err: RunService.Err, n: nat)
    requires w.issued.authority.Some?
    ensures OutcomeOf(w, ses, run, err, Reported(run, err)) && OutcomeFact(w, Reported(run, err), Closing(w, Reported(run, err), n))
  {
    hide Blank, FactID;
    FailedIsNotBlank();
  }

  /** The run is over and this is an error it may return. */
  predicate Over(run: Run, err: RunService.Err) {
    Complete(run) && run.inserted && (err.Nil? <==> RunService.Unblemished(run)) &&
    (RunService.Wraps(err) ==> run.phase.Failed? || run.faults.canceled) && (run.faults.canceled ==> RunService.Wraps(err)) &&
    RunService.Plausible(run.phase, run.bound)
  }

  /** The published view of a scene that is over is accepted exactly when it is publishable. */
  lemma SceneEnds(w: Assignment, trace: seq<Event>, run: Run, talk: Talk, err: RunService.Err)
    requires AdmittedWork(w) && Scene(w, trace, run, talk) && Over(run, err)
    ensures Ends(w, trace, run, err) && w.issued.claim.Some?
    ensures Accepts(Published(w, trace, run, err), w.issued.requestRef) <==>
            (run.reserved.Some? ==> run.bound.Some?) && talk.quiet && !LeftOpen(talk.ses.call) && (RunService.Wraps(err) ==> run.phase.Failed?)
  {
    hide AdmittedWork, Complete, OutcomeOf, OutcomeFact, FactID, Stamped, Journaled, Governed, Legal, RunOf, ValidIssuedState, Closing, Reported, Quiet,
         SessionOf, Accepts, RunService.Unblemished;
    var facts := FactsOf(w, trace);
    var f := Closing(w, Reported(run, err), |facts| + 1);
    WorkIsIssued(w);
    RunIsJournaled(w, trace);
    ReportFits(w, talk.ses, run, err, |facts| + 1);
    RunService.ReachedStateIsValid(w.issued, ClaimOf(w), run);
    NumberedIsStamped(facts);
    ClosingIsNumbered(w, Reported(run, err), |facts| + 1);
    NumberedIsStamped(facts + [f]);
    FinalAccepted(w, trace, facts, err, Reported(run, err), f);
  }

  lemma ClosingIsNumbered(w: Assignment, o: Outcome, n: nat)
    ensures Closing(w, o, n).id == FactID(n) && Closing(w, o, n).sequence == n && Closing(w, o, n).timestamp == 1
  {
  }

  lemma WorkIsIssued(w: Assignment)
    requires AdmittedWork(w)
    ensures w.issued.claim.Some? && w.issued.authority.Some? && RunService.Admitted(w.issued, ClaimOf(w))
  {
    hide ValidIssuedState;
  }

  // ---------------------------------------------------------------- a run that succeeds

  /** The work succeeds and its network authority is revoked. */
  function SucceededRun(w: Assignment, id: Identity, grant: NetworkAuthority): Run {
    var active := ActiveRun(w, id, grant);
    RevokedRun(active.(work := Joined(true), phase := Phase.Succeeded, terminalOp := Op.Succeeded, events := active.events + [Op.Succeeded]))
  }

  lemma Succeeds(w: Assignment, id: Identity, grant: NetworkAuthority) returns (t: seq<Event>)
    ensures Scene(w, t, SucceededRun(w, id, grant), SILENT)
  {
    hide Scene;
    t := Binds(w, id, grant);
    t := Starts(w, id, grant, t);
    t := Activates(w, id, grant, t);
    var active := Rechecked(ActiveRun(w, id, grant));
    t := ChecksBack(w, t, active, SILENT, grant);
    var back := ActiveRun(w, id, grant).(work := Joined(true));
    Happens(w, t, active, SILENT, Returned(true), back);
    t := t + [Returned(true)];
    t := ChecksBack(w, t, back, SILENT, grant);
    var done := back.(phase := Phase.Succeeded, terminalOp := Op.Succeeded, events := back.events + [Op.Succeeded]);
    AfterEnd(Rechecked(back), Op.Succeeded, true);
    Writes(w, t, Rechecked(back), SILENT, Op.Succeeded, done);
    t := t + [Wrote(Op.Succeeded, true)];
    t := Revokes(w, id, grant, t, done, SILENT);
  }

  /** For every admitted work and acceptable worker there is a run that ends without an error and is accepted. */
  lemma SuccessIsAccepted(w: Assignment, id: Identity, grant: NetworkAuthority)
    requires AdmittedWork(w) && ValidIdentity(id)
    ensures w.issued.claim.Some?
    ensures exists trace, run :: Ends(w, trace, run, RunService.Nil) && run.phase.Succeeded? && Accepts(Published(w, trace, run, RunService.Nil), w.issued.requestRef)
  {
    hide Scene, AdmittedWork, Accepts, Ends, ValidIdentity, Published;
    var t := Succeeds(w, id, grant);
    t := Releases(w, id, t, SucceededRun(w, id, grant), SILENT);
    SceneEnds(w, t, ReleasedRun(SucceededRun(w, id, grant), true), SILENT, RunService.Nil);
  }

  // ---------------------------------------------------------------- four runs that are refused

  /** A run that succeeds is refused when terminating its worker fails with an error that wraps a cancellation. */
  lemma CanceledTeardownIsRefused(w: Assignment, id: Identity, grant: NetworkAuthority)
    requires AdmittedWork(w) && ValidIdentity(id)
    ensures w.issued.claim.Some?
    ensures exists trace, run :: Ends(w, trace, run, RunService.Error(true)) && run.phase.Succeeded? && run.release.terminated == Some(false) &&
                                 !Accepts(Published(w, trace, run, RunService.Error(true)), w.issued.requestRef)
  {
    hide Scene, AdmittedWork, Accepts, Ends, ValidIdentity, Published;
    var r := SucceededRun(w, id, grant);
    var t := Succeeds(w, id, grant);
    t := FailsToTerminate(w, id, t, r, SILENT);
    t := CleansUp(w, id, t, r, false, SILENT);
    SceneEnds(w, t, ReleasedRun(r, false), SILENT, RunService.Error(true));
  }

  /** The deadline passes during a successful allocation: the claim expires, and the worker is reserved only to be released. */
  function LateRun(w: Assignment, id: Identity, grant: NetworkAuthority): Run {
    OfferedRun(w, id, grant).(phase := Phase.Expired, terminalOp := Op.Expired, events := [Op.Expired], reserved := Some(id), checks := UNCHECKED.(late := true))
  }

  lemma ArrivesLate(w: Assignment, id: Identity, grant: NetworkAuthority) returns (t: seq<Event>)
    ensures Scene(w, t, LateRun(w, id, grant), SILENT)
  {
    hide Scene;
    t := Arrives(w, id, grant);
    var offered := OfferedRun(w, id, grant);
    var late := offered.(checks := UNCHECKED.(late := true));
    Happens(w, t, offered, SILENT, SawClock(grant.expires), late);
    t := t + [SawClock(grant.expires)];
    var ended := LateRun(w, id, grant).(reserved := None);
    AfterEnd(late, Op.Expired, true);
    Writes(w, t, late, SILENT, Op.Expired, ended);
    t := t + [Wrote(Op.Expired, true)];
    Happens(w, t, ended, SILENT, Reserved(id), LateRun(w, id, grant));
    t := t + [Reserved(id)];
  }

  /** A worker released without having been bound is refused. */
  lemma LateWorkerIsRefused(w: Assignment, id: Identity, grant: NetworkAuthority)
    requires AdmittedWork(w)
    ensures w.issued.claim.Some?
    ensures exists trace, run :: Ends(w, trace, run, RunService.PLAIN) && run.reserved == Some(id) && run.bound.None? &&
                                 !Accepts(Published(w, trace, run, RunService.PLAIN), w.issued.requestRef)
  {
    hide Scene, AdmittedWork, Accepts, Ends, Published;
    var t := ArrivesLate(w, id, grant);
    var r := RevokedRun(LateRun(w, id, grant));
    t := Revokes(w, id, grant, t, LateRun(w, id, grant), SILENT);
    t := Releases(w, id, t, r, SILENT);
    SceneEnds(w, t, ReleasedRun(r, true), SILENT, RunService.PLAIN);
  }

  function CallFact(w: Assignment, kind: Kind, n: nat): Fact {
    Stamp(BLANK_FACT.(kind := kind, requestRef := w.issued.requestRef, claimID := ClaimOf(w), invocationID := "call", operation := ModelInvoke), n)
  }

  lemma BudgetIsRecorded(w: Assignment, n: nat)
    requires w.issued.claim.Some? && w.issued.authority.Some? && CallLimit(w) > 0
    ensures var f := CallFact(w, ModelBudgetReservation, n).(code := ModelCallReserved, callCount := 1, callLimit := CallLimit(w));
            Records(w, FRESH, f) && NextSession(FRESH, f) == FRESH.(call := Budgeted("call"), budgeted := {"call"}) &&
            f.id == FactID(n) && f.sequence == n && f.timestamp == 1
  {
    hide FactID;
    FactIDNotEmpty(n);
  }

  lemma PermissionIsRecorded(w: Assignment, n: nat)
    requires w.issued.claim.Some? && w.issued.authority.Some? && w.issued.authority.value.model != ""
    ensures var f := CallFact(w, ModelDecision, n).(result := Allow, target := w.issued.authority.value.model, policyRef := Some(w.issued.policyRef));
            var ses := FRESH.(call := Budgeted("call"), budgeted := {"call"});
            Records(w, ses, f) && NextSession(ses, f).call == Allowed(ModelInvoke, "call", w.issued.authority.value.model) &&
            f.id == FactID(n) && f.sequence == n && f.timestamp == 1
  {
    hide FactID;
    FactIDNotEmpty(n);
  }

  /** One unit of the budget is taken and the model call allowed. */
  lemma Permits(w: Assignment, run: Run, before: seq<Event>) returns (t: seq<Event>, talk: Talk)
    requires w.issued.claim.Some? && w.issued.authority.Some? && CallLimit(w) > 0 && w.issued.authority.value.model != ""
    requires Scene(w, before, run, SILENT) && run.work.Active? && !TerminalPhase(run.phase)
    ensures Scene(w, t, run, talk) && talk.ses.call.Allowed?
  {
    hide Scene, Records, NextSession, CallLimit, FactID;
    var n := |FactsOf(w, before)| + 1;
    BudgetIsRecorded(w, n);
    var unit := CallFact(w, ModelBudgetReservation, n).(code := ModelCallReserved, callCount := 1, callLimit := CallLimit(w));
    Works(w, before, run, SILENT, unit);
    t, talk := before + [Worked(unit)], Said(run, SILENT, unit);
    PermissionIsRecorded(w, n + 1);
    var permit := CallFact(w, ModelDecision, n + 1).(result := Allow, target := w.issued.authority.value.model, policyRef := Some(w.issued.policyRef));
    Works(w, t, run, talk, permit);
    t, talk := t + [Worked(permit)], Said(run, talk, permit);
  }

  /** The deadline passes while the work is running. */
  function ExpiredRun(w: Assignment, id: Identity, grant: NetworkAuthority): Run {
    var active := ActiveRun(w, id, grant);
    active.(phase := Phase.Expired, terminalOp := Op.Expired, events := active.events + [Op.Expired], checks := UNCHECKED.(late := true))
  }

  lemma Expires(w: Assignment, id: Identity, grant: NetworkAuthority, before: seq<Event>, talk: Talk) returns (t: seq<Event>)
    requires Scene(w, before, Rechecked(ActiveRun(w, id, grant)), talk)
    ensures Scene(w, t, ExpiredRun(w, id, grant), talk)
  {
    hide Scene;
    var active := Rechecked(ActiveRun(w, id, grant));
    var late := active.(checks := active.checks.(clock := false, late := true));
    Happens(w, before, active, talk, SawClock(grant.expires), late);
    t := before + [SawClock(grant.expires)];
    AfterEnd(late, Op.Expired, true);
    Writes(w, t, late, talk, Op.Expired, ExpiredRun(w, id, grant));
    t := t + [Wrote(Op.Expired, true)];
  }

  /** The network authority is revoked, then the work joined, then the worker released. */
  function StoppedRun(w: Assignment, id: Identity, grant: NetworkAuthority): Run { RevokedRun(ExpiredRun(w, id, grant)).(work := Joined(false)) }

  lemma Stops(w: Assignment, id: Identity, grant: NetworkAuthority, before: seq<Event>, talk: Talk) returns (t: seq<Event>)
    requires Scene(w, before, ExpiredRun(w, id, grant), talk)
    ensures Scene(w, t, ReleasedRun(StoppedRun(w, id, grant), true), talk)
  {
    hide Scene;
    var ended := ExpiredRun(w, id, grant);
    t := Revokes(w, id, grant, before, ended, talk);
    Happens(w, t, RevokedRun(ended), talk, Returned(false), StoppedRun(w, id, grant));
    t := t + [Returned(false)];
    t := Releases(w, id, t, StoppedRun(w, id, grant), talk);
  }

  lemma StoppedIsOver(w: Assignment, id: Identity, grant: NetworkAuthority)
    requires ValidIdentity(id)
    ensures Over(ReleasedRun(StoppedRun(w, id, grant), true), RunService.PLAIN) && ReleasedRun(StoppedRun(w, id, grant), true).bound == Some(id)
  {
    hide ValidIdentity;
  }

  /** A call that was allowed and then neither attempted nor closed, because the deadline passed in between, is refused. */
  lemma OpenCallIsRefused(w: Assignment, id: Identity, grant: NetworkAuthority)
    requires AdmittedWork(w) && ValidIdentity(id) && w.issued.authority.Some? && w.issued.authority.value.model != ""
    ensures w.issued.claim.Some?
    ensures exists trace, run :: Ends(w, trace, run, RunService.PLAIN) && run.bound == Some(id) && SessionOf(trace).call.Allowed? &&
                                 !Accepts(Published(w, trace, run, RunService.PLAIN), w.issued.requestRef)
  {
    hide Scene, AdmittedWork, Accepts, Ends, ValidIdentity, Published, CallLimit, ReleasedRun, StoppedRun, Over;
    WorkIsIssued(w);
    LimitIsPositive(w);
    var t := Binds(w, id, grant);
    t := Starts(w, id, grant, t);
    t := Activates(w, id, grant, t);
    var talk;
    t, talk := Permits(w, Rechecked(ActiveRun(w, id, grant)), t);
    t := Expires(w, id, grant, t, talk);
    t := Stops(w, id, grant, t, talk);
    StoppedIsOver(w, id, grant);
    SceneEnds(w, t, ReleasedRun(StoppedRun(w, id, grant), true), talk, RunService.PLAIN);
    SceneTalk(w, t, ReleasedRun(StoppedRun(w, id, grant), true), talk);
  }

  /** The worker reports a turn. */
  function TurnFact(w: Assignment, n: nat): Fact {
    Stamp(BLANK_FACT.(kind := WorkerActivity, requestRef := w.issued.requestRef, claimID := ClaimOf(w), operation := TurnStarted), n)
  }

  lemma TurnIsRecorded(w: Assignment, n: nat)
    requires w.issued.claim.Some?
    ensures Records(w, FRESH, TurnFact(w, n)) && !CallCancelled(TurnFact(w, n))
    ensures TurnFact(w, n).id == FactID(n) && TurnFact(w, n).sequence == n && TurnFact(w, n).timestamp == 1
  {
    hide FactID;
    FactIDNotEmpty(n);
  }

  /** A step of the worker that is recorded after the claim has ended, before the work is joined, is refused. */
  lemma LateFactIsRefused(w: Assignment, id: Identity, grant: NetworkAuthority)
    requires AdmittedWork(w) && ValidIdentity(id)
    ensures w.issued.claim.Some?
    ensures exists trace, run :: Ends(w, trace, run, RunService.PLAIN) && run.bound == Some(id) && !Quiet(ClaimOf(w), trace) &&
                                 !Accepts(Published(w, trace, run, RunService.PLAIN), w.issued.requestRef)
  {
    hide Scene, AdmittedWork, Accepts, Ends, ValidIdentity, Published, ReleasedRun, StoppedRun, Over, Records, NextSession, FactID, TurnFact;
    WorkIsIssued(w);
    var t := Binds(w, id, grant);
    t := Starts(w, id, grant, t);
    t := Activates(w, id, grant, t);
    t := Expires(w, id, grant, t, SILENT);
    var ended, f := ExpiredRun(w, id, grant), TurnFact(w, |FactsOf(w, t)| + 1);
    TurnIsRecorded(w, |FactsOf(w, t)| + 1);
    Works(w, t, ended, SILENT, f);
    var talk := Said(ended, SILENT, f);
    t := Stops(w, id, grant, t + [Worked(f)], talk);
    StoppedIsOver(w, id, grant);
    SceneEnds(w, t, ReleasedRun(StoppedRun(w, id, grant), true), talk, RunService.PLAIN);
    SceneTalk(w, t, ReleasedRun(StoppedRun(w, id, grant), true), talk);
  }

  lemma SceneTalk(w: Assignment, trace: seq<Event>, run: Run, talk: Talk)
    requires Scene(w, trace, run, talk)
    ensures Quiet(ClaimOf(w), trace) == talk.quiet && SessionOf(trace) == talk.ses
  {
  }
}
