/** The producer meets the checker: the facts that an admitted run leaves behind, at any moment and at its
    end, are facts the client accepts. */
module Producer {
  import opened Evidence
  import opened Protocol
  import opened ClientAuthority
  import opened Checker
  import opened Session
  import opened Lifecycle
  import opened Numbering
  import Discipline

  // ---------------------------------------------------------------- admission

  /** An admitted Allow request with a fresh Pending claim and the differences recorded for its authority. */
  predicate AdmittedWork(w: Assignment) {
    ValidClaimRequest(w.request) && w.request.name == w.issued.requestRef && ValidIssuedState(w.issued) && w.issued.decision.result.Allow? &&
    w.issued.claim.Some? && w.issued.authority.Some? && w.issued.claim.value.phase.Pending? && w.issued.claim.value.identity.None? &&
    w.issued.evidence.events == [] && !Blank(w.issued.principal.team) && !Blank(w.issued.principal.context) &&
    w.issued.action == Action(ClaimCreate, w.request.projectRef, w.request.templateRef) &&
    AuthorityWithinRequest(w.issued.authority.value, w.request) &&
    ValidAuthorityChanges(w.request, w.issued.authority.value, w.changes)
  }

  function ClaimOf(w: Assignment): string { if w.issued.claim.Some? then w.issued.claim.value.id else "" }

  predicate ReceivedFact(w: Assignment, f: Fact) {
    Bare(f).(reason := "", code := NoCode) == BLANK_FACT.(kind := RequestReceived, requestRef := w.issued.requestRef)
  }

  predicate ResolutionFact(w: Assignment, f: Fact) {
    Bare(f).(reason := "", code := NoCode) ==
      BLANK_FACT.(kind := RequestResolution, requestRef := w.issued.requestRef, decision := Some(w.issued.decision), result := Allow,
                  policyRef := Some(w.issued.decision.policyRef))
  }

  predicate AuthorityFact(w: Assignment, f: Fact) {
    Bare(f).(reason := "", code := NoCode) ==
      BLANK_FACT.(kind := AuthorityResolved, requestRef := w.issued.requestRef, claimID := ClaimOf(w), authority := w.issued.authority,
                  changes := w.changes, policyRef := Some(w.issued.decision.policyRef))
  }

  // ---------------------------------------------------------------- the journal of a run

  /** The facts a journal holds once the run has produced `trace`. */
  predicate Journaled(w: Assignment, trace: seq<Event>, facts: seq<Fact>) {
    if trace == [] then
      |facts| == 3 && ReceivedFact(w, facts[0]) && ResolutionFact(w, facts[1]) && AuthorityFact(w, facts[2])
    else
      var before, e := trace[..|trace| - 1], trace[|trace| - 1];
      match e
      case Wrote(op, ok) =>
        if ok then facts != [] && Journaled(w, before, facts[..|facts| - 1]) && Projects(w, RunOf(ClaimOf(w), trace), op, facts[|facts| - 1])
        else Journaled(w, before, facts)
      case Worked(fact) => facts != [] && Journaled(w, before, facts[..|facts| - 1]) && facts[|facts| - 1] == fact
      case _ => Journaled(w, before, facts)
  }

  function SessionOf(trace: seq<Event>): Session {
    if trace == [] then FRESH else
    var before, e := SessionOf(trace[..|trace| - 1]), trace[|trace| - 1];
    if e.Worked? then NextSession(before, e.fact) else before
  }

  /** The work records only what its session may record. */
  predicate Governed(w: Assignment, trace: seq<Event>) {
    trace == [] ||
    var before, e := trace[..|trace| - 1], trace[|trace| - 1];
    Governed(w, before) && (e.Worked? ==> Records(w, SessionOf(before), e.fact))
  }

  /** How a call that was still in progress was cancelled. */
  predicate CallCancelled(f: Fact) { f.kind.ProviderOutcome? && f.status.Cancelled? }

  /** Once its claim has ended, the work recorded only cancellations of calls in progress. */
  predicate Quiet(claim: string, trace: seq<Event>) {
    trace == [] ||
    var before, e := trace[..|trace| - 1], trace[|trace| - 1];
    Quiet(claim, before) && (e.Worked? && TerminalPhase(RunOf(claim, before).phase) ==> CallCancelled(e.fact))
  }

  // ---------------------------------------------------------------- the cursor follows the journal

  ghost predicate LogFollows(facts: seq<Fact>, log: Log) {
    log.ids == IDs(facts) && log.lastSequence == LastSequence(facts) && log.received == 1 && log.resolutions == 1 && log.authorityResolved == 1 &&
    !log.outcomeSeen && log.outcomes == 0 && log.outcomeCode.NoCode?
  }

  ghost predicate Follows(w: Assignment, trace: seq<Event>, facts: seq<Fact>, c: Cursor) {
    var run := RunOf(ClaimOf(w), trace);
    LogFollows(facts, c.log) && LifeFollows(run, c.life) && NetFollows(run, c.net) && CallsFollow(SessionOf(trace), c.calls) &&
    OwnAction(w, SessionOf(trace)) && c.calls.actions.Keys <= IDs(facts)
  }

  /** The subject of a view of this work taken when the run was at `later`. */
  predicate Views(w: Assignment, s: Subject, later: Run) {
    AdmittedWork(w) && Concerns(s, w) && s.state.decision == w.issued.decision && TakenAt(s, later) && ShowsOnlyBound(later) &&
    (later.bound.Some? ==> later.bound.value.backend != "" && later.bound.value.worker != "")
  }

  /** A fact after admission is in order, if it is attributed to the claim. */
  lemma LogStep(s: Subject, facts: seq<Fact>, f: Fact, log: Log)
    requires LogFollows(facts, log) && Stamped(facts + [f]) && f.requestRef == s.ref && AttributionOk(s, f)
    requires f.kind.Runtime? || f.kind.WorkerActivity? || f.kind.ModelBudgetReservation? || f.kind.ModelDecision? || f.kind.ToolDecision? ||
             f.kind.ProviderAttempt? || f.kind.ProviderOutcome?
    ensures LogOk(s, log, f) && LogFollows(facts + [f], NextLog(s, log, f))
  {
    hide AttributionOk, AuthorityOk, ResolutionOk, ReceivedOk, RunOutcomeOk;
    assert (facts + [f])[..|facts|] == facts;
  }

  lemma ReceivedAccepted(w: Assignment, s: Subject, f: Fact, later: Run)
    requires Views(w, s, later) && ReceivedFact(w, f) && Stamped([f])
    ensures StepOk(s, START, f) && Next(s, START, f) == START.(log := Log({f.id}, f.sequence, 1, 0, 0, false, 0, NoCode))
  {
    hide ValidAuthorityChanges, AuthorityWithinRequest, ValidClaimRequest, ValidIssuedState;
    assert [f][..0] == [];
    assert Bare(f).(reason := "", code := NoCode).identity == f.identity;
  }

  lemma ResolutionAccepted(w: Assignment, s: Subject, f: Fact, later: Run, c: Cursor)
    requires Views(w, s, later) && ResolutionFact(w, f) && f.id != "" && f.timestamp != 0 && f.id !in c.log.ids && f.sequence > c.log.lastSequence
    requires c == START.(log := Log(c.log.ids, c.log.lastSequence, 1, 0, 0, false, 0, NoCode))
    ensures StepOk(s, c, f) && Next(s, c, f) == START.(log := Log(c.log.ids + {f.id}, f.sequence, 1, 1, 0, false, 0, NoCode))
  {
    hide ValidAuthorityChanges, AuthorityWithinRequest, ValidClaimRequest, ValidGranted, ValidTrail;
    assert Bare(f).(reason := "", code := NoCode).decision == f.decision;
  }

  lemma AuthorityAccepted(w: Assignment, s: Subject, f: Fact, later: Run, c: Cursor)
    requires Views(w, s, later) && AuthorityFact(w, f) && f.id != "" && f.timestamp != 0 && f.id !in c.log.ids && f.sequence > c.log.lastSequence
    requires c == START.(log := Log(c.log.ids, c.log.lastSequence, 1, 1, 0, false, 0, NoCode))
    ensures StepOk(s, c, f) && Next(s, c, f) == START.(log := Log(c.log.ids + {f.id}, f.sequence, 1, 1, 1, false, 0, NoCode))
  {
    hide ValidAuthorityChanges, AuthorityWithinRequest, ValidClaimRequest, ValidTrail;
    assert Bare(f).(reason := "", code := NoCode).authority == f.authority;
  }

  lemma ThreeStamped(facts: seq<Fact>)
    requires Stamped(facts) && |facts| == 3
    ensures Stamped([facts[0]]) && IDs(facts) == {facts[0].id, facts[1].id, facts[2].id}
    ensures facts[1].id != "" && facts[1].timestamp != 0 && facts[1].id != facts[0].id && facts[1].sequence > facts[0].sequence
    ensures facts[2].id != "" && facts[2].timestamp != 0 && facts[2].id !in {facts[0].id, facts[1].id} && facts[2].sequence > facts[1].sequence
  {
    assert facts[..2][..1] == facts[..1] == [facts[0]] && facts[..1][..0] == [];
    assert IDs([]) == {} && IDs(facts[..1]) == {facts[0].id} && IDs(facts[..2]) == {facts[0].id, facts[1].id};
  }

  lemma BeginFollowed(w: Assignment, facts: seq<Fact>, log: Log)
    requires LogFollows(facts, log)
    ensures Follows(w, [], facts, START.(log := log))
  {
  }

  lemma AdmissionAccepted(w: Assignment, s: Subject, facts: seq<Fact>, later: Run)
    requires Views(w, s, later) && Journaled(w, [], facts) && Stamped(facts)
    ensures Fold(s, facts).Some? && Follows(w, [], facts, Fold(s, facts).value)
  {
    hide StepOk, Next, Views, ReceivedFact, ResolutionFact, AuthorityFact, Follows, Stamped, Fold, IDs;
    ThreeStamped(facts);
    assert Fold(s, facts[..0]) == Some(START) by { EmptyFold(s); }
    ReceivedAccepted(w, s, facts[0], later);
    FoldStep(s, facts, 0);
    var one := Next(s, START, facts[0]);
    ResolutionAccepted(w, s, facts[1], later, one);
    FoldStep(s, facts, 1);
    var two := Next(s, one, facts[1]);
    AuthorityAccepted(w, s, facts[2], later, two);
    FoldStep(s, facts, 2);
    assert facts[..3] == facts;
    BeginFollowed(w, facts, Next(s, two, facts[2]).log);
  }

  lemma EmptyFold(s: Subject)
    ensures Fold(s, []) == Some(START)
  {
  }

  lemma QuietCalls(s: Subject, calls: Calls, f: Fact)
    requires f.kind.Runtime? && f.turn == 0 && f.actionRef == "" && !DeclaresAction(f) && f.callCount == 0 && f.callLimit == 0
    ensures CallsOk(s, calls, f) && NextCalls(calls, f) == calls
  {
  }

  lemma PolicyNamed(w: Assignment)
    requires AdmittedWork(w)
    ensures w.issued.policyRef.id != "" && w.issued.policyRef.version != ""
  {
    hide ValidGranted, ValidTrail, ValidClaimRequest, AuthorityWithinRequest, ValidAuthorityChanges;
  }

  /** A write that the journal took is accepted next. */
  lemma WriteStep(w: Assignment, s: Subject, trace: seq<Event>, op: Op, facts: seq<Fact>, f: Fact, later: Run, c: Cursor)
    requires Views(w, s, later) && Legal(ClaimOf(w), trace) && MayWrite(RunOf(ClaimOf(w), trace), op) && RunOf(ClaimOf(w), trace).clean
    requires Ahead(AfterWrite(RunOf(ClaimOf(w), trace), op, true), later)
    requires Projects(w, AfterWrite(RunOf(ClaimOf(w), trace), op, true), op, f) && Stamped(facts + [f]) && Follows(w, trace, facts, c)
    ensures StepOk(s, c, f) && Follows(w, trace + [Wrote(op, true)], facts + [f], Next(s, c, f))
  {
    hide Stamped, LogFollows, LifeFollows, NetFollows, CallsFollow, Sound, Projects, AfterWrite, Ahead, MayWrite, LogOk, RuntimeOk, CallsOk,
         AttachedOk, AttributionOk, NextLog, NextLife, NextNet, NextCalls, AdmittedWork, Guard, RunOf, TakenAt, ShowsOnlyBound;
    var run := RunOf(ClaimOf(w), trace);
    LegalIsSound(ClaimOf(w), trace);
    PolicyNamed(w);
    ProjectedFields(w, AfterWrite(run, op, true), op, f);
    WriteAttributed(w, s, run, op, f, later);
    WriteAccepted(w, s, run, op, f, later, c.life, c.net);
    LifeFollowed(w, s, run, op, f, later, c.life);
    NetFollowed(w, s, run, op, f, later, c.net);
    QuietCalls(s, c.calls, f);
    LogStep(s, facts, f, c.log);
    Extend(ClaimOf(w), trace, Wrote(op, true));
    assert (trace + [Wrote(op, true)])[..|trace|] == trace && (facts + [f])[..|facts|] == facts;
  }

  lemma WorkAttributed(w: Assignment, s: Subject, ses: Session, f: Fact, later: Run)
    requires Views(w, s, later) && Records(w, ses, f) && later.bound.Some?
    ensures AttributionOk(s, f) && AttachedOk(s, f)
  {
    hide AdmittedWork;
    PolicyNamed(w);
  }

  /** Work happens on a bound claim that reached Running, with its network active and, if it is still running,
      no release started. */
  lemma WorkGate(s: Subject, run: Run, life: Life, net: Net, f: Fact)
    requires Sound(run) && run.work.Active? && LifeFollows(run, life) && NetFollows(run, net)
    requires TerminalPhase(run.phase) ==> f.kind.ProviderOutcome? && f.status.Cancelled?
    ensures WorkGateOk(s, life, net, f) && run.bound.Some?
  {
    hide Discipline.ReleaseOrdered;
  }

  /** What every fact of the work has in common. */
  lemma RecordedFields(w: Assignment, ses: Session, f: Fact)
    requires Records(w, ses, f) && w.issued.claim.Some?
    ensures f.kind.WorkerActivity? || f.kind.ModelBudgetReservation? || f.kind.ModelDecision? || f.kind.ToolDecision? ||
            f.kind.ProviderAttempt? || f.kind.ProviderOutcome?
    ensures f.requestRef == w.issued.requestRef
  {
  }

  lemma RunAfterWork(claim: string, trace: seq<Event>, f: Fact)
    ensures RunOf(claim, trace + [Worked(f)]) == RunOf(claim, trace)
    ensures SessionOf(trace + [Worked(f)]) == NextSession(SessionOf(trace), f)
  {
    assert (trace + [Worked(f)])[..|trace|] == trace;
  }

  /** A fact of the work is accepted next. */
  lemma WorkStep(w: Assignment, s: Subject, trace: seq<Event>, facts: seq<Fact>, f: Fact, later: Run, c: Cursor)
    requires Views(w, s, later) && Legal(ClaimOf(w), trace) && RunOf(ClaimOf(w), trace).work.Active?
    requires Ahead(RunOf(ClaimOf(w), trace), later)
    requires Records(w, SessionOf(trace), f) && Stamped(facts + [f]) && Follows(w, trace, facts, c)
    requires TerminalPhase(RunOf(ClaimOf(w), trace).phase) ==> f.kind.ProviderOutcome? && f.status.Cancelled?
    ensures StepOk(s, c, f) && Follows(w, trace + [Worked(f)], facts + [f], Next(s, c, f))
  {
    hide LogFollows, LifeFollows, NetFollows, CallsFollow, Sound, LogOk, RuntimeOk, CallsOk, WorkGateOk,
         AttachedOk, AttributionOk, NextLog, NextCalls, AdmittedWork, Guard, RunOf, TakenAt, ShowsOnlyBound, Records, NextSession, OwnAction;
    var run := RunOf(ClaimOf(w), trace);
    LegalIsSound(ClaimOf(w), trace);
    RecordedFields(w, SessionOf(trace), f);
    WorkGate(s, run, c.life, c.net, f);
    WorkAttributed(w, s, SessionOf(trace), f, later);
    LogStep(s, facts, f, c.log);
    SessionAccepted(w, s, SessionOf(trace), c.calls, f);
    assert (facts + [f])[..|facts|] == facts;
    SessionFollowed(w, SessionOf(trace), c.calls, f);
    RunAfterWork(ClaimOf(w), trace, f);
    ActionsKnown(c.calls, facts, f);
  }

  lemma ActionsKnown(calls: Calls, facts: seq<Fact>, f: Fact)
    requires calls.actions.Keys <= IDs(facts)
    ensures NextCalls(calls, f).actions.Keys <= IDs(facts + [f])
  {
    assert (facts + [f])[..|facts|] == facts;
  }

  lemma AheadTrans(a: Run, b: Run, c: Run)
    requires Ahead(a, b) && Ahead(b, c)
    ensures Ahead(a, c)
  {
  }

  /** An event that leaves no fact changes nothing the checker follows. */
  lemma QuietStep(w: Assignment, trace: seq<Event>, e: Event, facts: seq<Fact>, c: Cursor)
    requires Follows(w, trace, facts, c) && Legal(ClaimOf(w), trace + [e]) && !e.Wrote? && !e.Worked?
    ensures Follows(w, trace + [e], facts, c)
  {
    hide LogFollows, CallsFollow, Guard;
    Extend(ClaimOf(w), trace, e);
    assert (trace + [e])[..|trace|] == trace;
    LegalIsSound(ClaimOf(w), trace);
    QuietRun(RunOf(ClaimOf(w), trace), e, c.life, c.net);
  }

  lemma QuietRun(run: Run, e: Event, life: Life, net: Net)
    requires LifeFollows(run, life) && NetFollows(run, net) && !e.Wrote? && !e.Worked? && Guard(run, e) && SoundRelease(run)
    ensures LifeFollows(After(run, e), life) && NetFollows(After(run, e), net)
  {
    hide Matches;
  }

  lemma NotQuietYet(claim: string, trace: seq<Event>)
    requires !Quiet(claim, trace)
    ensures trace != []
  {
  }

  lemma QuietBefore(w: Assignment, trace: seq<Event>)
    requires trace != [] && Governed(w, trace)
    ensures var before, e := trace[..|trace| - 1], trace[|trace| - 1];
            Governed(w, before) && (e.Worked? ==> Records(w, SessionOf(before), e.fact)) &&
            (Quiet(ClaimOf(w), trace) <==>
               Quiet(ClaimOf(w), before) && (e.Worked? && TerminalPhase(RunOf(ClaimOf(w), before).phase) ==> CallCancelled(e.fact)))
  {
    hide Records, RunOf, SessionOf;
  }

  /** The fact of one event is accepted next. */
  lemma FactStep(w: Assignment, s: Subject, before: seq<Event>, e: Event, earlier: seq<Fact>, f: Fact, later: Run, c: Cursor)
    requires Views(w, s, later) && Legal(ClaimOf(w), before) && RunOf(ClaimOf(w), before).clean && Guard(RunOf(ClaimOf(w), before), e)
    requires Ahead(RunOf(ClaimOf(w), before), later) && Ahead(After(RunOf(ClaimOf(w), before), e), later)
    requires Stamped(earlier + [f]) && Follows(w, before, earlier, c)
    requires (e.Wrote? && e.ok && Projects(w, After(RunOf(ClaimOf(w), before), e), e.op, f)) ||
             (e.Worked? && e.fact == f && Records(w, SessionOf(before), f) && (TerminalPhase(RunOf(ClaimOf(w), before).phase) ==> CallCancelled(f)))
    ensures StepOk(s, c, f) && Follows(w, before + [e], earlier + [f], Next(s, c, f))
  {
    hide Views, Follows, StepOk, Next, Guard, After, Projects, Records, Ahead, Stamped, MayWrite, RunOf, Legal, SessionOf;
    GuardOfFact(RunOf(ClaimOf(w), before), e);
    if e.Wrote? {
      Discipline.AfterIsWrite(RunOf(ClaimOf(w), before), e.op, e.ok);
      WriteStep(w, s, before, e.op, earlier, f, later, c);
    } else {
      WorkStep(w, s, before, earlier, f, later, c);
    }
  }

  /** Along a legal, governed run whose writes were all taken, the checker follows every fact. */
  lemma {:induction false} Produced(w: Assignment, s: Subject, trace: seq<Event>, facts: seq<Fact>, later: Run)
    requires Views(w, s, later) && Legal(ClaimOf(w), trace) && RunOf(ClaimOf(w), trace).clean && Ahead(RunOf(ClaimOf(w), trace), later)
    requires Journaled(w, trace, facts) && Stamped(facts) && Governed(w, trace) && Quiet(ClaimOf(w), trace)
    ensures Fold(s, facts).Some? && Follows(w, trace, facts, Fold(s, facts).value)
  {
    hide Views, Follows, StepOk, Next, Guard, After, Projects, Records, Ahead, IDs, MayWrite, SoundPhase, SoundRelease, SoundWork, Quiet, Governed;
    if trace == [] {
      AdmissionAccepted(w, s, facts, later);
    } else {
      var n := |trace| - 1;
      var before, e := trace[..n], trace[n];
      QuietBefore(w, trace);
      assert trace == before + [e];
      Extend(ClaimOf(w), before, e);
      LegalIsSound(ClaimOf(w), before);
      StaysAhead(RunOf(ClaimOf(w), before), e);
      AheadTrans(RunOf(ClaimOf(w), before), RunOf(ClaimOf(w), trace), later);
      Discipline.AfterFields(RunOf(ClaimOf(w), before), e);
      if e.Wrote? || e.Worked? {
        var m := |facts| - 1;
        var earlier, f := facts[..m], facts[m];
        assert facts == earlier + [f];
        Produced(w, s, before, earlier, later);
        FactStep(w, s, before, e, earlier, f, later, Fold(s, earlier).value);
      } else {
        Produced(w, s, before, facts, later);
        QuietStep(w, before, e, facts, Fold(s, facts).value);
      }
    }
  }

  lemma GuardOfFact(r: Run, e: Event)
    requires Guard(r, e)
    ensures e.Wrote? ==> MayWrite(r, e.op)
    ensures e.Worked? ==> r.work.Active?
  {
  }

  lemma RecordedIsWork(w: Assignment, ses: Session, calls: Calls, f: Fact)
    requires Records(w, ses, f) && CallsFollow(ses, calls)
    ensures WorkFact(f) && !f.kind.Runtime?
  {
    hide Plain;
  }

  /** A fact that the work records after the end of its claim is refused. */
  lemma LateFactRefused(w: Assignment, s: Subject, ses: Session, run: Run, c: Cursor, f: Fact)
    requires Records(w, ses, f) && CallsFollow(ses, c.calls) && TerminalPhase(run.phase) && !CallCancelled(f) && LifeFollows(run, c.life)
    ensures !StepOk(s, c, f)
  {
    hide CallsOk, LogOk, AttachedOk, RuntimeOk, FlagsFollow, Records, CallsFollow;
    RecordedIsWork(w, ses, c.calls, f);
  }

  /** Along a legal, governed run, the checker refuses the facts as soon as one of them is late. */
  lemma {:induction false} LateWorkRefused(w: Assignment, s: Subject, trace: seq<Event>, facts: seq<Fact>, later: Run)
    requires Views(w, s, later) && Legal(ClaimOf(w), trace) && RunOf(ClaimOf(w), trace).clean && Ahead(RunOf(ClaimOf(w), trace), later)
    requires Journaled(w, trace, facts) && Stamped(facts) && Governed(w, trace) && !Quiet(ClaimOf(w), trace)
    ensures Fold(s, facts).None?
  {
    hide Views, Follows, StepOk, Next, Guard, After, Projects, Records, Ahead, IDs, MayWrite, SoundPhase, SoundRelease, SoundWork, Quiet, Governed;
    var n := |trace| - 1;
    NotQuietYet(ClaimOf(w), trace);
    var before, e := trace[..n], trace[n];
    QuietBefore(w, trace);
    assert trace == before + [e];
    Extend(ClaimOf(w), before, e);
    LegalIsSound(ClaimOf(w), before);
    StaysAhead(RunOf(ClaimOf(w), before), e);
    AheadTrans(RunOf(ClaimOf(w), before), RunOf(ClaimOf(w), trace), later);
    Discipline.AfterFields(RunOf(ClaimOf(w), before), e);
    if e.Wrote? || e.Worked? {
      var m := |facts| - 1;
      var earlier, f := facts[..m], facts[m];
      if !Quiet(ClaimOf(w), before) {
        LateWorkRefused(w, s, before, earlier, later);
      } else {
        Produced(w, s, before, earlier, later);
        FollowsLife(w, before, earlier, Fold(s, earlier).value);
        LateFactRefused(w, s, SessionOf(before), RunOf(ClaimOf(w), before), Fold(s, earlier).value, f);
      }
    } else {
      LateWorkRefused(w, s, before, facts, later);
    }
  }

  lemma FollowsLife(w: Assignment, trace: seq<Event>, facts: seq<Fact>, c: Cursor)
    requires Follows(w, trace, facts, c)
    ensures LifeFollows(RunOf(ClaimOf(w), trace), c.life) && CallsFollow(SessionOf(trace), c.calls)
  {
  }
}
