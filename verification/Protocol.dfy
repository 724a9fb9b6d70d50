/** One governed run seen from outside: what the run service writes as evidence, what it asks of the
    backend, and what it observes of its context and clock. `Guard` says when each event may happen,
    and a trace is legal when every event was allowed by the events before it. */
module Protocol {
  import opened Evidence

  datatype Context = Live | Canceled | DeadlineExceeded

  datatype NetworkAuthority = NetworkAuthority(profiles: seq<string>, expires: int)
  datatype NetworkState = ActiveState | RevokedState | OtherState(name: string)
  datatype EvidenceLevel = Configured | Simulated | OtherLevel(name: string)
  datatype NetworkEvidence = NetworkEvidence(claim: string, identity: Identity, profiles: seq<string>, expires: int,
                                             state: NetworkState, level: EvidenceLevel)

  datatype Event =
    | Wrote(op: Op, ok: bool)                 // one evidence write, and whether the sink took it
    | SawContext(context: Context)
    | SawClock(now: int)
    | Granted(authority: NetworkAuthority)    // the network authority of the run is fixed
    | Unsupported                             // the backend cannot enforce network authority
    | Allocated(offer: Option<Identity>)      // the identity of a well-formed allocation, if there is one
    | Reserved(identity: Identity)
    | Taken(identity: Identity)               // the identity belongs to another claim
    | Observed(identity: Identity, sound: bool, ready: bool) // `sound`: for this claim and identity, without an error
    | Started(identity: Identity, ok: bool)
    | Activated(identity: Identity, evidence: Option<NetworkEvidence>)
    | Dispatched
    | Worked(fact: Fact)                      // a fact that the work recorded
    | Returned(ok: bool)
    | Revoked(identity: Identity, evidence: Option<NetworkEvidence>)
    | Terminated(identity: Identity, ok: bool)
    | Cleaned(identity: Identity, ok: bool)
    | Wrapped                                 // the error of a release call wrapped a cancellation

  datatype Work = Idle | Active | Joined(ok: bool)

  /** How far a bound run has come: observed ready, readiness written, how the start ended, activation attempted,
      whether the activation's evidence matched, activation written. */
  datatype Steps = Steps(seen: bool, ready: bool, started: Option<bool>, attempted: bool, matched: Option<bool>, active: bool)

  /** What the run knows of its context and clock: whether each was read as clear since the last write or call,
      whether the deadline was ever seen to have passed, and how the context was last seen. */
  datatype Checks = Checks(clock: bool, context: bool, late: bool, ended: Context)

  /** The release of an allocation: an open revocation attempt, the revocations made so far and whether each was
      confirmed, a revocation result not yet written, and how termination and cleanup ended. */
  datatype Release = Release(revoking: bool, revocations: seq<bool>, unwritten: bool,
                             terminated: Option<bool>, terminateWritten: bool, cleaned: Option<bool>, cleanupWritten: bool)

  /** What went wrong: nothing usable was allocated, another claim owns the worker, an observation failed or did not
      match, the error of a release call wrapped a cancellation. */
  datatype Faults = Faults(unallocated: bool, taken: bool, missed: bool, canceled: bool)

  /** What the events so far amount to; `clean` says that every evidence write so far was taken. */
  datatype Run = Run(
    claim: string, phase: Phase, inserted: bool, terminalOp: Op, events: seq<Op>, clean: bool,
    grant: Option<NetworkAuthority>, offer: Option<Identity>, reserved: Option<Identity>, bound: Option<Identity>,
    steps: Steps, work: Work, checks: Checks, release: Release, faults: Faults)

  const GROUND := Steps(false, false, None, false, None, false)
  const UNCHECKED := Checks(false, false, false, Live)
  const HELD := Release(false, [], false, None, false, None, false)
  const FAULTLESS := Faults(false, false, false, false)

  function Begin(claim: string): Run {
    Run(claim, Phase.Pending, false, NoOp, [], true, None, None, None, None, GROUND, Idle, UNCHECKED, HELD, FAULTLESS)
  }

  // ---------------------------------------------------------------- phases

  predicate TerminalPhase(phase: Phase) { phase.Succeeded? || phase.Failed? || phase.Expired? }

  predicate AllowedTransition(from: Phase, to: Phase) {
    match from
    case Pending => to.Bound? || to.Failed? || to.Expired?
    case Bound => to.Running? || to.Failed? || to.Expired?
    case Running => to.Succeeded? || to.Failed? || to.Expired?
    case _ => false
  }

  /** The phase that a terminal operation publishes. */
  function TerminalPhaseOf(op: Op): Option<Phase> {
    match op
    case Succeeded => Some(Phase.Succeeded)
    case Expired => Some(Phase.Expired)
    case Failed => Some(Phase.Failed)
    case Cancelled => Some(Phase.Failed)
    case AllocationFailed => Some(Phase.Failed)
    case StartFailed => Some(Phase.Failed)
    case NetworkActivationFailed => Some(Phase.Failed)
    case _ => None
  }

  function PhaseAfter(phase: Phase, op: Op): Phase {
    if op.Bound? then Phase.Bound
    else if op.Running? then Phase.Running
    else if TerminalPhaseOf(op).Some? then TerminalPhaseOf(op).value
    else phase
  }

  // ---------------------------------------------------------------- events

  predicate Matches(e: Option<NetworkEvidence>, claim: string, identity: Identity, state: NetworkState, expected: Option<NetworkAuthority>) {
    e.Some? && expected.Some? && e.value.claim == claim && e.value.identity == identity && e.value.state == state &&
    e.value.profiles == expected.value.profiles && e.value.expires == expected.value.expires &&
    (e.value.level.Configured? || e.value.level.Simulated?)
  }

  predicate Confirmed(release: Release) { release.revocations != [] && release.revocations[|release.revocations| - 1] }

  function StepsAfter(steps: Steps, op: Op): Steps {
    match op
    case BackendReady => steps.(ready := true)
    case NetworkActivationAttempt => steps.(attempted := true)
    case NetworkActive => steps.(active := true)
    case _ => steps
  }

  function ReleaseAfter(release: Release, op: Op): Release {
    match op
    case NetworkRevocationAttempt => release.(revoking := true)
    case NetworkRevoked => release.(unwritten := false)
    case NetworkRevocationFailed => release.(unwritten := false)
    case TerminateSucceeded => release.(terminateWritten := true)
    case TerminateFailed => release.(terminateWritten := true)
    case CleanupSucceeded => release.(cleanupWritten := true)
    case CleanupFailed => release.(cleanupWritten := true)
    case _ => release
  }

  /** Time has passed since the last reading of context and clock. */
  function Stale(checks: Checks): Checks { checks.(clock := false, context := false) }

  /** The deadline of a run is the expiry of its network authority. */
  predicate Before(grant: Option<NetworkAuthority>, now: int) { grant.Some? && now < grant.value.expires }

  predicate Passed(grant: Option<NetworkAuthority>, now: int) { grant.Some? && now >= grant.value.expires }

  predicate Clear(checks: Checks) { checks.clock && checks.context }

  function AfterWrite(r: Run, op: Op, ok: bool): Run {
    r.(phase := PhaseAfter(r.phase, op), inserted := r.inserted || op.Pending?, clean := r.clean && ok,
       terminalOp := if TerminalPhaseOf(op).Some? then op else r.terminalOp,
       events := if op.Pending? then r.events else r.events + [op],
       bound := if op.Bound? then r.reserved else r.bound,
       steps := StepsAfter(r.steps, op), checks := Stale(r.checks), release := ReleaseAfter(r.release, op))
  }

  function AfterRevocation(release: Release, confirmed: bool): Release {
    release.(revoking := false, unwritten := true, revocations := release.revocations + [confirmed])
  }

  function After(r: Run, e: Event): Run {
    match e
    case Wrote(op, ok) => AfterWrite(r, op, ok)
    case SawContext(context) => r.(checks := r.checks.(context := context.Live?, ended := context))
    case SawClock(now) => r.(checks := r.checks.(clock := Before(r.grant, now), late := r.checks.late || Passed(r.grant, now)))
    case Granted(authority) => r.(grant := Some(authority))
    case Unsupported => r.(faults := r.faults.(unallocated := true))
    case Allocated(offer) => r.(offer := offer, checks := Stale(r.checks), faults := r.faults.(unallocated := r.faults.unallocated || offer.None?))
    case Reserved(identity) => r.(reserved := Some(identity))
    case Taken(_) => r.(faults := r.faults.(taken := true))
    case Observed(_, sound, ready) =>
      r.(steps := r.steps.(seen := sound && ready), checks := Stale(r.checks), faults := r.faults.(missed := r.faults.missed || !sound))
    case Started(_, ok) => r.(steps := r.steps.(started := Some(ok)), checks := Stale(r.checks))
    case Activated(identity, evidence) =>
      r.(steps := r.steps.(matched := Some(Matches(evidence, r.claim, identity, ActiveState, r.grant))), checks := Stale(r.checks))
    case Dispatched => r.(work := Active)
    case Worked(_) => r
    case Returned(ok) => r.(work := Joined(ok), checks := Stale(r.checks))
    case Revoked(identity, evidence) =>
      r.(release := AfterRevocation(r.release, Matches(evidence, r.claim, identity, RevokedState, r.grant)), checks := Stale(r.checks))
    case Terminated(_, ok) => r.(release := r.release.(terminated := Some(ok)), checks := Stale(r.checks))
    case Cleaned(_, ok) => r.(release := r.release.(cleaned := Some(ok)), checks := Stale(r.checks))
    case Wrapped => r.(faults := r.faults.(canceled := true))
  }

  /** Why a claim that holds a worker may fail: a write was lost, an observation did not match, the work failed, or
      the worker's identity was not acceptable. */
  predicate HasFailed(r: Run) {
    !r.clean || r.faults.missed || r.work == Joined(false) || (r.phase.Pending? && r.reserved.Some? && !ValidIdentity(r.reserved.value))
  }

  /** A release call was not answered as asked. */
  predicate Flawed(release: Release) {
    (release.revocations != [] && !release.revocations[|release.revocations| - 1]) || release.terminated == Some(false) || release.cleaned == Some(false)
  }

  predicate MayEnd(r: Run, op: Op) {
    r.inserted && !TerminalPhase(r.phase) &&
    match op
    case AllocationFailed => r.phase.Pending? && r.reserved.None? && (r.faults.unallocated || r.faults.taken)
    case StartFailed => r.phase.Bound? && r.steps.ready && r.steps.started == Some(false)
    case NetworkActivationFailed => r.phase.Running? && r.steps.attempted && r.work.Idle? && (r.clean ==> !r.steps.active && r.steps.matched == Some(false))
    case Succeeded => r.phase.Running? && r.work == Joined(true) && Clear(r.checks) && r.clean
    case Failed => r.reserved.Some? && !r.work.Active? && (r.work.Joined? ==> Clear(r.checks)) && HasFailed(r)
    case Expired => (r.phase.Pending? ==> r.reserved.None?) && (r.checks.late || r.checks.ended.DeadlineExceeded?)
    case _ => (r.phase.Pending? ==> r.reserved.None?) && r.checks.ended.Canceled?
  }

  predicate MayWrite(r: Run, op: Op) {
    match op
    case Pending => !r.inserted
    case Bound => r.inserted && r.clean && r.phase.Pending? && r.reserved.Some? && r.checks.clock
    case BackendReady => r.clean && r.phase.Bound? && r.steps.seen && !r.steps.ready && Clear(r.checks)
    case Running => r.clean && r.phase.Bound? && r.steps.ready && r.steps.started == Some(true) && Clear(r.checks)
    case NetworkActivationAttempt => r.clean && r.phase.Running? && !r.steps.attempted && r.work.Idle? && Clear(r.checks)
    case NetworkActive => r.clean && r.phase.Running? && r.steps.attempted && r.steps.matched == Some(true) && !r.steps.active && r.work.Idle?
    case NetworkRevocationAttempt =>
      TerminalPhase(r.phase) && r.reserved.Some? && !r.release.revoking && !r.release.unwritten && !Confirmed(r.release) &&
      |r.release.revocations| < 2 && r.release.terminated.None?
    case NetworkRevoked => r.release.unwritten && Confirmed(r.release)
    case NetworkRevocationFailed => r.release.unwritten && !Confirmed(r.release)
    case TerminateSucceeded => r.release.terminated == Some(true) && !r.release.terminateWritten
    case TerminateFailed => r.release.terminated == Some(false) && !r.release.terminateWritten
    case CleanupSucceeded => r.release.cleaned == Some(true) && !r.release.cleanupWritten
    case CleanupFailed => r.release.cleaned == Some(false) && !r.release.cleanupWritten
    case _ => TerminalPhaseOf(op).Some? && MayEnd(r, op)
  }

  /** A revocation was made and reported, and no work is left. */
  predicate MayTerminate(r: Run, identity: Identity) {
    TerminalPhase(r.phase) && r.release.revocations != [] && !r.release.revoking && !r.release.unwritten && !r.work.Active? &&
    r.release.terminated.None? && r.reserved == Some(identity)
  }

  /** When each event may happen. */
  predicate Guard(r: Run, e: Event) {
    match e
    case Wrote(op, _) => MayWrite(r, op)
    case SawContext(_) => true
    case SawClock(_) => true
    case Granted(_) => r.grant.None? && r.phase.Pending?
    case Unsupported => r.inserted && r.phase.Pending? && r.reserved.None?
    case Allocated(_) => r.inserted && r.clean && r.phase.Pending? && r.reserved.None? && r.grant.Some? && Clear(r.checks)
    case Reserved(identity) => r.offer == Some(identity) && r.reserved.None? && (r.phase.Pending? || r.phase.Expired?)
    case Taken(identity) => r.offer == Some(identity) && r.reserved.None? && (r.phase.Pending? || r.phase.Expired?)
    case Observed(identity, _, _) => r.phase.Bound? && r.reserved == Some(identity) && !r.steps.ready && Clear(r.checks)
    case Started(identity, _) => r.clean && r.phase.Bound? && r.steps.ready && r.steps.started.None? && r.reserved == Some(identity) && Clear(r.checks)
    case Activated(identity, _) =>
      r.clean && r.phase.Running? && r.steps.attempted && !r.steps.active && r.reserved == Some(identity) && r.work.Idle? && Clear(r.checks)
    case Dispatched =>
      r.clean && r.phase.Running? && r.steps.started == Some(true) && r.steps.matched == Some(true) && r.steps.active && r.work.Idle? && Clear(r.checks)
    case Worked(_) => r.work.Active?
    case Returned(_) => r.work.Active? && (TerminalPhase(r.phase) ==> r.release.revocations != [])
    case Revoked(identity, _) => r.release.revoking && r.reserved == Some(identity)
    case Terminated(identity, _) => MayTerminate(r, identity)
    case Cleaned(identity, _) => r.release.terminateWritten && r.release.cleaned.None? && r.reserved == Some(identity)
    case Wrapped => TerminalPhase(r.phase) && r.reserved.Some? && Flawed(r.release)
  }

  function RunOf(claim: string, trace: seq<Event>): Run {
    if trace == [] then Begin(claim) else After(RunOf(claim, trace[..|trace| - 1]), trace[|trace| - 1])
  }

  /** Every event of the trace was allowed by the events before it. */
  predicate Legal(claim: string, trace: seq<Event>) {
    trace == [] || (Legal(claim, trace[..|trace| - 1]) && Guard(RunOf(claim, trace[..|trace| - 1]), trace[|trace| - 1]))
  }

  /** The run is over: nothing was inserted, or its first write failed, or it is terminal and every worker it was
      offered has been released, unless another claim owns it. */
  predicate Complete(r: Run) {
    !r.inserted || (!r.clean && r.phase.Pending? && r.events == [] && r.offer.None? && r.reserved.None?) ||
    (TerminalPhase(r.phase) && !r.work.Active? && (r.offer.Some? ==> r.reserved == r.offer || r.faults.taken) &&
     (r.reserved.Some? ==> r.release.terminateWritten && r.release.cleanupWritten && !r.release.unwritten && !r.release.revoking))
  }

  lemma Extend(claim: string, trace: seq<Event>, e: Event)
    ensures RunOf(claim, trace + [e]) == After(RunOf(claim, trace), e)
    ensures Legal(claim, trace + [e]) <==> Legal(claim, trace) && Guard(RunOf(claim, trace), e)
  {
    assert (trace + [e])[..|trace|] == trace;
  }

  lemma AfterKeepsClaim(r: Run, e: Event)
    ensures After(r, e).claim == r.claim
  {
  }

  lemma WritesKeepRevocations(release: Release, op: Op)
    ensures ReleaseAfter(release, op).revocations == release.revocations
  {
  }

  /** A terminal operation changes nothing but the phase and its name. */
  lemma AfterEnd(r: Run, op: Op, ok: bool)
    requires TerminalPhaseOf(op).Some?
    ensures AfterWrite(r, op, ok) ==
            r.(phase := TerminalPhaseOf(op).value, terminalOp := op, events := r.events + [op], clean := r.clean && ok, checks := Stale(r.checks))
  {
  }
}
