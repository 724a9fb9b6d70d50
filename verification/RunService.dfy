/** The run service: it owns the authoritative state of every claim and drives one claim at a time from
    Pending to a terminal phase over a backend, a clock, a caller's context and an evidence sink that may
    answer anything. */
module RunService {
  import opened Evidence
  import opened Protocol

  /** An error value; `canceled` says whether it wraps the cancellation of a context. */
  datatype Err = Nil | Error(canceled: bool)

  predicate Wraps(err: Err) { err.Error? && err.canceled }

  /** An error that holds both. */
  function Join(a: Err, b: Err): (both: Err)
    ensures both.Nil? <==> a.Nil? && b.Nil?
    ensures Wraps(both) <==> Wraps(a) || Wraps(b)
  {
    match (a, b)
    case (Nil, _) => b
    case (_, Nil) => a
    case (Error(c), Error(d)) => Error(c || d)
  }

  const PLAIN := Error(false)

  datatype Launch = Launch(profileRef: string, templateRef: string, credentialBearing: bool)

  datatype Allocation = Allocation(claim: string, identity: Identity)
  datatype Observation = Observation(claim: string, identity: Identity, ready: bool)
  datatype CleanupResult = CleanupResult(identity: Identity, released: bool)

  /** Everything one call of the service depends on but does not control. Each method answers arbitrarily;
      the context, once ended, stays as it ended, and the clock never goes back. */
  class World {
    const claim: string
    const supportsNetwork: bool
    const callerDeadline: Option<int>
    const poll: int
    var context: Context
    var now: int
    ghost var trace: seq<Event>
    ghost var run: Run

    ghost predicate Valid()
      reads this`trace, this`run
    {
      poll > 0 && run == RunOf(claim, trace) && run.claim == claim && Legal(claim, trace) && forall i | 0 <= i < |trace| :: AsksRightly(trace[i])
    }

    /** The backend is found lacking only if it cannot enforce network authority, and asked to allocate only if it can. */
    predicate AsksRightly(e: Event) { (e.Unsupported? ==> !supportsNetwork) && (e.Allocated? ==> supportsNetwork) }

    constructor (claim: string, supportsNetwork: bool, context: Context, callerDeadline: Option<int>, poll: int, now: int)
      requires poll > 0
      ensures Valid() && run == Begin(claim) && trace == []
      ensures this.claim == claim && this.supportsNetwork == supportsNetwork && this.context == context && this.callerDeadline == callerDeadline && this.poll == poll
    {
      this.claim, this.supportsNetwork, this.context := claim, supportsNetwork, context;
      this.callerDeadline, this.poll, this.now := callerDeadline, poll, now;
      trace, run := [], Begin(claim);
    }

    ghost method Emit(e: Event)
      requires Valid() && Guard(run, e) && AsksRightly(e)
      modifies this`trace, this`run
      ensures Valid() && run == After(old(run), e) && trace == old(trace) + [e]
    {
      hide Guard, After;
      Extend(claim, trace, e);
      AfterKeepsClaim(run, e);
      run := After(run, e);
      trace := trace + [e];
    }

    /** The evidence sink: takes the event or fails. */
    method OnEvent(op: Op) returns (err: Err)
      requires Valid() && MayWrite(run, op)
      modifies this`trace, this`run
      ensures Valid() && run == AfterWrite(old(run), op, err.Nil?) && trace == old(trace) + [Wrote(op, err.Nil?)]
    {
      hide RunOf, Legal;
      err := *;
      Emit(Wrote(op, err.Nil?));
    }

    /** The error of the caller's context, read now. */
    method ContextErr() returns (seen: Context)
      requires Valid()
      modifies this`context, this`trace, this`run
      ensures Valid() && context == seen && (old(context) != Live ==> seen == old(context))
      ensures run == old(run).(checks := old(run).checks.(context := seen.Live?, ended := seen))
    {
      hide RunOf, Legal;
      var next: Context := *;
      if context.Live? { context := next; }
      seen := context;
      Emit(SawContext(seen));
    }

    method Now() returns (t: int)
      requires Valid()
      modifies this`now
      ensures Valid() && now == t && t >= old(now)
    {
      hide RunOf, Legal;
      t :| now <= t;
      now := t;
    }

    method DeadlineReached(deadline: int) returns (late: bool)
      requires Valid() && Due(run, deadline)
      modifies this`now, this`trace, this`run
      ensures Valid() && now >= old(now) && (late <==> !(now < deadline))
      ensures run == old(run).(checks := old(run).checks.(clock := !late, late := old(run).checks.late || late))
    {
      hide RunOf, Legal;
      var t := Now();
      late := !(t < deadline);
      Emit(SawClock(t));
    }

    /** A timer set to the deadline has fired. */
    method TimerFired(deadline: int)
      requires Valid() && Due(run, deadline)
      modifies this`now, this`trace, this`run
      ensures Valid() && now >= old(now) && run == old(run).(checks := old(run).checks.(clock := false, late := true))
    {
      hide RunOf, Legal;
      var t :| now <= t && deadline <= t;
      now := t;
      Emit(SawClock(t));
    }

    method Wait()
      requires Valid()
      modifies this`now
      ensures Valid() && now >= old(now) + poll && now > old(now)
    {
      hide RunOf, Legal;
      var later :| now + poll <= later;
      now := later;
    }

    ghost method Grant(authority: NetworkAuthority)
      requires Valid() && run.grant.None? && run.phase.Pending?
      modifies this`trace, this`run
      ensures Valid() && run == old(run).(grant := Some(authority))
    {
      hide RunOf, Legal;
      Emit(Granted(authority));
    }

    ghost method LacksNetwork()
      requires Valid() && !supportsNetwork && run.inserted && run.phase.Pending? && run.reserved.None?
      modifies this`trace, this`run
      ensures Valid() && run == old(run).(faults := old(run).faults.(unallocated := true))
    {
      hide RunOf, Legal;
      Emit(Unsupported);
    }

    method Allocate() returns (allocation: Allocation, err: Err)
      requires Valid() && supportsNetwork && run.inserted && run.clean && run.phase.Pending? && run.reserved.None? && run.grant.Some? && Clear(run.checks)
      modifies this`trace, this`run
      ensures Valid()
      ensures var usable := err.Nil? && allocation.claim == claim && allocation.identity.backend != "" && allocation.identity.worker != "";
              var offer := if usable then Some(allocation.identity) else None;
              run == old(run).(checks := Stale(old(run).checks), offer := offer, faults := old(run).faults.(unallocated := old(run).faults.unallocated || offer.None?))
    {
      hide RunOf, Legal;
      allocation, err := *, *;
      Emit(Allocated(if err.Nil? && ValidAllocation(claim, allocation) then Some(allocation.identity) else None));
    }

    ghost method Reserve(identity: Identity)
      requires Valid() && run.offer == Some(identity) && run.reserved.None? && (run.phase.Pending? || run.phase.Expired?)
      modifies this`trace, this`run
      ensures Valid() && run == old(run).(reserved := Some(identity))
    {
      hide RunOf, Legal;
      Emit(Reserved(identity));
    }

    ghost method OwnedElsewhere(identity: Identity)
      requires Valid() && run.offer == Some(identity) && run.reserved.None? && (run.phase.Pending? || run.phase.Expired?)
      modifies this`trace, this`run
      ensures Valid() && run == old(run).(faults := old(run).faults.(taken := true))
    {
      hide RunOf, Legal;
      Emit(Taken(identity));
    }

    method Observe(identity: Identity) returns (observation: Observation, err: Err)
      requires Valid() && run.phase.Bound? && run.reserved == Some(identity) && !run.steps.ready && Clear(run.checks)
      modifies this`trace, this`run
      ensures Valid()
      ensures var sound := err.Nil? && observation.claim == claim && observation.identity == identity;
              run == old(run).(checks := Stale(old(run).checks), steps := old(run).steps.(seen := sound && observation.ready),
                               faults := old(run).faults.(missed := old(run).faults.missed || !sound))
    {
      hide RunOf, Legal;
      observation, err := *, *;
      Emit(Observed(identity, err.Nil? && observation.claim == claim && observation.identity == identity, observation.ready));
    }

    method Start(identity: Identity) returns (err: Err)
      requires Valid() && run.clean && run.phase.Bound? && run.steps.ready && run.steps.started.None? && run.reserved == Some(identity) && Clear(run.checks)
      modifies this`trace, this`run
      ensures Valid() && run == old(run).(checks := Stale(old(run).checks), steps := old(run).steps.(started := Some(err.Nil?)))
    {
      hide RunOf, Legal;
      err := *;
      Emit(Started(identity, err.Nil?));
    }

    /** `expired` is the error of the activation's own context afterwards. */
    method ActivateNetwork(identity: Identity) returns (evidence: NetworkEvidence, err: Err, expired: bool)
      requires Valid() && run.clean && run.phase.Running? && run.steps.attempted && !run.steps.active && run.reserved == Some(identity) && run.work.Idle? && Clear(run.checks)
      modifies this`trace, this`run
      ensures Valid()
      ensures run == old(run).(checks := Stale(old(run).checks),
                               steps := old(run).steps.(matched := Some(err.Nil? && Matches(Some(evidence), claim, identity, ActiveState, run.grant))))
    {
      hide RunOf, Legal;
      evidence, err, expired := *, *, *;
      if err.Nil? { Emit(Activated(identity, Some(evidence))); } else { Emit(Activated(identity, None)); }
    }

    /** The work callback starts in its own goroutine. */
    ghost method Dispatch()
      requires Valid() && run.clean && run.phase.Running? && run.steps.started == Some(true) && run.steps.matched == Some(true) && run.steps.active && run.work.Idle? && Clear(run.checks)
      modifies this`trace, this`run
      ensures Valid() && run == old(run).(work := Active)
    {
      hide RunOf, Legal;
      Emit(Dispatched);
    }

    /** Work that is still running may record facts at any time. */
    ghost method Interleave()
      requires Valid()
      modifies this`trace, this`run
      ensures Valid() && run == old(run)
    {
      hide RunOf, Legal;
      var count: nat :| true;
      while run.work.Active? && count > 0
        invariant Valid() && run == old(run)
      {
        var fact: Fact := *;
        Emit(Worked(fact));
        count := count - 1;
      }
    }

    /** Joining the work: it returns. */
    method Return() returns (err: Err)
      requires Valid() && run.work.Active? && (TerminalPhase(run.phase) ==> run.release.revocations != [])
      modifies this`trace, this`run
      ensures Valid() && run == old(run).(work := Joined(err.Nil?), checks := Stale(old(run).checks))
    {
      hide RunOf, Legal;
      err := *;
      Emit(Returned(err.Nil?));
    }

    method RevokeNetwork(identity: Identity) returns (evidence: NetworkEvidence, err: Err)
      requires Valid() && TerminalPhase(run.phase) && run.release.revoking && run.reserved == Some(identity)
      modifies this`trace, this`run
      ensures Valid()
      ensures var confirmed := err.Nil? && Matches(Some(evidence), claim, identity, RevokedState, run.grant);
              run == old(run).(checks := Stale(old(run).checks), release := AfterRevocation(old(run).release, confirmed),
                               faults := old(run).faults.(canceled := old(run).faults.canceled || Wraps(err)))
    {
      hide RunOf, Legal;
      evidence, err := *, *;
      if err.Nil? { Emit(Revoked(identity, Some(evidence))); } else { Emit(Revoked(identity, None)); }
      if Wraps(err) { Emit(Wrapped); }
    }

    method Terminate(identity: Identity) returns (err: Err)
      requires Valid() && MayTerminate(run, identity)
      modifies this`trace, this`run
      ensures Valid() && run == old(run).(checks := Stale(old(run).checks), release := old(run).release.(terminated := Some(err.Nil?)),
                                          faults := old(run).faults.(canceled := old(run).faults.canceled || Wraps(err)))
    {
      hide RunOf, Legal;
      err := *;
      Emit(Terminated(identity, err.Nil?));
      if Wraps(err) { Emit(Wrapped); }
    }

    method Cleanup(identity: Identity) returns (result: CleanupResult, err: Err)
      requires Valid() && TerminalPhase(run.phase) && run.release.terminateWritten && run.release.cleaned.None? && run.reserved == Some(identity)
      modifies this`trace, this`run
      ensures Valid()
      ensures run == old(run).(checks := Stale(old(run).checks), release := old(run).release.(cleaned := Some(err.Nil? && result.identity == identity && result.released)),
                               faults := old(run).faults.(canceled := old(run).faults.canceled || Wraps(err)))
    {
      hide RunOf, Legal;
      result, err := *, *;
      Emit(Cleaned(identity, err.Nil? && result.identity == identity && result.released));
      if Wraps(err) { Emit(Wrapped); }
    }
  }

  /** An allocation for this claim with a complete identity. */
  predicate ValidAllocation(claim: string, a: Allocation) {
    a.claim == claim && a.identity.backend != "" && a.identity.worker != ""
  }

  /** The run ends at this deadline. */
  predicate Due(run: Run, deadline: int) { run.grant.Some? && run.grant.value.expires == deadline }

  // ---------------------------------------------------------------- the claim's state

  predicate ValidInitialRun(issued: State, launch: Launch) {
    ValidIssuedState(issued) && issued.decision.result.Allow? && issued.claim.Some? && issued.authority.Some? &&
    issued.claim.value.phase.Pending? && issued.claim.value.identity.None? &&
    launch.profileRef != "" && launch.profileRef == issued.authority.value.runtime.profileRef &&
    launch.templateRef != "" && !launch.credentialBearing
  }

  /** The issued state once the run has come as far as `run`. */
  function StateOf(issued: State, run: Run): State
    requires issued.claim.Some?
  {
    Advanced(issued, run.phase, run.bound, run.events)
  }

  function Advanced(issued: State, phase: Phase, bound: Option<Identity>, events: seq<Op>): State
    requires issued.claim.Some?
  {
    issued.(claim := Some(issued.claim.value.(phase := phase, identity := bound)),
            evidence := issued.evidence.(events := issued.evidence.events + events))
  }

  // ---------------------------------------------------------------- shapes of a run

  /** The identity is bound and nothing has been released yet. */
  predicate Held(run: Run, identity: Identity) {
    run.inserted && run.reserved == Some(identity) && run.bound == Some(identity) && (run.phase.Bound? || run.phase.Running?) &&
    run.work.Idle? && run.grant.Some? && Unreleased(run, identity)
  }

  /** Nothing is allocated yet. */
  predicate Unbound(run: Run) {
    run.inserted && run.phase.Pending? && run.reserved.None? && run.bound.None? && run.work.Idle? && run.release == HELD && run.steps == GROUND &&
    !run.faults.taken && !run.faults.canceled
  }

  predicate Unreleased(run: Run, identity: Identity) {
    run.reserved == Some(identity) && run.offer == run.reserved && run.grant.Some? && run.release == HELD && !run.faults.canceled
  }

  predicate MayRelease(run: Run, identity: Identity) {
    run.inserted && TerminalPhase(run.phase) && run.reserved == Some(identity) && run.offer == run.reserved && run.grant.Some? &&
    run.release == HELD.(revocations := run.release.revocations)
  }

  /** The two runs differ at most in what was written and in what was released. */
  predicate SameButRelease(before: Run, run: Run) {
    run == before.(clean := run.clean, events := run.events, checks := run.checks, release := run.release,
                   faults := before.faults.(canceled := run.faults.canceled)) &&
    (run.clean ==> before.clean) && (before.faults.canceled ==> run.faults.canceled)
  }

  lemma CleanedThenWritten(before: Run, asked: Run, run: Run, ok: bool, canceled: bool)
    requires asked == before.(checks := asked.checks, release := before.release.(cleaned := Some(ok)),
                              faults := before.faults.(canceled := before.faults.canceled || canceled))
    requires SameButRelease(asked, run) && run.release == asked.release.(cleanupWritten := true) && run.faults == asked.faults
    ensures SameButRelease(before, run) && asked.clean == before.clean
    ensures run.release == before.release.(cleaned := Some(ok), cleanupWritten := true)
    ensures run.faults.canceled == (before.faults.canceled || canceled)
  {
  }

  /** What a run was granted and offered does not change any more. */
  predicate Anchored(before: Run, run: Run) {
    run.grant == before.grant && run.offer == before.offer && run.reserved == before.reserved && run.faults.taken == before.faults.taken
  }

  predicate EndedBy(before: Run, run: Run, op: Op) {
    TerminalPhaseOf(op).Some? &&
    run == before.(phase := TerminalPhaseOf(op).value, terminalOp := op, events := before.events + [op], checks := Stale(before.checks), clean := run.clean) &&
    (run.clean ==> before.clean)
  }

  /** Everything was revoked, terminated and cleaned up, as the backend confirmed. */
  predicate FullyReleased(release: Release) {
    Confirmed(release) && release.terminated == Some(true) && release.cleaned == Some(true)
  }

  /** The run succeeded, every write was taken and everything is released. */
  predicate Unblemished(run: Run) { run.clean && run.phase.Succeeded? && FullyReleased(run.release) }

  predicate Admitted(issued: State, claim: string) {
    ValidIssuedState(issued) && issued.decision.result.Allow? && issued.claim.Some? && issued.claim.value.id == claim &&
    issued.claim.value.phase.Pending? && issued.claim.value.identity.None?
  }

  /** The phase is known, and an identity is attached only from Bound on and only if it is acceptable. */
  predicate Plausible(phase: Phase, bound: Option<Identity>) {
    !phase.UnknownPhase? && (phase.Pending? ==> bound.None?) && (bound.Some? ==> ValidIdentity(bound.value))
  }

  /** Every state a run can reach is a valid issued state. */
  lemma ReachedStateIsValid(issued: State, claim: string, run: Run)
    requires Admitted(issued, claim) && Plausible(run.phase, run.bound)
    ensures ValidIssuedState(StateOf(issued, run))
  {
  }

  lemma ReachedStateHasValidIdentity(issued: State, run: Run)
    requires issued.claim.Some? && issued.decision.result.Allow? && ValidIssuedState(StateOf(issued, run)) && run.bound.Some?
    ensures ValidIdentity(run.bound.value)
  {
  }

  lemma DiffersAt<K, V>(before: map<K, V>, now: map<K, V>, k: K)
    requires now - {k} == before - {k} && k in now
    ensures now == before[k := now[k]]
  {
    assert forall x :: x in now && x != k <==> x in now - {k};
    assert forall x :: x in before && x != k <==> x in before - {k};
    assert forall x | x in now && x != k :: now[x] == (now - {k})[x] == (before - {k})[x] == before[x];
  }

  class Service {
    var state: map<string, State>
    var identityOwner: map<Identity, string>
    var networkAuthority: map<string, NetworkAuthority>
    var networkRevoked: set<string>

    ghost predicate Valid() reads this {
      networkRevoked <= state.Keys && networkAuthority.Keys <= state.Keys
    }

    constructor ()
      ensures Valid() && state == map[] && identityOwner == map[]
    {
      state, identityOwner, networkAuthority, networkRevoked := map[], map[], map[], {};
    }

    /** The stored state of the claim is its issued state advanced by the run so far. */
    ghost predicate Tracks(world: World, issued: State) reads this, world {
      Valid() && world.Valid() && world.run.inserted && Admitted(issued, world.claim) &&
      world.claim in state && state[world.claim] == StateOf(issued, world.run) && Plausible(world.run.phase, world.run.bound) &&
      (world.claim in networkRevoked <==> Confirmed(world.run.release)) &&
      (world.run.grant.Some? ==> world.claim in networkAuthority && networkAuthority[world.claim] == world.run.grant.value)
    }

    twostate predicate OnlyOwn(claim: string) reads this {
      state - {claim} == old(state) - {claim} && networkRevoked - {claim} == old(networkRevoked) - {claim}
    }

    twostate predicate Stays(world: World) reads this, world {
      OnlyOwn(world.claim) && Anchored(old(world.run), world.run)
    }

    // -------------------------------------------------------------- publishing

    /** Registers the claim and publishes Pending; a claim is registered once. */
    method Insert(world: World, issued: State) returns (err: Err)
      requires Valid() && world.Valid() && world.run == Begin(world.claim).(checks := world.run.checks) && Admitted(issued, world.claim)
      modifies this`state, world`trace, world`run
      ensures world.claim in old(state) ==> err.Error? && state == old(state) && world.run == old(world.run) && world.Valid() && Valid()
      ensures world.claim !in old(state) ==> Tracks(world, issued) && state == old(state)[world.claim := issued]
      ensures world.claim !in old(state) ==> world.run == AfterWrite(old(world.run), Op.Pending, err.Nil?)
    {
      hide World.Valid, ValidIssuedState;
      if world.claim in state { return PLAIN; }
      state := state[world.claim := issued];
      err := world.OnEvent(Op.Pending);
      assert StateOf(issued, world.run) == issued;
    }

    method ReserveIdentity(world: World, identity: Identity) returns (err: Err)
      requires world.Valid() && world.run.offer == Some(identity) && world.run.reserved.None? && (world.run.phase.Pending? || world.run.phase.Expired?)
      modifies this`identityOwner, world`trace, world`run
      ensures world.Valid()
      ensures err.Error? <==> identity in old(identityOwner) && old(identityOwner)[identity] != world.claim
      ensures err.Error? ==> identityOwner == old(identityOwner) && err == PLAIN && world.run == old(world.run).(faults := old(world.run).faults.(taken := true))
      ensures err.Nil? ==> identityOwner == old(identityOwner)[identity := world.claim] && world.run == old(world.run).(reserved := Some(identity))
    {
      if identity in identityOwner && identityOwner[identity] != world.claim {
        world.OwnedElsewhere(identity);
        return PLAIN;
      }
      identityOwner := identityOwner[identity := world.claim];
      world.Reserve(identity);
      err := Nil;
    }

    /** Publishes a phase. Only the binding of an identity that is not acceptable is refused. */
    method Transition(world: World, issued: State, to: Phase, op: Op, identity: Option<Identity>) returns (err: Err, ghost refused: bool)
      requires Tracks(world, issued) && MayWrite(world.run, op)
      requires AllowedTransition(world.run.phase, to) && to == PhaseAfter(world.run.phase, op)
      requires if to.Bound? then identity.Some? && identity == world.run.reserved else identity.None?
      modifies this`state, world`trace, world`run
      ensures Tracks(world, issued) && OnlyOwn(world.claim)
      ensures refused ==> op.Bound? && !ValidIdentity(identity.value) && err == PLAIN && world.run == old(world.run)
      ensures !refused ==> world.run == AfterWrite(old(world.run), op, err.Nil?) && (to.Bound? ==> ValidIdentity(identity.value))
    {
      hide World.Valid, ValidIssuedState, MayWrite, StepsAfter, ReleaseAfter;
      var current := state[world.claim];
      refused := true;
      if !AllowedTransition(current.claim.value.phase, to) { return PLAIN, true; }
      var next := current.(claim := Some(current.claim.value.(phase := to)),
                           evidence := current.evidence.(events := current.evidence.events + [op]));
      if to.Bound? {
        if identity.None? || identity.value.backend == "" || identity.value.worker == "" { return PLAIN, true; }
        next := next.(claim := Some(next.claim.value.(identity := identity)));
      } else if identity.Some? {
        return PLAIN, true;
      }
      ghost var reached := AfterWrite(world.run, op, true);
      WritesKeepRevocations(world.run.release, op);
      assert next == StateOf(issued, reached);
      if ValidIssuedState(next) && reached.bound.Some? { ReachedStateHasValidIdentity(issued, reached); }
      if Plausible(reached.phase, reached.bound) { ReachedStateIsValid(issued, world.claim, reached); }
      if !ValidIssuedState(next) { return PLAIN, true; }
      state := state[world.claim := next];
      refused := false;
      err := world.OnEvent(op);
    }

    /** Publishes an event that changes no phase. */
    method RecordEvent(world: World, issued: State, op: Op) returns (err: Err)
      requires Tracks(world, issued) && MayWrite(world.run, op) && PhaseAfter(world.run.phase, op) == world.run.phase
      requires !op.Pending? && !op.Bound?
      modifies this`state, world`trace, world`run
      ensures Tracks(world, issued) && OnlyOwn(world.claim)
      ensures world.run == AfterWrite(old(world.run), op, err.Nil?)
    {
      hide World.Valid, ValidIssuedState, MayWrite, StepsAfter, ReleaseAfter;
      WritesKeepRevocations(world.run.release, op);
      var current := state[world.claim];
      var next := current.(evidence := current.evidence.(events := current.evidence.events + [op]));
      state := state[world.claim := next];
      err := world.OnEvent(op);
      assert next == StateOf(issued, world.run);
    }

    // -------------------------------------------------------------- releasing

    /** One attempt to revoke. A failed write of the attempt is reported, not obeyed. */
    method AttemptRevocation(world: World, issued: State, identity: Identity) returns (attemptErr: Err, err: Err)
      requires Tracks(world, issued) && MayRelease(world.run, identity) && !Confirmed(world.run.release) && |world.run.release.revocations| < 2
      modifies this`state, this`networkRevoked, world`trace, world`run
      ensures Tracks(world, issued) && OnlyOwn(world.claim) && SameButRelease(old(world.run), world.run)
      ensures world.run.release == AfterRevocation(old(world.run).release, err.Nil?)
      ensures world.run.faults.canceled == (old(world.run).faults.canceled || Wraps(err))
      ensures attemptErr.Nil? ==> world.run.clean == old(world.run.clean)
      ensures world.run.clean ==> attemptErr.Nil?
    {
      hide World.Valid, ValidIssuedState, ValidIdentity, Admitted, Plausible, Advanced, Matches;
      attemptErr := RecordEvent(world, issued, NetworkRevocationAttempt);
      world.Interleave();
      var evidence, revokeErr := world.RevokeNetwork(identity);
      err := revokeErr;
      if err.Nil? && !Matches(Some(evidence), world.claim, identity, RevokedState, Some(networkAuthority[world.claim])) { err := PLAIN; }
      if err.Nil? { networkRevoked := networkRevoked + {world.claim}; }
    }

    method RecordRevocation(world: World, issued: State, confirmed: bool) returns (err: Err)
      requires Tracks(world, issued) && world.run.release.unwritten && confirmed == Confirmed(world.run.release)
      modifies this`state, world`trace, world`run
      ensures Tracks(world, issued) && OnlyOwn(world.claim)
      ensures SameButRelease(old(world.run), world.run) && world.run.release == old(world.run).release.(unwritten := false)
      ensures world.run.faults == old(world.run).faults
      ensures err.Nil? ==> world.run.clean == old(world.run.clean)
      ensures world.run.clean ==> err.Nil?
    {
      hide World.Valid, ValidIssuedState, ValidIdentity, Admitted, Plausible, Advanced, Matches;
      if confirmed { err := RecordEvent(world, issued, NetworkRevoked); }
      else { err := RecordEvent(world, issued, NetworkRevocationFailed); }
    }

    /** Revokes unless a revocation was already confirmed. */
    method RevokeNetwork(world: World, issued: State, identity: Identity) returns (err: Err)
      requires Tracks(world, issued) && MayRelease(world.run, identity) && (!Confirmed(world.run.release) ==> |world.run.release.revocations| < 2)
      modifies this`state, this`networkRevoked, world`trace, world`run
      ensures Tracks(world, issued) && OnlyOwn(world.claim) && SameButRelease(old(world.run), world.run)
      ensures MayRelease(world.run, identity) && world.run.release.revocations != []
      ensures |world.run.release.revocations| == |old(world.run).release.revocations| + (if Confirmed(old(world.run).release) then 0 else 1)
      ensures err.Nil? ==> Confirmed(world.run.release) && world.run.clean == old(world.run.clean)
      ensures world.run.clean && Confirmed(world.run.release) ==> err.Nil?
      ensures world.run.clean && Wraps(err) ==> world.run.faults.canceled
      ensures world.run.faults.canceled ==> old(world.run).faults.canceled || Wraps(err)
    {
      hide Join, World.Valid, ValidIssuedState, ValidIdentity, Admitted, Plausible, Advanced, Matches;
      if world.claim in networkRevoked { return Nil; }
      var attemptErr, revokeErr := AttemptRevocation(world, issued, identity);
      world.Interleave();
      var recordErr := RecordRevocation(world, issued, revokeErr.Nil?);
      err := Join(attemptErr, Join(revokeErr, recordErr));
    }

    method RecordTermination(world: World, issued: State, ok: bool) returns (err: Err)
      requires Tracks(world, issued) && world.run.release.terminated == Some(ok) && !world.run.release.terminateWritten
      modifies this`state, world`trace, world`run
      ensures Tracks(world, issued) && OnlyOwn(world.claim)
      ensures SameButRelease(old(world.run), world.run) && world.run.release == old(world.run).release.(terminateWritten := true)
      ensures world.run.faults == old(world.run).faults
      ensures err.Nil? ==> world.run.clean == old(world.run.clean)
      ensures world.run.clean ==> err.Nil?
    {
      hide World.Valid, ValidIssuedState, ValidIdentity, Admitted, Plausible, Advanced, Matches;
      if ok { err := RecordEvent(world, issued, TerminateSucceeded); }
      else { err := RecordEvent(world, issued, TerminateFailed); }
    }

    method TerminateWorker(world: World, issued: State, identity: Identity) returns (err: Err)
      requires Tracks(world, issued) && MayTerminate(world.run, identity) && !world.run.release.terminateWritten
      modifies this`state, world`trace, world`run
      ensures Tracks(world, issued) && OnlyOwn(world.claim) && SameButRelease(old(world.run), world.run)
      ensures world.run.release == old(world.run).release.(terminated := world.run.release.terminated, terminateWritten := true)
      ensures err.Nil? ==> world.run.release.terminated == Some(true) && world.run.clean == old(world.run.clean)
      ensures world.run.clean && world.run.release.terminated == Some(true) ==> err.Nil?
      ensures world.run.clean && Wraps(err) ==> world.run.faults.canceled
      ensures world.run.faults.canceled ==> old(world.run).faults.canceled || Wraps(err)
    {
      hide Join, World.Valid, ValidIssuedState, ValidIdentity, Admitted, Plausible, Advanced, Matches;
      var terminateErr := world.Terminate(identity);
      var recordErr := RecordTermination(world, issued, terminateErr.Nil?);
      err := Join(terminateErr, recordErr);
    }

    method RecordCleanup(world: World, issued: State, ok: bool) returns (err: Err)
      requires Tracks(world, issued) && world.run.release.cleaned == Some(ok) && !world.run.release.cleanupWritten
      modifies this`state, world`trace, world`run
      ensures Tracks(world, issued) && OnlyOwn(world.claim)
      ensures SameButRelease(old(world.run), world.run) && world.run.release == old(world.run).release.(cleanupWritten := true)
      ensures world.run.faults == old(world.run).faults
      ensures err.Nil? ==> world.run.clean == old(world.run.clean)
      ensures world.run.clean ==> err.Nil?
    {
      hide World.Valid, ValidIssuedState, ValidIdentity, Admitted, Plausible, Advanced, Matches;
      if ok { err := RecordEvent(world, issued, CleanupSucceeded); }
      else { err := RecordEvent(world, issued, CleanupFailed); }
    }

    /** A cleanup that names another identity or has not released counts as failed. */
    method CleanUp(world: World, issued: State, identity: Identity) returns (err: Err)
      requires Tracks(world, issued) && TerminalPhase(world.run.phase) && world.run.release.terminateWritten && world.run.release.cleaned.None? && world.run.reserved == Some(identity) && !world.run.release.cleanupWritten
      modifies this`state, world`trace, world`run
      ensures Tracks(world, issued) && OnlyOwn(world.claim) && SameButRelease(old(world.run), world.run)
      ensures world.run.release == old(world.run).release.(cleaned := world.run.release.cleaned, cleanupWritten := true)
      ensures err.Nil? ==> world.run.release.cleaned == Some(true) && world.run.clean == old(world.run.clean)
      ensures world.run.clean && world.run.release.cleaned == Some(true) ==> err.Nil?
      ensures world.run.clean && Wraps(err) ==> world.run.faults.canceled
      ensures world.run.faults.canceled ==> old(world.run).faults.canceled || Wraps(err)
    {
      hide Join, Complete, FullyReleased, SameButRelease, TerminalPhase, World.Valid, ValidIssuedState, ValidIdentity, Admitted, Plausible, Advanced, Matches;
      ghost var before := world.run;
      var cleanup, cleanupErr := world.Cleanup(identity);
      var failed := cleanupErr.Error? || cleanup.identity != identity || !cleanup.released;
      ghost var asked := world.run;
      var recordErr := RecordCleanup(world, issued, !failed);
      CleanedThenWritten(before, asked, world.run, !failed, Wraps(cleanupErr));
      err := Join(if failed then Join(cleanupErr, PLAIN) else Nil, recordErr);
    }

    /** Revokes, terminates and cleans up, whatever fails on the way. */
    method Teardown(world: World, issued: State, identity: Identity, cause: Err) returns (err: Err)
      requires Tracks(world, issued) && MayRelease(world.run, identity) && !world.run.work.Active?
      requires !Confirmed(world.run.release) ==> |world.run.release.revocations| < 2
      modifies this`state, this`networkRevoked, world`trace, world`run
      ensures Tracks(world, issued) && OnlyOwn(world.claim) && SameButRelease(old(world.run), world.run)
      ensures Complete(world.run)
      ensures err.Nil? ==> cause.Nil? && FullyReleased(world.run.release) && world.run.clean == old(world.run.clean)
      ensures world.run.clean && FullyReleased(world.run.release) && cause.Nil? ==> err.Nil?
      ensures world.run.clean && Wraps(err) ==> Wraps(cause) || world.run.faults.canceled
      ensures Wraps(cause) ==> Wraps(err)
      ensures world.run.faults.canceled ==> old(world.run).faults.canceled || Wraps(err)
    {
      hide Join, World.Valid, ValidIssuedState, ValidIdentity, Admitted, Plausible, Advanced, Matches;
      var revokeErr := RevokeNetwork(world, issued, identity);
      var terminateErr := TerminateWorker(world, issued, identity);
      var cleanupErr := CleanUp(world, issued, identity);
      err := Join(cause, Join(revokeErr, Join(terminateErr, cleanupErr)));
    }

    /** Publishes a terminal phase. */
    method Finish(world: World, issued: State, to: Phase, op: Op, cause: Err) returns (err: Err)
      requires Tracks(world, issued) && MayEnd(world.run, op) && TerminalPhaseOf(op) == Some(to)
      modifies this`state, world`trace, world`run
      ensures Tracks(world, issued) && Stays(world)
      ensures EndedBy(old(world.run), world.run, op)
      ensures cause.Error? || (old(world.run).clean && !world.run.clean) ==> err.Error?
      ensures world.run.clean ==> err == cause
    {
      hide World.Valid, ValidIssuedState, ValidIdentity, Admitted, Advanced, Matches, AfterWrite;
      AfterEnd(world.run, op, true);
      AfterEnd(world.run, op, false);
      var publishErr, _ := Transition(world, issued, to, op, None);
      err := Join(cause, publishErr);
    }

    /** Publishes a terminal phase of an allocated claim and releases the allocation. */
    method Stop(world: World, issued: State, identity: Identity, to: Phase, op: Op, cause: Err) returns (err: Err)
      requires Tracks(world, issued) && MayEnd(world.run, op) && TerminalPhaseOf(op) == Some(to)
      requires Unreleased(world.run, identity) && !world.run.work.Active? && cause.Error? && !to.Succeeded? && (Wraps(cause) ==> to.Failed?)
      modifies this`state, this`networkRevoked, world`trace, world`run
      ensures Stopped(world, issued, err) && Stays(world)
    {
      hide World.Valid, ValidIssuedState, ValidIdentity, Admitted, Plausible, Advanced, Matches;
      var finishErr := Finish(world, issued, to, op, cause);
      err := Teardown(world, issued, identity, finishErr);
    }

    /** The run is over: it returns no error exactly when it is unblemished, and an error that wraps a cancellation only if
        the claim failed or a release call's error did. */
    ghost predicate Stopped(world: World, issued: State, err: Err) reads this, world {
      Tracks(world, issued) && Complete(world.run) && TerminalPhase(world.run.phase) &&
      (err.Nil? <==> Unblemished(world.run)) &&
      (world.run.clean && Wraps(err) ==> world.run.phase.Failed? || world.run.faults.canceled) && (world.run.faults.canceled ==> Wraps(err))
    }

    // -------------------------------------------------------------- interruption

    /** The context has ended: a passed deadline expires the claim, a cancellation fails it. */
    method Cancelled(world: World, issued: State, identity: Identity) returns (err: Err)
      requires Tracks(world, issued) && Held(world.run, identity) && world.context != Live
      modifies this`state, this`networkRevoked, world
      ensures Stopped(world, issued, err) && Stays(world)
    {
      hide World.Valid, ValidIssuedState, ValidIdentity, Admitted, Plausible, Advanced, Matches;
      var context := world.ContextErr();
      if context.DeadlineExceeded? {
        err := Stop(world, issued, identity, Phase.Expired, Op.Expired, PLAIN);
      } else {
        err := Stop(world, issued, identity, Phase.Failed, Op.Cancelled, Error(true));
      }
    }

    /** Rechecks eligibility after a write or a call that may have blocked. */
    method StopIfInterrupted(world: World, issued: State, identity: Identity, deadline: int)
      returns (stopped: bool, err: Err)
      requires Due(world.run, deadline) && Tracks(world, issued) && Held(world.run, identity)
      modifies this`state, this`networkRevoked, world
      ensures Stays(world)
      ensures stopped ==> Stopped(world, issued, err)
      ensures !stopped ==> Tracks(world, issued) && world.run == old(world.run).(checks := world.run.checks) && Clear(world.run.checks)
      ensures !stopped ==> old(world.now) <= world.now < deadline
    {
      hide Complete, FullyReleased, World.Valid, ValidIssuedState, ValidIdentity, Admitted, Plausible, Advanced, Matches;
      err := Nil;
      var context := world.ContextErr();
      if context != Live {
        err := Cancelled(world, issued, identity);
        return true, err;
      }
      var late := world.DeadlineReached(deadline);
      if late {
        err := Stop(world, issued, identity, Phase.Expired, Op.Expired, PLAIN);
        return true, err;
      }
      stopped := false;
    }

    // -------------------------------------------------------------- the stages of a bound run

    /** Polls until the backend reports readiness. */
    method AwaitReady(world: World, issued: State, identity: Identity, deadline: int)
      returns (stopped: bool, err: Err)
      requires Due(world.run, deadline) && Tracks(world, issued) && Held(world.run, identity) && world.run.phase.Bound? && world.run.steps == GROUND && world.run.clean
      modifies this`state, this`networkRevoked, world
      ensures Stays(world)
      ensures stopped ==> Stopped(world, issued, err)
      ensures !stopped ==> Tracks(world, issued) && Held(world.run, identity) && world.run.phase.Bound? && world.run.clean
      ensures !stopped ==> world.run.steps == GROUND.(seen := true, ready := true)
    {
      hide Complete, FullyReleased, Join, World.Valid, ValidIssuedState, ValidIdentity, Admitted, Plausible, Advanced, Matches;
      err := Nil;
      while true
        invariant Tracks(world, issued) && Held(world.run, identity) && world.run.phase.Bound? && world.run.steps == GROUND && world.run.clean
        invariant Stays(world)
        decreases deadline - world.now
      {
        stopped, err := StopIfInterrupted(world, issued, identity, deadline);
        if stopped { return; }
        var observation, observeErr := world.Observe(identity);
        stopped, err := StopIfInterrupted(world, issued, identity, deadline);
        if stopped { return; }
        if observeErr.Error? || observation.claim != world.claim || observation.identity != identity {
          err := Stop(world, issued, identity, Phase.Failed, Op.Failed, Join(observeErr, PLAIN));
          return true, err;
        }
        if observation.ready { break; }
        world.Wait();
      }
      err := RecordEvent(world, issued, BackendReady);
      if err.Error? {
        err := Stop(world, issued, identity, Phase.Failed, Op.Failed, err);
        return true, err;
      }
      stopped := false;
    }

    /** Starts the worker and publishes Running. */
    method StartWorker(world: World, issued: State, identity: Identity, deadline: int)
      returns (stopped: bool, err: Err)
      requires Due(world.run, deadline) && Tracks(world, issued) && Held(world.run, identity) && world.run.phase.Bound? && world.run.clean
      requires world.run.steps == GROUND.(seen := true, ready := true)
      modifies this`state, this`networkRevoked, world
      ensures Stays(world)
      ensures stopped ==> Stopped(world, issued, err)
      ensures !stopped ==> Tracks(world, issued) && Held(world.run, identity) && world.run.phase.Running? && world.run.clean && Clear(world.run.checks)
      ensures !stopped ==> world.run.steps == GROUND.(seen := true, ready := true, started := Some(true))
    {
      hide Complete, FullyReleased, Join, World.Valid, ValidIssuedState, ValidIdentity, Admitted, Plausible, Advanced, Matches;
      err := Nil;
      var late := world.DeadlineReached(deadline);
      if late {
        err := Stop(world, issued, identity, Phase.Expired, Op.Expired, PLAIN);
        return true, err;
      }
      var context := world.ContextErr();
      if context != Live {
        err := Cancelled(world, issued, identity);
        return true, err;
      }
      var startErr := world.Start(identity);
      stopped, err := StopIfInterrupted(world, issued, identity, deadline);
      if stopped { return; }
      if startErr.Error? {
        err := Stop(world, issued, identity, Phase.Failed, Op.StartFailed, startErr);
        return true, err;
      }
      stopped, err := PublishRunning(world, issued, identity, deadline);
    }

    method PublishRunning(world: World, issued: State, identity: Identity, deadline: int)
      returns (stopped: bool, err: Err)
      requires Due(world.run, deadline) && Tracks(world, issued) && Held(world.run, identity) && world.run.phase.Bound? && world.run.clean && Clear(world.run.checks)
      requires world.run.steps == GROUND.(seen := true, ready := true, started := Some(true))
      modifies this`state, this`networkRevoked, world
      ensures Stays(world)
      ensures stopped ==> Stopped(world, issued, err)
      ensures !stopped ==> Tracks(world, issued) && Held(world.run, identity) && world.run.phase.Running? && world.run.clean && Clear(world.run.checks)
      ensures !stopped ==> world.run.steps == GROUND.(seen := true, ready := true, started := Some(true))
    {
      hide Complete, FullyReleased, World.Valid, ValidIssuedState, ValidIdentity, Admitted, Plausible, Advanced, Matches;
      err := Nil;
      var runningErr, _ := Transition(world, issued, Phase.Running, Op.Running, None);
      if runningErr.Error? {
        err := Stop(world, issued, identity, Phase.Failed, Op.Failed, runningErr);
        return true, err;
      }
      stopped, err := StopIfInterrupted(world, issued, identity, deadline);
    }

    /** Asks the backend to activate; `activateErr` says whether it did so with matching evidence. */
    method CallActivation(world: World, issued: State, identity: Identity, deadline: int)
      returns (stopped: bool, activateErr: Err, err: Err)
      requires Due(world.run, deadline) && Tracks(world, issued) && Held(world.run, identity) && world.run.phase.Running? && world.run.clean
      requires world.run.steps == Steps(true, true, Some(true), true, None, false)
      modifies this`state, this`networkRevoked, world
      ensures Stays(world)
      ensures stopped ==> Stopped(world, issued, err)
      ensures !stopped ==> Tracks(world, issued) && Held(world.run, identity) && world.run.phase.Running? && world.run.clean && Clear(world.run.checks)
      ensures !stopped ==> world.run.steps == Steps(true, true, Some(true), true, world.run.steps.matched, false) && world.run.steps.matched == Some(activateErr.Nil?)
    {
      hide Complete, FullyReleased, World.Valid, ValidIssuedState, ValidIdentity, Admitted, Plausible, Advanced, Matches;
      activateErr := Nil;
      stopped, err := StopIfInterrupted(world, issued, identity, deadline);
      if stopped { return; }
      var evidence, callErr, expired := world.ActivateNetwork(identity);
      stopped, err := StopIfInterrupted(world, issued, identity, deadline);
      if stopped { return; }
      if expired {
        world.TimerFired(deadline);
        err := Stop(world, issued, identity, Phase.Expired, Op.Expired, PLAIN);
        return true, Nil, err;
      }
      activateErr := callErr;
      if activateErr.Nil? && !Matches(Some(evidence), world.claim, identity, ActiveState, Some(networkAuthority[world.claim])) { activateErr := PLAIN; }
    }

    /** Activates the network authority between an attempt and a result that are both written first. */
    method ActivateWorker(world: World, issued: State, identity: Identity, deadline: int)
      returns (stopped: bool, err: Err)
      requires Due(world.run, deadline) && Tracks(world, issued) && Held(world.run, identity) && world.run.phase.Running? && world.run.clean && Clear(world.run.checks)
      requires world.run.steps == GROUND.(seen := true, ready := true, started := Some(true))
      modifies this`state, this`networkRevoked, world
      ensures Stays(world)
      ensures stopped ==> Stopped(world, issued, err)
      ensures !stopped ==> Tracks(world, issued) && Held(world.run, identity) && world.run.phase.Running? && world.run.clean && Clear(world.run.checks)
      ensures !stopped ==> world.run.steps == Steps(true, true, Some(true), true, Some(true), true)
    {
      hide Complete, FullyReleased, World.Valid, ValidIssuedState, ValidIdentity, Admitted, Plausible, Advanced, Matches;
      stopped, err := false, Nil;
      var activateErr := RecordEvent(world, issued, NetworkActivationAttempt);
      if activateErr.Nil? {
        stopped, activateErr, err := CallActivation(world, issued, identity, deadline);
        if stopped { return; }
      }
      stopped, err := PublishActivation(world, issued, identity, deadline, activateErr);
    }

    /** Writes the activation unless it failed; a run that is not interrupted ends when either did. */
    method PublishActivation(world: World, issued: State, identity: Identity, deadline: int, attemptErr: Err)
      returns (stopped: bool, err: Err)
      requires Due(world.run, deadline) && Tracks(world, issued) && Held(world.run, identity) && world.run.phase.Running?
      requires world.run.steps == Steps(true, true, Some(true), true, world.run.steps.matched, false)
      requires if attemptErr.Nil? then world.run.clean && world.run.steps.matched == Some(true) else world.run.clean ==> world.run.steps.matched == Some(false)
      modifies this`state, this`networkRevoked, world
      ensures Stays(world)
      ensures stopped ==> Stopped(world, issued, err)
      ensures !stopped ==> Tracks(world, issued) && Held(world.run, identity) && world.run.phase.Running? && world.run.clean && Clear(world.run.checks)
      ensures !stopped ==> world.run.steps == Steps(true, true, Some(true), true, Some(true), true)
    {
      hide Complete, FullyReleased, World.Valid, ValidIssuedState, ValidIdentity, Admitted, Plausible, Advanced, Matches;
      var activateErr := attemptErr;
      if activateErr.Nil? { activateErr := RecordEvent(world, issued, NetworkActive); }
      stopped, err := StopIfInterrupted(world, issued, identity, deadline);
      if stopped { return; }
      if activateErr.Error? {
        err := Stop(world, issued, identity, Phase.Failed, Op.NetworkActivationFailed, activateErr);
        return true, err;
      }
      stopped, err := StopIfInterrupted(world, issued, identity, deadline);
    }

    /** Ends a run whose work is still active: revokes first, then joins the work, then releases. */
    method StopWork(world: World, issued: State, identity: Identity, to: Phase, op: Op, cause: Err) returns (err: Err)
      requires Tracks(world, issued) && MayEnd(world.run, op) && TerminalPhaseOf(op) == Some(to)
      requires Unreleased(world.run, identity) && world.run.work.Active? && cause.Error? && !to.Succeeded? && (Wraps(cause) ==> to.Failed?)
      modifies this`state, this`networkRevoked, world
      ensures Stopped(world, issued, err) && Stays(world)
    {
      hide World.Valid, ValidIssuedState, ValidIdentity, Admitted, Plausible, Advanced, Matches;
      world.Interleave();
      var finishErr := Finish(world, issued, to, op, cause);
      world.Interleave();
      var revokeErr := RevokeNetwork(world, issued, identity);
      world.Interleave();
      var _ := world.Return();
      err := Teardown(world, issued, identity, Join(finishErr, revokeErr));
    }

    /** Runs the work and publishes how it ended. */
    method Execute(world: World, issued: State, identity: Identity, deadline: int) returns (err: Err)
      requires Due(world.run, deadline) && Tracks(world, issued) && Held(world.run, identity) && world.run.phase.Running? && world.run.clean && Clear(world.run.checks)
      requires world.run.steps == Steps(true, true, Some(true), true, Some(true), true)
      modifies this`state, this`networkRevoked, world
      ensures Stopped(world, issued, err) && Stays(world)
    {
      hide Complete, FullyReleased, World.Valid, ValidIssuedState, ValidIdentity, Admitted, Plausible, Advanced, Matches;
      world.Dispatch();
      world.Interleave();
      var late := world.DeadlineReached(deadline);
      if late {
        err := StopWork(world, issued, identity, Phase.Expired, Op.Expired, PLAIN);
        return;
      }
      // The select: whichever of the caller's context, the timer and the work is ready first.
      var context := world.ContextErr();
      var timer: bool, done: bool := *, *;
      if context.DeadlineExceeded? && !done {
        err := StopWork(world, issued, identity, Phase.Expired, Op.Expired, PLAIN);
        return;
      }
      if context.Canceled? && !done {
        err := StopWork(world, issued, identity, Phase.Failed, Op.Cancelled, Error(true));
        return;
      }
      if timer && !done {
        world.TimerFired(deadline);
        err := StopWork(world, issued, identity, Phase.Expired, Op.Expired, PLAIN);
        return;
      }
      world.Interleave();
      var workErr := world.Return();
      err := Conclude(world, issued, identity, deadline, workErr);
    }

    /** The work has returned: a passed deadline or an ended context still decides before its result does. */
    method Conclude(world: World, issued: State, identity: Identity, deadline: int, workErr: Err) returns (err: Err)
      requires Due(world.run, deadline) && Tracks(world, issued) && world.run.inserted && world.run.phase.Running? && world.run.clean && Unreleased(world.run, identity)
      requires world.run.work == Joined(workErr.Nil?)
      modifies this`state, this`networkRevoked, world
      ensures Stopped(world, issued, err) && Stays(world)
    {
      hide World.Valid, ValidIssuedState, ValidIdentity, Admitted, Plausible, Advanced, Matches;
      var late := world.DeadlineReached(deadline);
      if late {
        err := Stop(world, issued, identity, Phase.Expired, Op.Expired, PLAIN);
        return;
      }
      var context := world.ContextErr();
      if context.DeadlineExceeded? {
        err := Stop(world, issued, identity, Phase.Expired, Op.Expired, PLAIN);
      } else if context.Canceled? {
        err := Stop(world, issued, identity, Phase.Failed, Op.Cancelled, Error(true));
      } else if workErr.Error? {
        err := Stop(world, issued, identity, Phase.Failed, Op.Failed, workErr);
      } else {
        var successErr := Finish(world, issued, Phase.Succeeded, Op.Succeeded, Nil);
        err := Teardown(world, issued, identity, successErr);
      }
    }

    // -------------------------------------------------------------- the run

    /** The context ended before anything was allocated. */
    method Interrupted(world: World, issued: State) returns (err: Err)
      requires Tracks(world, issued) && world.run.phase.Pending? && world.run.reserved.None? && world.context != Live && world.run.work.Idle? &&
               world.run.offer.None? && !world.run.faults.canceled
      modifies this`state, this`networkRevoked, world
      ensures Stopped(world, issued, err) && Stays(world)
    {
      hide World.Valid, ValidIssuedState, ValidIdentity, Admitted, Plausible, Advanced, Matches;
      var context := world.ContextErr();
      if context.DeadlineExceeded? {
        err := Finish(world, issued, Phase.Expired, Op.Expired, PLAIN);
      } else {
        err := Finish(world, issued, Phase.Failed, Op.Cancelled, Error(true));
      }
    }

    /** The deadline passed before anything was allocated. */
    method ExpireUnallocated(world: World, issued: State) returns (err: Err)
      requires Tracks(world, issued) && world.run.phase.Pending? && world.run.reserved.None? && world.run.work.Idle? &&
               world.run.offer.None? && !world.run.faults.canceled && world.run.checks.late
      modifies this`state, world`trace, world`run
      ensures Stopped(world, issued, err) && Stays(world)
    {
      hide World.Valid, ValidIssuedState, ValidIdentity, Admitted, Plausible, Advanced, Matches;
      err := Finish(world, issued, Phase.Expired, Op.Expired, PLAIN);
    }

    /** The deadline passed during the allocation: a worker that arrived is released without ever having been bound. */
    method ReleaseLate(world: World, issued: State, offer: Option<Identity>) returns (err: Err)
      requires Tracks(world, issued) && Unbound(world.run) && world.run.grant.Some? && world.run.offer == offer && world.run.checks.late
      modifies this`state, this`networkRevoked, this`identityOwner, world
      ensures OnlyOwn(world.claim) && OwnersGrow(world.claim) && Stopped(world, issued, err)
      ensures world.run.grant == old(world.run).grant
      ensures world.run.offer == offer && (offer.Some? ==> world.run.reserved == offer || OwnedBefore(world.claim, offer))
      ensures world.run.faults.taken <==> OwnedBefore(world.claim, world.run.offer)
    {
      hide World.Valid, ValidIssuedState, ValidIdentity, Admitted, Plausible, Advanced, Matches;
      err := Finish(world, issued, Phase.Expired, Op.Expired, PLAIN);
      if offer.None? { return; }
      var reserveErr := ReserveIdentity(world, offer.value);
      if reserveErr.Nil? { err := Teardown(world, issued, offer.value, err); }
    }

    /** There is no worker for this claim: nothing usable was allocated, or another claim owns it. */
    method FailAllocation(world: World, issued: State, cause: Err) returns (err: Err)
      requires Tracks(world, issued) && world.run.inserted && world.run.phase.Pending? && world.run.reserved.None? && world.run.work.Idle?
      requires (world.run.faults.unallocated || world.run.faults.taken) && (world.run.offer.Some? ==> world.run.faults.taken)
      requires !world.run.faults.canceled && cause.Error?
      modifies this`state, world`trace, world`run
      ensures Stopped(world, issued, err) && Stays(world)
    {
      hide World.Valid, ValidIssuedState, ValidIdentity, Admitted, Plausible, Advanced, Matches;
      err := Finish(world, issued, Phase.Failed, Op.AllocationFailed, cause);
    }

    /** Reserves the identity of the allocated worker and publishes Bound. */
    method BindIdentity(world: World, issued: State, identity: Identity) returns (bound: Option<Identity>, err: Err)
      requires Tracks(world, issued) && Unbound(world.run) && world.run.clean && world.run.grant.Some? && world.run.offer == Some(identity) && world.run.checks.clock
      modifies this`state, this`networkRevoked, this`identityOwner, world
      ensures OnlyOwn(world.claim) && OwnersGrow(world.claim)
      ensures bound.None? ==> Stopped(world, issued, err)
      ensures bound.Some? ==> ReadyToDrive(world, issued, bound.value)
      ensures world.run.grant == old(world.run).grant
      ensures world.run.faults.taken <==> OwnedBefore(world.claim, world.run.offer)
    {
      hide Complete, FullyReleased, Join, World.Valid, ValidIssuedState, ValidIdentity, Admitted, Plausible, Advanced, Matches;
      bound := None;
      var reserveErr := ReserveIdentity(world, identity);
      if reserveErr.Error? {
        err := FailAllocation(world, issued, reserveErr);
        return;
      }
      var bindErr, _ := Transition(world, issued, Phase.Bound, Op.Bound, Some(identity));
      if bindErr.Error? {
        err := Stop(world, issued, identity, Phase.Failed, Op.Failed, bindErr);
        return;
      }
      bound, err := Some(identity), Nil;
    }

    /** Allocates a worker and binds it to the claim. */
    method Bind(world: World, issued: State, deadline: int) returns (bound: Option<Identity>, err: Err)
      requires Due(world.run, deadline) && Tracks(world, issued) && Unbound(world.run) && world.run.offer.None? && world.run.clean && Clear(world.run.checks)
      modifies this`state, this`networkRevoked, this`identityOwner, world
      ensures OnlyOwn(world.claim) && OwnersGrow(world.claim)
      ensures bound.None? ==> Stopped(world, issued, err)
      ensures bound.Some? ==> ReadyToDrive(world, issued, bound.value)
      ensures world.run.grant == old(world.run).grant
      ensures world.run.faults.taken <==> OwnedBefore(world.claim, world.run.offer)
    {
      hide Complete, FullyReleased, Join, World.Valid, ValidIssuedState, ValidIdentity, Admitted, Plausible, Advanced, Matches;
      bound := None;
      if !world.supportsNetwork {
        world.LacksNetwork();
        err := FailAllocation(world, issued, PLAIN);
        return;
      }
      var allocation, allocateErr := world.Allocate();
      var offer := if allocateErr.Nil? && ValidAllocation(world.claim, allocation) then Some(allocation.identity) else None;
      var late := world.DeadlineReached(deadline);
      if late {
        err := ReleaseLate(world, issued, offer);
        return;
      }
      if offer.None? {
        err := FailAllocation(world, issued, Join(allocateErr, PLAIN));
        return;
      }
      bound, err := BindIdentity(world, issued, offer.value);
    }

    /** The offered identity belonged to another claim already. */
    twostate predicate OwnedBefore(claim: string, offer: Option<Identity>) reads this {
      offer.Some? && offer.value in old(identityOwner) && old(identityOwner)[offer.value] != claim
    }

    twostate predicate OwnersGrow(claim: string) reads this {
      (forall i | i in old(identityOwner) :: i in identityOwner && identityOwner[i] == old(identityOwner)[i]) &&
      (forall i | i in identityOwner && i !in old(identityOwner) :: identityOwner[i] == claim)
    }

    ghost predicate ReadyToDrive(world: World, issued: State, identity: Identity) reads this, world {
      Tracks(world, issued) && Held(world.run, identity) && world.run.phase.Bound? && world.run.clean && world.run.steps == GROUND
    }

    /** Drives a bound claim to its end. */
    method Drive(world: World, issued: State, identity: Identity, deadline: int) returns (err: Err)
      requires Due(world.run, deadline) && ReadyToDrive(world, issued, identity)
      modifies this`state, this`networkRevoked, world
      ensures Stopped(world, issued, err) && Stays(world)
    {
      hide Complete, FullyReleased, World.Valid, ValidIssuedState, ValidIdentity, Admitted, Plausible, Advanced, Matches;
      var stopped;
      stopped, err := AwaitReady(world, issued, identity, deadline);
      if stopped { return; }
      stopped, err := StartWorker(world, issued, identity, deadline);
      if stopped { return; }
      stopped, err := ActivateWorker(world, issued, identity, deadline);
      if stopped { return; }
      err := Execute(world, issued, identity, deadline);
    }

    /** Fixes the deadline of the run, the caller's or the granted timeout's, and with it the network authority. */
    method FixAuthority(world: World, issued: State) returns (deadline: int)
      requires Tracks(world, issued) && Unbound(world.run) && world.run.grant.None? && issued.authority.Some?
      modifies this`networkAuthority, world`now, world`trace, world`run
      ensures Tracks(world, issued) && world.run == old(world.run).(grant := Some(NetworkAuthority(issued.authority.value.network, deadline)))
      ensures deadline == world.now + issued.authority.value.runtime.timeout || world.callerDeadline == Some(deadline)
      ensures deadline <= world.now + issued.authority.value.runtime.timeout && (world.callerDeadline.Some? ==> deadline <= world.callerDeadline.value)
    {
      hide World.Valid, ValidIssuedState, ValidIdentity, Admitted, Plausible, Advanced, Matches;
      var started := world.Now();
      deadline := started + issued.authority.value.runtime.timeout;
      if world.callerDeadline.Some? && world.callerDeadline.value < deadline { deadline := world.callerDeadline.value; }
      var authority := NetworkAuthority(issued.authority.value.network, deadline);
      networkAuthority := networkAuthority[world.claim := authority];
      world.Grant(authority);
    }

    /** The network authority of the run is the granted one, and its deadline no later than the caller's. */
    ghost predicate GrantedAs(world: World, issued: State) reads world {
      world.run.grant.Some? && issued.authority.Some? && world.run.grant.value.profiles == issued.authority.value.network &&
      (world.callerDeadline.Some? ==> world.run.grant.value.expires <= world.callerDeadline.value)
    }

    /** Drives an inserted claim whose context had not ended when it was read. */
    method RunInserted(world: World, issued: State) returns (err: Err)
      requires Tracks(world, issued) && Unbound(world.run) && world.run.offer.None? && world.run.clean && world.run.grant.None? && issued.authority.Some?
      modifies this`state, this`networkRevoked, this`networkAuthority, this`identityOwner, world
      ensures Stopped(world, issued, err) && OnlyOwn(world.claim) && OwnersGrow(world.claim)
      ensures GrantedAs(world, issued)
      ensures world.run.faults.taken <==> OwnedBefore(world.claim, world.run.offer)
    {
      hide Complete, FullyReleased, Join, World.Valid, ValidIssuedState, ValidIdentity, Admitted, Plausible, Advanced, Matches;
      var deadline := FixAuthority(world, issued);
      var context := world.ContextErr();
      if context != Live {
        err := Interrupted(world, issued);
        return;
      }
      var late := world.DeadlineReached(deadline);
      if late {
        err := ExpireUnallocated(world, issued);
        return;
      }
      var bound;
      bound, err := Bind(world, issued, deadline);
      if bound.Some? { err := Drive(world, issued, bound.value, deadline); }
    }

    /** Consumes one accepted Allow/Pending state and drives its claim to a terminal phase. A claim whose first
        write fails stays Pending. */
    method RunContext(world: World, issued: State, launch: Launch) returns (final: Option<State>, err: Err)
      requires Valid() && world.Valid() && world.run == Begin(world.claim)
      requires issued.claim.Some? ==> issued.claim.value.id == world.claim
      modifies this, world
      ensures Valid() && world.Valid() && Complete(world.run) && OwnersGrow(world.claim)
      ensures !ValidInitialRun(issued, launch) ==> final.None? && err.Error? && state == old(state) && world.run == Begin(world.claim)
      ensures ValidInitialRun(issued, launch) && world.claim in old(state) ==> err.Error? && state == old(state) && !world.run.inserted
      ensures ValidInitialRun(issued, launch) && world.claim !in old(state) ==>
                world.run.inserted && final == Some(StateOf(issued, world.run)) && state == old(state)[world.claim := final.value] &&
                ValidIssuedState(final.value)
      ensures world.run.inserted <==>
                ValidIssuedState(issued) && issued.decision.result.Allow? && issued.claim.Some? && issued.authority.Some? &&
                issued.claim.value.phase.Pending? && issued.claim.value.identity.None? && !launch.credentialBearing && launch.templateRef != "" &&
                launch.profileRef != "" && launch.profileRef == issued.authority.value.runtime.profileRef && world.claim !in old(state)
      ensures forall i | 0 <= i < |world.trace| ::
                (world.trace[i].Unsupported? ==> !world.supportsNetwork) && (world.trace[i].Allocated? ==> world.supportsNetwork)
      ensures world.run.grant.Some? ==> GrantedAs(world, issued)
      ensures err.Nil? <==> Unblemished(world.run)
      ensures world.run.inserted && world.run.clean && Wraps(err) ==> world.run.phase.Failed? || world.run.faults.canceled
      ensures world.run.faults.canceled ==> Wraps(err)
      ensures world.run.offer.Some? ==> world.run.reserved == world.run.offer || OwnedBefore(world.claim, world.run.offer)
      ensures world.run.faults.taken <==> OwnedBefore(world.claim, world.run.offer)
    {
      hide World.Valid, ValidIssuedState, ValidIdentity, Advanced, Matches;
      EverythingAsked(world);
      final := None;
      if !ValidInitialRun(issued, launch) { return None, PLAIN; }
      var context := world.ContextErr();
      err := Insert(world, issued);
      if err.Nil? {
        if context != Live {
          // A queued request whose context has ended does not wait for the backend.
          err := Interrupted(world, issued);
        } else {
          err := RunInserted(world, issued);
        }
      }
      final := Some(state[world.claim]);
      if world.run.inserted {
        ReachedStateIsValid(issued, world.claim, world.run);
        DiffersAt(old(state), state, world.claim);
      }
      EverythingAsked(world);
    }

    lemma EverythingAsked(world: World)
      requires world.Valid()
      ensures forall i | 0 <= i < |world.trace| ::
                (world.trace[i].Unsupported? ==> !world.supportsNetwork) && (world.trace[i].Allocated? ==> world.supportsNetwork)
    {
      assert forall i | 0 <= i < |world.trace| :: world.AsksRightly(world.trace[i]);
    }
  }
}
