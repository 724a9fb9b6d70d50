/** The in-memory backend driven by the run service: what the order of its calls keeps about the one allocation
    of a claim, in every run and whatever the warm pools answer. */
module MemoryRun {
  import opened Evidence
  import opened Protocol
  import opened MemoryBackend
  import RunService
  import Discipline
  import Lifecycle

  /** How the allocation of the run's claim may look after an event of the run. */
  predicate Answers(r: Run, slot: Option<Record>, e: Event, now: Option<Record>) {
    match e
    case Allocated(offer) => AllocatesFor(r, slot, offer, now)
    case Observed(id, sound, ready) => now == slot && (Serves(slot, id) ==> sound && ready == (slot.value.ready && !slot.value.released))
    case Started(id, ok) => StartCall(slot, id, ok, now)
    case Activated(id, evidence) => ActivateCall(slot, id, evidence, now)
    case Revoked(id, evidence) => RevokeCall(slot, id, evidence, now)
    case Terminated(id, ok) => TerminateCall(slot, id, ok, now)
    case Cleaned(id, ok) => CleanupCall(slot, id, ok, now)
    case _ => now == slot || MarkedReady(slot, now)
  }

  /** The run asks for its own claim under its own grant; an identity without a worker is no offer. */
  predicate AllocatesFor(r: Run, slot: Option<Record>, offer: Option<Identity>, now: Option<Record>) {
    r.grant.Some? &&
    if offer.Some? then offer.value.worker != "" && AllocateCall(r.claim, slot, r.grant.value, offer, now)
    else now == slot || AllocateCall(r.claim, slot, r.grant.value, Some(Identity(BACKEND, "", "")), now)
  }

  /** `slots` are the states of the claim's allocation before and after every event of the trace. */
  predicate Driven(claim: string, trace: seq<Event>, slots: seq<Option<Record>>) {
    |slots| == |trace| + 1 &&
    if trace == [] then slots[0].None? else
    var n := |trace| - 1;
    Driven(claim, trace[..n], slots[..n + 1]) && Answers(RunOf(claim, trace[..n]), slots[n], trace[n], slots[n + 1])
  }

  // ---------------------------------------------------------------- what a driven allocation keeps

  predicate Owned(r: Run, slot: Option<Record>) {
    (slot.Some? ==> slot.value.claim == r.claim && r.grant == Some(slot.value.authority)) &&
    (r.offer.Some? ==> Offers(slot, r.offer.value)) && (r.reserved.Some? ==> Offers(slot, r.reserved.value))
  }

  predicate Offers(slot: Option<Record>, id: Identity) { slot.Some? && id == IdentityOf(slot.value) && id.worker != "" }

  /** Only a started worker that is neither terminated nor released is active, and only before the first revocation. */
  predicate ActiveOnlyWhileRunning(r: Run, slot: Option<Record>) {
    slot.Some? && slot.value.active ==> slot.value.started && !slot.value.terminated && !slot.value.released && r.release.revocations == []
  }

  /** The run knows whether the worker was started, and the worker was replaced exactly if it was released. */
  predicate Told(r: Run, slot: Option<Record>) {
    (r.steps.started == Some(true) <==> slot.Some? && slot.value.started) &&
    (slot.Some? ==> slot.value.replaced == slot.value.released && (slot.value.released ==> slot.value.terminated))
  }

  /** What the run was told of its release holds of the allocation. */
  predicate ReleaseHolds(r: Run, slot: Option<Record>) {
    (Confirmed(r.release) || r.release.terminated == Some(true) ==> slot.Some? && slot.value.terminated) &&
    (r.release.cleaned == Some(true) ==> slot.Some? && slot.value.released) &&
    (r.release.cleaned.None? && slot.Some? ==> !slot.value.released) &&
    (Confirmed(r.release) ==> r.release.terminated != Some(false))
  }

  predicate Kept(r: Run, slot: Option<Record>) {
    Owned(r, slot) && ActiveOnlyWhileRunning(r, slot) && Told(r, slot) && ReleaseHolds(r, slot)
  }

  /** An event that is no call leaves the allocation as the run knows it. */
  lemma CallNamesOffer(r: Run, slot: Option<Record>, e: Event)
    requires Owned(r, slot) && Guard(r, e) && Discipline.BackendCall(e)
    ensures r.reserved.Some? && Discipline.Names(e, r.reserved.value) && Serves(slot, r.reserved.value)
    ensures e.Observed? || e.Started? || e.Activated? ==> !TerminalPhase(r.phase)
    ensures e.Revoked? ==> r.release.revoking
    ensures e.Terminated? ==> r.release.revocations != [] && r.release.terminated.None?
    ensures e.Cleaned? ==> r.release.terminateWritten && r.release.cleaned.None?
  {
    hide MayWrite;
  }

  lemma OwnedStays(r: Run, slot: Option<Record>, e: Event, now: Option<Record>)
    requires Owned(r, slot) && Guard(r, e) && Answers(r, slot, e, now)
    ensures Owned(After(r, e), now)
  {
    hide After, MayWrite, MayTerminate;
    Discipline.AfterFields(r, e);
    if Discipline.BackendCall(e) { CallNamesOffer(r, slot, e); }
  }

  lemma ActiveStays(r: Run, slot: Option<Record>, e: Event, now: Option<Record>)
    requires Kept(r, slot) && Lifecycle.SoundRelease(r) && Guard(r, e) && Answers(r, slot, e, now)
    ensures ActiveOnlyWhileRunning(After(r, e), now)
  {
    hide After, MayWrite, MayTerminate, Guard, Discipline.CallsOf, Matches;
    Discipline.AfterRelease(r, e);
    if Discipline.BackendCall(e) { CallNamesOffer(r, slot, e); }
    if e.Wrote? { WritesKeepRevocations(r.release, e.op); }
  }

  lemma ToldStays(r: Run, slot: Option<Record>, e: Event, now: Option<Record>)
    requires Kept(r, slot) && Guard(r, e) && Answers(r, slot, e, now)
    ensures Told(After(r, e), now)
  {
    hide After, MayWrite, MayTerminate, Matches, ReleaseHolds, ActiveOnlyWhileRunning, Discipline.CallsOf;
    Discipline.AfterSteps(r, e);
    if Discipline.BackendCall(e) { CallNamesOffer(r, slot, e); }
  }

  lemma WriteKeepsAnswers(r: Run, op: Op)
    ensures ReleaseAfter(r.release, op).revocations == r.release.revocations
    ensures ReleaseAfter(r.release, op).terminated == r.release.terminated && ReleaseAfter(r.release, op).cleaned == r.release.cleaned
  {
  }

  /** The memory backend's evidence always matches what the run expects. */
  lemma EvidenceMatches(r: Run, slot: Option<Record>, state: NetworkState)
    requires Owned(r, slot) && r.reserved.Some?
    ensures Matches(Some(EvidenceOf(slot.value, state)), r.claim, r.reserved.value, state, r.grant)
  {
  }

  lemma ReleaseStaysTrue(r: Run, slot: Option<Record>, e: Event, now: Option<Record>)
    requires Kept(r, slot) && Lifecycle.SoundRelease(r) && Guard(r, e) && Answers(r, slot, e, now)
    ensures ReleaseHolds(After(r, e), now)
  {
    hide After, MayWrite, MayTerminate, Guard, Discipline.CallsOf;
    Discipline.AfterRelease(r, e);
    if e.Wrote? { WriteKeepsAnswers(r, e.op); }
    if Discipline.BackendCall(e) { CallNamesOffer(r, slot, e); }
  }

  lemma StepKeeps(r: Run, slot: Option<Record>, e: Event, now: Option<Record>)
    requires Kept(r, slot) && Lifecycle.SoundRelease(r) && Guard(r, e) && Answers(r, slot, e, now)
    ensures Kept(After(r, e), now)
  {
    hide After, Guard, Answers, Owned, ActiveOnlyWhileRunning, Told, ReleaseHolds, Lifecycle.SoundRelease;
    OwnedStays(r, slot, e, now);
    ActiveStays(r, slot, e, now);
    ToldStays(r, slot, e, now);
    ReleaseStaysTrue(r, slot, e, now);
  }

  lemma {:induction false} RunKeeps(claim: string, trace: seq<Event>, slots: seq<Option<Record>>)
    requires Legal(claim, trace) && Driven(claim, trace, slots)
    ensures Kept(RunOf(claim, trace), slots[|trace|])
  {
    hide Guard, After, Answers, Kept, Lifecycle.SoundPhase, Lifecycle.SoundRelease, Lifecycle.SoundWork;
    if trace == [] {
      NothingIsKept(claim);
    } else {
      var n := |trace| - 1;
      RunKeeps(claim, trace[..n], slots[..n + 1]);
      Lifecycle.LegalIsSound(claim, trace[..n]);
      StepKeeps(RunOf(claim, trace[..n]), slots[n], trace[n], slots[n + 1]);
    }
  }

  lemma NothingIsKept(claim: string)
    ensures Kept(Begin(claim), None)
  {
  }

  lemma {:induction false} PrefixIsDriven(claim: string, trace: seq<Event>, slots: seq<Option<Record>>, i: nat)
    requires Driven(claim, trace, slots) && i <= |trace|
    ensures Driven(claim, trace[..i], slots[..i + 1])
    ensures i < |trace| ==> Answers(RunOf(claim, trace[..i]), slots[i], trace[i], slots[i + 1])
    decreases |trace|
  {
    hide Answers;
    var n := |trace| - 1;
    if i == |trace| {
      assert trace[..i] == trace && slots[..i + 1] == slots;
    } else if i < n {
      PrefixIsDriven(claim, trace[..n], slots[..n + 1], i);
      assert trace[..n][..i] == trace[..i] && slots[..n + 1][..i + 1] == slots[..i + 1];
    }
  }

  /** At every moment of a run and of any of its prefixes. */
  lemma KeptAt(claim: string, trace: seq<Event>, slots: seq<Option<Record>>, i: nat)
    requires Legal(claim, trace) && Driven(claim, trace, slots) && i <= |trace|
    ensures Legal(claim, trace[..i]) && Kept(RunOf(claim, trace[..i]), slots[i])
    ensures i < |trace| ==> Guard(RunOf(claim, trace[..i]), trace[i]) && Answers(RunOf(claim, trace[..i]), slots[i], trace[i], slots[i + 1])
  {
    hide Guard, Answers, Kept;
    if i < |trace| { Discipline.LegalAt(claim, trace, i); } else { assert trace[..i] == trace; }
    PrefixIsDriven(claim, trace, slots, i);
    RunKeeps(claim, trace[..i], slots[..i + 1]);
  }

  // ---------------------------------------------------------------- what every driven run guarantees

  /** Whenever the network is active, the worker was started by this run and is neither terminated nor released. */
  lemma ActiveMeansStarted(claim: string, trace: seq<Event>, slots: seq<Option<Record>>, i: nat)
    requires Legal(claim, trace) && Driven(claim, trace, slots) && i <= |trace| && slots[i].Some? && slots[i].value.active
    ensures slots[i].value.started && !slots[i].value.terminated && !slots[i].value.released
    ensures Discipline.Happened(trace[..i], Discipline.StartedWell) && Discipline.ReleaseCalls(claim, trace[..i]) == []
  {
    KeptAt(claim, trace, slots, i);
    Discipline.StepsAgree(claim, trace[..i]);
    Discipline.ReleaseAgrees(claim, trace[..i]);
  }

  /** A finished run that reserved a worker leaves it inactive, whatever failed on the way. */
  lemma FinishedIsInactive(claim: string, trace: seq<Event>, slots: seq<Option<Record>>)
    requires Legal(claim, trace) && Driven(claim, trace, slots) && Complete(RunOf(claim, trace)) && Discipline.ReservedIn(trace).Some?
    ensures slots[|trace|].Some? && !slots[|trace|].value.active
  {
    RunKeeps(claim, trace, slots);
    Discipline.WritesAgree(claim, trace);
    Discipline.ReleaseAgrees(claim, trace);
    Discipline.InsertedFirst(claim, trace);
  }

  /** A run that returned no error leaves its allocation terminated, released, replaced and inactive. */
  lemma UnblemishedIsReleased(claim: string, trace: seq<Event>, slots: seq<Option<Record>>)
    requires Legal(claim, trace) && Driven(claim, trace, slots) && RunService.Unblemished(RunOf(claim, trace))
    ensures slots[|trace|].Some?
    ensures var r := slots[|trace|].value; r.claim == claim && r.started && r.terminated && r.released && r.replaced && !r.active
  {
    RunKeeps(claim, trace, slots);
    SucceededWasStarted(claim, trace);
    Discipline.WritesAgree(claim, trace);
  }

  lemma {:induction false} SucceededWasStarted(claim: string, trace: seq<Event>)
    requires Legal(claim, trace)
    ensures var r := RunOf(claim, trace); r.phase.Running? || r.phase.Succeeded? ==> r.steps.started == Some(true)
  {
    hide After, MayWrite;
    if trace != [] {
      var n := |trace| - 1;
      var r, e := RunOf(claim, trace[..n]), trace[n];
      SucceededWasStarted(claim, trace[..n]);
      Discipline.AfterFields(r, e);
      Discipline.AfterSteps(r, e);
      if e.Wrote? { RunningWasStarted(r, e.op); }
    }
  }

  lemma RunningWasStarted(r: Run, op: Op)
    requires MayWrite(r, op)
    ensures PhaseAfter(r.phase, op).Running? || PhaseAfter(r.phase, op).Succeeded? ==>
              r.phase.Running? || r.phase.Succeeded? || r.steps.started == Some(true)
  {
  }

  /** Evidence that this backend answers with is always the evidence the run expects. */
  lemma AnsweredEvidenceMatches(claim: string, trace: seq<Event>, slots: seq<Option<Record>>, i: nat)
    requires Legal(claim, trace) && Driven(claim, trace, slots) && i < |trace|
    ensures trace[i].Activated? && trace[i].evidence.Some? ==>
              Matches(trace[i].evidence, claim, trace[i].identity, ActiveState, Discipline.GrantIn(trace[..i]))
    ensures trace[i].Revoked? && trace[i].evidence.Some? ==>
              Matches(trace[i].evidence, claim, trace[i].identity, RevokedState, Discipline.GrantIn(trace[..i]))
  {
    hide Guard, MayWrite, ActiveOnlyWhileRunning, Told, ReleaseHolds, Matches;
    KeptAt(claim, trace, slots, i);
    var r, e := RunOf(claim, trace[..i]), trace[i];
    Discipline.WritesAgree(claim, trace[..i]);
    if e.Activated? || e.Revoked? {
      CallNamesOffer(r, slots[i], e);
      EvidenceMatches(r, slots[i], if e.Activated? then ActiveState else RevokedState);
    }
  }

  /** Once a revocation was confirmed, termination cannot fail. */
  lemma ConfirmedTerminates(claim: string, trace: seq<Event>, slots: seq<Option<Record>>)
    requires Legal(claim, trace) && Driven(claim, trace, slots) && Confirmed(RunOf(claim, trace).release)
    ensures RunOf(claim, trace).release.terminated != Some(false)
    ensures slots[|trace|].Some? && slots[|trace|].value.terminated
  {
    RunKeeps(claim, trace, slots);
  }
}
