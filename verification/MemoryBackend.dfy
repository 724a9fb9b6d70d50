/** The in-memory reference backend: its allocations, the two indexes that must stay inverse, and what becomes of
    an allocation whose owner is the run service. The warm pools behind it may answer anything. */
module MemoryBackend {
  import opened Evidence
  import opened Protocol
  import RunService

  const BACKEND := "memory"

  /** The instant that counts as no expiry. */
  const ZERO_TIME := 0

  /** What one allocation is at a moment. */
  datatype Record = Record(claim: string, worker: string, authority: NetworkAuthority, ready: bool, started: bool,
                           terminated: bool, released: bool, replaced: bool, active: bool)

  function IdentityOf(r: Record): Identity { Identity(BACKEND, r.worker, "") }

  function NewRecord(claim: string, worker: string, authority: NetworkAuthority, ready: bool): Record {
    Record(claim, worker, authority, ready, false, false, false, false, false)
  }

  function EvidenceOf(r: Record, state: NetworkState): NetworkEvidence {
    NetworkEvidence(r.claim, IdentityOf(r), r.authority.profiles, r.authority.expires, state, Simulated)
  }

  // ---------------------------------------------------------------- how a call may change an allocation

  /** Only a ready allocation that was never started, terminated or released is started. */
  predicate StartAnswer(r: Record, ok: bool, now: Record) {
    if ok then r.ready && !r.started && !r.terminated && !r.released && now == r.(started := true) else now == r
  }

  /** Terminating twice is no error; terminating what was released is one. */
  predicate TerminateAnswer(r: Record, ok: bool, now: Record) {
    now == r.(terminated := now.terminated) && (ok <==> now.terminated && !r.released) && (r.terminated ==> now.terminated)
    && (r.released ==> now == r)
  }

  /** A released allocation stays; otherwise it is terminated first and then replaced, and either may fail. */
  predicate CleanupAnswer(r: Record, ok: bool, now: Record) {
    if r.released then ok && now == r
    else if ok then now == r.(terminated := true, released := true, replaced := true)
    else now == r.(terminated := now.terminated) && (r.terminated ==> now.terminated)
  }

  /** Revocation deactivates whatever else fails, and answers only once the worker is terminated. */
  predicate RevokeAnswer(r: Record, evidence: Option<NetworkEvidence>, now: Record) {
    now == r.(active := false, terminated := now.terminated) && (r.terminated ==> now.terminated) && (r.released ==> now.terminated == r.terminated) &&
    (if r.released || now.terminated then evidence == Some(EvidenceOf(r, RevokedState)) else evidence.None?)
  }

  /** Activation needs a started worker that is neither terminated nor released; an ended context revokes instead. */
  predicate ActivateAnswer(r: Record, evidence: Option<NetworkEvidence>, now: Record) {
    if evidence.Some? then
      r.started && !r.terminated && !r.released && r.authority.expires != ZERO_TIME &&
      now == r.(active := true) && evidence.value == EvidenceOf(r, ActiveState)
    else now == r || (now == r.(active := false, terminated := now.terminated) && (r.terminated ==> now.terminated))
  }

  /** The identity names the worker of this allocation. */
  predicate Serves(slot: Option<Record>, id: Identity) {
    slot.Some? && id.backend == BACKEND && id.worker != "" && id.worker == slot.value.worker
  }

  predicate StartCall(slot: Option<Record>, id: Identity, ok: bool, now: Option<Record>) {
    if Serves(slot, id) then now.Some? && StartAnswer(slot.value, ok, now.value) else now == slot
  }

  predicate TerminateCall(slot: Option<Record>, id: Identity, ok: bool, now: Option<Record>) {
    if Serves(slot, id) then now.Some? && TerminateAnswer(slot.value, ok, now.value) else now == slot
  }

  predicate CleanupCall(slot: Option<Record>, id: Identity, ok: bool, now: Option<Record>) {
    if Serves(slot, id) then now.Some? && CleanupAnswer(slot.value, ok, now.value) else now == slot
  }

  predicate RevokeCall(slot: Option<Record>, id: Identity, evidence: Option<NetworkEvidence>, now: Option<Record>) {
    if Serves(slot, id) then now.Some? && RevokeAnswer(slot.value, evidence, now.value) else now == slot
  }

  predicate ActivateCall(slot: Option<Record>, id: Identity, evidence: Option<NetworkEvidence>, now: Option<Record>) {
    if Serves(slot, id) then now.Some? && ActivateAnswer(slot.value, evidence, now.value) else now == slot
  }

  /** A claim is allocated once, and only for itself. */
  predicate AllocateCall(claim: string, slot: Option<Record>, authority: NetworkAuthority, answer: Option<Identity>, now: Option<Record>) {
    if answer.None? then now == slot
    else slot.None? && now.Some? && now.value == NewRecord(claim, now.value.worker, authority, now.value.ready) && answer.value == IdentityOf(now.value)
  }

  /** The control hook that releases a held readiness. */
  predicate MarkedReady(slot: Option<Record>, now: Option<Record>) {
    slot.Some? && !slot.value.released && now == Some(slot.value.(ready := true))
  }

  predicate ReadyCall(slot: Option<Record>, id: Identity, ok: bool, now: Option<Record>) {
    if ok && Serves(slot, id) then MarkedReady(slot, now) else now == slot
  }

  // ---------------------------------------------------------------- the backend

  class Allocation {
    const claim: string
    const worker: string
    const authority: NetworkAuthority
    var ready: bool
    var started: bool
    var terminated: bool
    var released: bool
    var replaced: bool
    var networkActive: bool

    constructor (claim: string, worker: string, authority: NetworkAuthority, ready: bool)
      ensures Value() == NewRecord(claim, worker, authority, ready)
    {
      this.claim, this.worker, this.authority, this.ready := claim, worker, authority, ready;
      started, terminated, released, replaced, networkActive := false, false, false, false, false;
    }

    ghost function Value(): Record reads this {
      Record(claim, worker, authority, ready, started, terminated, released, replaced, networkActive)
    }

    function Identity(): Identity { Evidence.Identity.Identity(BACKEND, worker, "") }

    function NetworkEvidence(state: NetworkState): NetworkEvidence {
      Protocol.NetworkEvidence.NetworkEvidence(claim, Identity(), authority.profiles, authority.expires, state, Simulated)
    }
  }

  class Runtime {
    var claims: map<string, Phase>
    var allocations: map<string, Allocation>
    var byWorker: map<string, string>
    var readinessHold: set<string>

    /** The two indexes are inverse to each other, and no claim is in both paths. */
    ghost predicate Valid() reads this {
      (forall c | c in allocations :: allocations[c].claim == c && allocations[c].worker in byWorker && byWorker[allocations[c].worker] == c) &&
      (forall w | w in byWorker :: byWorker[w] in allocations && allocations[byWorker[w]].worker == w) &&
      allocations.Keys !! claims.Keys
    }

    ghost function Slot(claim: string): Option<Record> reads this, allocations.Values {
      if claim in allocations then Some(allocations[claim].Value()) else None
    }

    ghost predicate Known(id: Identity) reads this {
      id.backend == BACKEND && id.worker != "" && id.worker in byWorker
    }

    constructor ()
      ensures Valid() && claims == map[] && allocations == map[] && byWorker == map[]
    {
      claims, allocations, byWorker, readinessHold := map[], map[], map[], {};
    }

    function AllocationFor(id: Identity): (a: Option<Allocation>)
      requires Valid()
      reads this
      ensures a.Some? <==> Known(id)
      ensures a.Some? ==> a.value.claim in allocations && allocations[a.value.claim] == a.value && a.value.worker == id.worker
    {
      if id.backend != BACKEND || id.worker == "" || id.worker !in byWorker then None else Some(allocations[byWorker[id.worker]])
    }

    lemma NoneServes(id: Identity)
      requires Valid() && !Known(id)
      ensures forall c: string :: !Serves(Slot(c), id)
    {
    }

    /** The legacy path takes a claim only if the other path does not have it. */
    method AddClaim(name: string, poolRef: string, phase: Option<Phase>) returns (ok: bool)
      requires Valid()
      modifies this`claims
      ensures Valid()
      ensures ok <==> name != "" && poolRef != "" && name !in old(claims) && name !in allocations && (phase.Some? ==> phase.value.Pending?)
      ensures claims == if ok then old(claims)[name := Phase.Pending] else old(claims)
    {
      if name == "" || poolRef == "" || name in claims || name in allocations { return false; }
      if phase.Some? && !phase.value.Pending? { return false; }
      claims := claims[name := Phase.Pending];
      ok := true;
    }

    method HoldReadiness(claim: string)
      requires Valid()
      modifies this`readinessHold
      ensures Valid() && readinessHold == old(readinessHold) + {claim}
    {
      readinessHold := readinessHold + {claim};
    }

    /** Takes an idle worker for the claim; `claimed` is what the pool gave, if it gave one. */
    method Allocate(claim: string, templateRef: string, network: NetworkAuthority) returns (answer: Option<Identity>, ghost claimed: Option<string>)
      requires Valid()
      modifies this`allocations, this`byWorker, this`readinessHold
      ensures Valid()
      ensures answer.Some? <==> ValidNetworkProfiles(network.profiles) && claim != "" && templateRef != "" && claim !in old(allocations) &&
                                claim !in claims && claimed.Some? && claimed.value !in old(byWorker)
      ensures answer.Some? ==> byWorker == old(byWorker)[claimed.value := claim] && readinessHold == old(readinessHold) - {claim}
      ensures answer.Some? ==> Slot(claim) == Some(NewRecord(claim, claimed.value, network, claim !in old(readinessHold)))
      ensures answer.None? ==> byWorker == old(byWorker) && readinessHold == old(readinessHold) && allocations == old(allocations)
      ensures forall c: string :: if c == claim then AllocateCall(c, old(Slot(c)), network, answer, Slot(c)) else Slot(c) == old(Slot(c))
    {
      claimed := None;
      if |network.profiles| > 1 || (|network.profiles| == 1 && network.profiles[0] != PUBLIC_WEB) { return None, None; }
      if claim == "" || templateRef == "" || claim in allocations || claim in claims { return None, None; }
      var fromPool: Option<string> := *;
      if !fromPool.Some? { return None, None; }
      claimed := fromPool;
      if fromPool.value in byWorker { return None, fromPool; }
      var held := claim in readinessHold;
      readinessHold := readinessHold - {claim};
      var a := new Allocation(claim, fromPool.value, network, !held);
      allocations := allocations[claim := a];
      byWorker := byWorker[fromPool.value := claim];
      answer := Some(a.Identity());
    }

    method Observe(id: Identity) returns (seen: Option<RunService.Observation>)
      requires Valid()
      ensures seen.Some? <==> Known(id)
      ensures forall c: string :: Serves(Slot(c), id) ==>
                seen == Some(RunService.Observation(c, IdentityOf(Slot(c).value), Slot(c).value.ready && !Slot(c).value.released))
    {
      var found := AllocationFor(id);
      if found.None? {
        NoneServes(id);
        return None;
      }
      var a := found.value;
      seen := Some(RunService.Observation(a.claim, a.Identity(), a.ready && !a.released));
    }

    method MarkReady(id: Identity) returns (ok: bool)
      requires Valid()
      modifies allocations.Values
      ensures Valid() && (ok ==> Known(id))
      ensures forall c: string :: ReadyCall(old(Slot(c)), id, ok, Slot(c))
    {
      var found := AllocationFor(id);
      if found.None? {
        NoneServes(id);
        return false;
      }
      var a := found.value;
      ok := !a.released;
      if ok { a.ready := true; }
    }

    method Start(id: Identity) returns (ok: bool)
      requires Valid()
      modifies allocations.Values
      ensures Valid() && (ok ==> Known(id))
      ensures forall c: string :: StartCall(old(Slot(c)), id, ok, Slot(c))
    {
      var found := AllocationFor(id);
      if found.None? {
        NoneServes(id);
        return false;
      }
      var a := found.value;
      if !a.released && !a.terminated && !a.started && a.ready {
        ok := *;
        if ok { a.started := true; }
      } else {
        ok := false;
      }
    }

    /** Marks the worker terminated, if the pool lets it. */
    method TerminateWorker(a: Allocation) returns (ok: bool)
      modifies a
      ensures ok ==> a.Value() == old(a.Value()).(terminated := true)
      ensures !ok ==> a.Value() == old(a.Value())
    {
      ok := *;
      if ok { a.terminated := true; }
    }

    method Terminate(id: Identity) returns (ok: bool)
      requires Valid()
      modifies allocations.Values
      ensures Valid() && (ok ==> Known(id))
      ensures forall c: string :: TerminateCall(old(Slot(c)), id, ok, Slot(c))
    {
      var found := AllocationFor(id);
      if found.None? {
        NoneServes(id);
        return false;
      }
      var a := found.value;
      if a.released { ok := false; }
      else if a.terminated { ok := true; }
      else { ok := TerminateWorker(a); }
    }

    method Cleanup(id: Identity) returns (result: Option<RunService.CleanupResult>)
      requires Valid()
      modifies allocations.Values
      ensures Valid() && (result.Some? ==> Known(id) && result.value == RunService.CleanupResult(Evidence.Identity.Identity(BACKEND, id.worker, ""), true))
      ensures forall c: string :: CleanupCall(old(Slot(c)), id, result.Some?, Slot(c))
    {
      var found := AllocationFor(id);
      if found.None? {
        NoneServes(id);
        return None;
      }
      var a := found.value;
      result := None;
      if a.released {
        result := Some(RunService.CleanupResult(a.Identity(), true));
      } else {
        var gone := true;
        if !a.terminated { gone := TerminateWorker(a); }
        var renewed: bool := *;
        if gone && renewed {
          a.released, a.replaced := true, true;
          result := Some(RunService.CleanupResult(a.Identity(), true));
        }
      }
    }

    method RevokeNetwork(id: Identity) returns (evidence: Option<NetworkEvidence>)
      requires Valid()
      modifies allocations.Values
      ensures Valid() && (evidence.Some? ==> Known(id))
      ensures forall c: string :: RevokeCall(old(Slot(c)), id, evidence, Slot(c))
    {
      var found := AllocationFor(id);
      if found.None? {
        NoneServes(id);
        return None;
      }
      var a := found.value;
      a.networkActive := false;
      var done := true;
      if !a.released && !a.terminated { done := TerminateWorker(a); }
      evidence := if done then Some(a.NetworkEvidence(RevokedState)) else None;
    }

    /** The context may have ended before the activation or after it. */
    method ActivateNetwork(id: Identity) returns (evidence: Option<NetworkEvidence>)
      requires Valid()
      modifies allocations.Values
      ensures Valid() && (evidence.Some? ==> Known(id))
      ensures forall c: string :: ActivateCall(old(Slot(c)), id, evidence, Slot(c))
    {
      var found := AllocationFor(id);
      if found.None? {
        NoneServes(id);
        return None;
      }
      var a := found.value;
      var endedBefore: bool, endedAfter: bool := *, *;
      if endedBefore {
        var _ := RevokeNetwork(id);
        return None;
      }
      if !a.started || a.terminated || a.released || a.authority.expires == ZERO_TIME {
        return None;
      }
      a.networkActive := true;
      if endedAfter {
        var _ := RevokeNetwork(id);
        return None;
      }
      evidence := Some(a.NetworkEvidence(ActiveState));
    }
  }
}
