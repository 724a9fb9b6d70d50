/** The append-only fact journal. What it may append is said about the log alone; the class keeps cached
    indexes of the log and decides by them. */
module Journal {
  import opened Evidence
  import opened Numbering

  // ---------------------------------------------------------------- the log

  /** Who registered a request, and which claim it was bound to. */
  datatype Registry = Registry(requests: map<string, Principal>, claims: map<string, string>, requestClaims: map<string, string>, authorities: map<string, string>)

  /** How far one invocation has come: its decision, its provider attempt, its provider outcome. */
  datatype Progress = Progress(result: Result, attempted: bool, completed: bool)

  const NO_PROGRESS := Progress(NoResult, false, false)

  function NextProgress(p: Progress, f: Fact): Progress {
    match f.kind
    case ModelDecision => p.(result := f.result)
    case ToolDecision => p.(result := f.result)
    case ProviderAttempt => p.(attempted := true)
    case ProviderOutcome => p.(completed := true)
    case _ => p
  }

  /** The progress of every invocation the log mentions. */
  function ProgressOf(facts: seq<Fact>): map<string, Progress> {
    if facts == [] then map[] else
    var before, f := ProgressOf(facts[..|facts| - 1]), facts[|facts| - 1];
    if f.invocationID == "" then before else before[f.invocationID := NextProgress(Lookup(before, f.invocationID), f)]
  }

  function Lookup(progress: map<string, Progress>, id: string): Progress { if id in progress then progress[id] else NO_PROGRESS }

  /** The claim each mentioned invocation belongs to. */
  function InvocationOwners(facts: seq<Fact>): map<string, string> {
    if facts == [] then map[] else
    var before, f := InvocationOwners(facts[..|facts| - 1]), facts[|facts| - 1];
    if f.invocationID == "" then before else before[f.invocationID := f.claimID]
  }

  /** The backend identity each claim was seen with. */
  function Backends(facts: seq<Fact>): map<string, Identity> {
    if facts == [] then map[] else
    var before, f := Backends(facts[..|facts| - 1]), facts[|facts| - 1];
    if f.identity.None? then before else before[f.claimID := f.identity.value]
  }

  function BackendOwners(facts: seq<Fact>): map<Identity, string> {
    if facts == [] then map[] else
    var before, f := BackendOwners(facts[..|facts| - 1]), facts[|facts| - 1];
    if f.identity.None? then before else before[f.identity.value := f.claimID]
  }

  function Reservations(facts: seq<Fact>, ref: string): seq<Fact> {
    if facts == [] then [] else
    var before, f := Reservations(facts[..|facts| - 1], ref), facts[|facts| - 1];
    if f.kind.ModelBudgetReservation? && f.requestRef == ref then before + [f] else before
  }

  // ---------------------------------------------------------------- what may be appended

  predicate OneLine(s: string) { forall i | 0 <= i < |s| :: s[i] != '\r' && s[i] != '\n' && s[i] != '\0' }

  predicate ActionFits(f: Fact) {
    DeclaresAction(f) ==>
      f.kind.WorkerActivity? && f.operation.ActionValidated? && f.turn >= 1 && f.code.AgentAction? &&
      (f.actionKind.ToolAction? || f.actionKind.FinishAction? || f.actionKind.NativeAction?) &&
      |f.actionTool| <= 128 && |f.actionResource| <= 256 && OneLine(f.actionTool + f.actionResource) &&
      (if f.actionKind.ToolAction? then f.actionTool != "" && f.actionResource != "" else f.actionTool == "" && f.actionResource == "")
  }

  /** `prior` is the validated tool action that decision `f` names. */
  predicate ActsOn(prior: Fact, f: Fact) {
    prior.id == f.actionRef && prior.requestRef == f.requestRef && prior.claimID == f.claimID && prior.operation.ActionValidated? &&
    prior.actionKind.ToolAction? && prior.actionTool == f.target && prior.turn == f.turn
  }

  predicate ActionRefFits(facts: seq<Fact>, f: Fact) {
    f.actionRef != "" ==> f.kind.ToolDecision? && exists i | 0 <= i < |facts| :: ActsOn(facts[i], f)
  }

  /** The next unit of one request's budget: numbered after its earlier units, under the same limit, once per invocation. */
  predicate BudgetFits(facts: seq<Fact>, f: Fact) {
    if !f.kind.ModelBudgetReservation? then f.callCount == 0 && f.callLimit == 0 else
    var prior := Reservations(facts, f.requestRef);
    f.claimID != "" && f.invocationID != "" && f.operation.ModelInvoke? && f.code.ModelCallReserved? && 1 <= f.callLimit <= 1000 &&
    1 <= f.callCount <= f.callLimit && f.callCount == |prior| + 1 &&
    forall i | 0 <= i < |prior| :: prior[i].invocationID != f.invocationID && prior[i].callLimit == f.callLimit
  }

  predicate DecisionFits(reg: Registry, f: Fact) {
    f.decision.Some? ==>
      var d := f.decision.value;
      f.requestRef in reg.requests && d.id != "" && d.principalRef == reg.requests[f.requestRef].subject && !d.action.NoActionName? && d.reason != "" &&
      d.policyRef.id != "" && d.policyRef.version != "" && !f.code.NoCode? && ValidResult(d.result) &&
      (!f.result.NoResult? ==> f.result == d.result) &&
      (!d.result.Allow? && f.claimID != "" ==> f.invocationID != "") &&
      (f.policyRef.Some? ==> f.policyRef.value == d.policyRef)
  }

  predicate AuthorityFits(reg: Registry, f: Fact) {
    f.authority.Some? ==> f.claimID != "" && f.claimID in reg.authorities && f.authority.value.id == reg.authorities[f.claimID]
  }

  predicate IdentityFits(backends: map<string, Identity>, owners: map<Identity, string>, f: Fact) {
    f.identity.Some? ==>
      f.claimID != "" && f.identity.value.backend != "" && f.identity.value.worker != "" &&
      (f.claimID in backends ==> backends[f.claimID] == f.identity.value) &&
      (f.identity.value in owners ==> owners[f.identity.value] == f.claimID)
  }

  predicate InvocationFits(owners: map<string, string>, f: Fact) {
    f.invocationID != "" ==> f.claimID != "" && (f.invocationID in owners ==> owners[f.invocationID] == f.claimID)
  }

  /** Decision, attempt and outcome of an invocation come once each and in this order. */
  predicate ProgressFits(p: Progress, f: Fact) {
    match f.kind
    case ModelDecision => DecisionComplete(f) && p.result.NoResult?
    case ToolDecision => DecisionComplete(f) && p.result.NoResult?
    case ProviderAttempt => f.invocationID != "" && p.result.Allow? && !p.attempted
    case ProviderOutcome =>
      f.invocationID != "" && p.attempted && !p.completed && (f.status.Succeeded? || f.status.Failed? || f.status.Cancelled?)
    case _ => true
  }

  predicate DecisionComplete(f: Fact) {
    f.invocationID != "" && ValidResult(f.result) && !f.code.NoCode? && f.policyRef.Some? && f.policyRef.value.id != "" && f.policyRef.value.version != ""
  }

  const SEQUENCES: nat := 0x1_0000_0000_0000_0000

  /** Positions are 64-bit and never wrap. */
  predicate HasNext(start: nat, facts: seq<Fact>) { (start + |facts| + 1) % SEQUENCES > start }

  function NextID(start: nat, facts: seq<Fact>, f: Fact): string { if f.id == "" then FactID(start + |facts| + 1) else f.id }

  /** Everything the journal demands of a fact, said about the log and the registry alone. */
  predicate Admissible(reg: Registry, start: nat, facts: seq<Fact>, f: Fact) {
    f.requestRef in reg.requests && !f.kind.NoKind? &&
    (f.claimID != "" ==> f.claimID in reg.claims && reg.claims[f.claimID] == f.requestRef) &&
    0 <= f.turn <= 1000 && ActionFits(f) && ActionRefFits(facts, f) && BudgetFits(facts, f) && DecisionFits(reg, f) && AuthorityFits(reg, f) &&
    IdentityFits(Backends(facts), BackendOwners(facts), f) && (!f.result.NoResult? ==> ValidResult(f.result)) &&
    InvocationFits(InvocationOwners(facts), f) && ProgressFits(Lookup(ProgressOf(facts), f.invocationID), f) &&
    HasNext(start, facts) && NextID(start, facts, f) !in IDs(facts)
  }

  /** The fact as the journal keeps it. */
  function Stamp(start: nat, facts: seq<Fact>, f: Fact, now: int): Fact {
    f.(id := NextID(start, facts, f), sequence := start + |facts| + 1, timestamp := if f.timestamp == 0 then now else f.timestamp)
  }

  function ForRequestOf(facts: seq<Fact>, ref: string): seq<Fact> {
    if facts == [] then [] else
    var before, f := ForRequestOf(facts[..|facts| - 1], ref), facts[|facts| - 1];
    if f.requestRef == ref then before + [f] else before
  }

  function ForClaimOf(facts: seq<Fact>, claim: string): seq<Fact> {
    if facts == [] then [] else
    var before, f := ForClaimOf(facts[..|facts| - 1], claim), facts[|facts| - 1];
    if f.claimID == claim then before + [f] else before
  }

  /** A log that was built by admissible appends. */
  predicate Grown(reg: Registry, start: nat, facts: seq<Fact>) {
    facts == [] ||
    var before, f := facts[..|facts| - 1], facts[|facts| - 1];
    Grown(reg, start, before) && Admissible(reg, start, before, f) && f.id == NextID(start, before, f) && f.id != "" &&
    f.sequence == start + |before| + 1 && f.timestamp != 0
  }

  /** Claims and requests name each other, and every claim has an authority on record. */
  predicate ClaimsPaired(reg: Registry) {
    (forall c | c in reg.claims :: reg.claims[c] in reg.requests && reg.claims[c] in reg.requestClaims && reg.requestClaims[reg.claims[c]] == c) &&
    (forall r | r in reg.requestClaims :: reg.requestClaims[r] in reg.claims && reg.claims[reg.requestClaims[r]] == r) &&
    reg.authorities.Keys == reg.claims.Keys
  }

  predicate RegistryGrew(before: Registry, now: Registry) {
    (forall r | r in before.requests :: r in now.requests && now.requests[r] == before.requests[r]) &&
    (forall c | c in before.claims :: c in now.claims && now.claims[c] == before.claims[c]) &&
    (forall c | c in before.authorities :: c in now.authorities && now.authorities[c] == before.authorities[c])
  }

  lemma AdmissibleStays(before: Registry, now: Registry, start: nat, facts: seq<Fact>, f: Fact)
    requires RegistryGrew(before, now) && Admissible(before, start, facts, f)
    ensures Admissible(now, start, facts, f)
  {
    hide ActionFits, ActionRefFits, BudgetFits, IdentityFits, InvocationFits, ProgressFits, HasNext, NextID;
  }

  /** Later registrations never invalidate the log. */
  lemma {:induction false} GrownStays(before: Registry, now: Registry, start: nat, facts: seq<Fact>)
    requires RegistryGrew(before, now) && Grown(before, start, facts)
    ensures Grown(now, start, facts)
  {
    hide Admissible, RegistryGrew, NextID;
    if facts != [] {
      var n := |facts| - 1;
      GrownStays(before, now, start, facts[..n]);
      AdmissibleStays(before, now, start, facts[..n], facts[n]);
    }
  }

  function WithClaim(reg: Registry, ref: string, claim: Claim): Registry {
    reg.(claims := reg.claims[claim.id := ref], requestClaims := reg.requestClaims[ref := claim.id], authorities := reg.authorities[claim.id := claim.authorityRef])
  }

  lemma BindKeepsPairs(reg: Registry, ref: string, claim: Claim)
    requires ClaimsPaired(reg) && ref in reg.requests && claim.id !in reg.claims && ref !in reg.requestClaims
    ensures ClaimsPaired(WithClaim(reg, ref, claim)) && RegistryGrew(reg, WithClaim(reg, ref, claim))
  {
  }

  lemma PairedBack(reg: Registry, c: string)
    requires ClaimsPaired(reg) && c in reg.claims
    ensures reg.claims[c] in reg.requestClaims && reg.requestClaims[reg.claims[c]] == c
  {
  }

  datatype Reservation = Taken | Exhausted | Refused

  function Unit(ref: string, claim: string, id: string, count: int, limit: int): Fact {
    BLANK_FACT.(kind := ModelBudgetReservation, requestRef := ref, claimID := claim, invocationID := id, operation := ModelInvoke,
                code := ModelCallReserved, callCount := count, callLimit := limit)
  }

  class Journal {
    const start: nat
    var requests: map<string, Principal>
    var claims: map<string, string>
    var requestClaims: map<string, string>
    var authorities: map<string, string>
    var invocations: map<string, string>
    var progress: map<string, Progress>
    var backends: map<string, Identity>
    var backendOwners: map<Identity, string>
    var ids: set<string>
    var facts: seq<Fact>

    function Reg(): Registry reads this { Registry(requests, claims, requestClaims, authorities) }

    /** Every cached index is what recomputing it from the log gives. */
    ghost predicate Valid() reads this {
      start + |facts| < SEQUENCES && ClaimsPaired(Reg()) && Grown(Reg(), start, facts) &&
      ids == IDs(facts) && invocations == InvocationOwners(facts) && progress == ProgressOf(facts) &&
      backends == Backends(facts) && backendOwners == BackendOwners(facts) && "" !in requests && "" !in claims
    }

    /** A journal that continues after the last persisted position. */
    constructor (start: nat)
      requires start < SEQUENCES
      ensures Valid() && facts == [] && this.start == start && requests == map[] && claims == map[]
    {
      this.start := start;
      requests, claims, requestClaims, authorities := map[], map[], map[], map[];
      invocations, progress, backends, backendOwners, ids, facts := map[], map[], map[], map[], {}, [];
    }

    method RegisterRequest(ref: string, principal: Principal) returns (ok: bool)
      requires Valid()
      modifies this`requests
      ensures Valid()
      ensures ok <==> ref != "" && principal.subject != "" && ref !in old(requests)
      ensures requests == if ok then old(requests)[ref := principal] else old(requests)
    {
      hide Grown;
      if ref == "" || principal.subject == "" || ref in requests { return false; }
      ghost var before := Reg();
      requests := requests[ref := principal];
      GrownStays(before, Reg(), start, facts);
      ok := true;
    }

    /** Binds a claim to its request, one to one; binding the same pair again changes nothing. */
    method BindClaim(ref: string, claim: Claim) returns (ok: bool)
      requires Valid()
      modifies this`claims, this`requestClaims, this`authorities
      ensures Valid()
      ensures var again := claim.id in old(claims) && old(claims)[claim.id] == ref;
              ok <==> ref in requests && claim.id != "" && claim.requestRef == ref && (again || (claim.id !in old(claims) && ref !in old(requestClaims)))
      ensures if ok && claim.id !in old(claims)
              then claims == old(claims)[claim.id := ref] && requestClaims == old(requestClaims)[ref := claim.id] &&
                   authorities == old(authorities)[claim.id := claim.authorityRef]
              else claims == old(claims) && requestClaims == old(requestClaims) && authorities == old(authorities)
    {
      hide Grown, ClaimsPaired, RegistryGrew;
      if ref !in requests { return false; }
      if claim.id == "" || claim.requestRef != ref { return false; }
      if claim.id in claims {
        PairedBack(Reg(), claim.id);
        return claims[claim.id] == ref && ref in requestClaims && requestClaims[ref] == claim.id;
      }
      if ref in requestClaims { return false; }
      BindKeepsPairs(Reg(), ref, claim);
      GrownStays(Reg(), WithClaim(Reg(), ref, claim), start, facts);
      claims, requestClaims, authorities := claims[claim.id := ref], requestClaims[ref := claim.id], authorities[claim.id := claim.authorityRef];
      ok := true;
    }

    method ActionMatched(f: Fact) returns (matched: bool)
      ensures matched <==> exists i | 0 <= i < |facts| :: ActsOn(facts[i], f)
    {
      for i := 0 to |facts|
        invariant forall j | 0 <= j < i :: !ActsOn(facts[j], f)
      {
        if ActsOn(facts[i], f) { return true; }
      }
      matched := false;
    }

    /** Counts the earlier units of the request's budget and refuses a repeated invocation or another limit. */
    method BudgetMatched(f: Fact) returns (matched: bool)
      ensures matched <==> BudgetFits(facts, f)
    {
      if !f.kind.ModelBudgetReservation? { return f.callCount == 0 && f.callLimit == 0; }
      if f.claimID == "" || f.invocationID == "" || !f.operation.ModelInvoke? || !f.code.ModelCallReserved? || f.callLimit < 1 || f.callLimit > 1000 ||
         f.callCount < 1 || f.callCount > f.callLimit { return false; }
      var count := 0;
      for i := 0 to |facts|
        invariant count == |Reservations(facts[..i], f.requestRef)|
        invariant forall j | 0 <= j < count :: Reservations(facts[..i], f.requestRef)[j].invocationID != f.invocationID &&
                                               Reservations(facts[..i], f.requestRef)[j].callLimit == f.callLimit
      {
        var prior := facts[i];
        assert facts[..i + 1][..i] == facts[..i];
        if prior.kind.ModelBudgetReservation? && prior.requestRef == f.requestRef {
          if prior.invocationID == f.invocationID || prior.callLimit != f.callLimit {
            ReservationKept(facts, i, f.requestRef);
            return false;
          }
          count := count + 1;
        }
      }
      assert facts[..|facts|] == facts;
      matched := f.callCount == count + 1;
    }

    /** Decides by the cached indexes. */
    method Admits(f: Fact) returns (ok: bool)
      requires Valid()
      ensures ok <==> Admissible(Reg(), start, facts, f)
    {
      hide Grown, ClaimsPaired, IDs, InvocationOwners, ProgressOf, Backends, BackendOwners, ActsOn, Reservations;
      if f.requestRef !in requests || f.kind.NoKind? { return false; }
      if f.claimID != "" && (f.claimID !in claims || claims[f.claimID] != f.requestRef) { return false; }
      if f.turn < 0 || f.turn > 1000 || !ActionFits(f) { return false; }
      if f.actionRef != "" {
        var matched := ActionMatched(f);
        if !f.kind.ToolDecision? || !matched { return false; }
      }
      var budgeted := BudgetMatched(f);
      if !budgeted { return false; }
      if !DecisionFits(Reg(), f) || !AuthorityFits(Reg(), f) || !IdentityFits(backends, backendOwners, f) { return false; }
      if !f.result.NoResult? && !ValidResult(f.result) { return false; }
      if !InvocationFits(invocations, f) || !ProgressFits(Lookup(progress, f.invocationID), f) { return false; }
      if (start + |facts| + 1) % SEQUENCES <= start { return false; }
      ok := NextID(start, facts, f) !in ids;
    }

    /** Publishes a stamped fact in the log and in every index. */
    method Publish(fact: Fact)
      requires Valid() && Grown(Reg(), start, facts + [fact]) && start + |facts| + 1 < SEQUENCES
      modifies this`facts, this`ids, this`invocations, this`progress, this`backends, this`backendOwners
      ensures Valid() && facts == old(facts) + [fact]
    {
      hide Grown, ClaimsPaired, IDs, InvocationOwners, ProgressOf, Backends, BackendOwners, NextProgress, Lookup;
      IndexesGrow(facts, fact);
      var step := NextProgress(Lookup(progress, fact.invocationID), fact);
      ids := ids + {fact.id};
      if fact.invocationID != "" {
        invocations, progress := invocations[fact.invocationID := fact.claimID], progress[fact.invocationID := step];
      }
      if fact.identity.Some? {
        backends, backendOwners := backends[fact.claimID := fact.identity.value], backendOwners[fact.identity.value := fact.claimID];
      }
      facts := facts + [fact];
    }

    /** Appends one fact. The commit hook answers before anything is published; a fact that is not admissible, or
        whose commit fails, changes nothing. */
    method Append(f: Fact, now: int) returns (stored: Option<Fact>, committed: bool)
      requires Valid() && now != 0
      modifies this`facts, this`ids, this`invocations, this`progress, this`backends, this`backendOwners
      ensures Valid()
      ensures stored.Some? <==> old(Admissible(Reg(), start, facts, f)) && committed
      ensures stored.Some? ==> stored.value == old(Stamp(start, facts, f, now)) && facts == old(facts) + [stored.value]
      ensures stored.None? ==> unchanged(this)
    {
      hide Admissible, Grown, ClaimsPaired, Stamp;
      var admitted := Admits(f);
      committed := *;
      if !admitted || !committed { return None, committed; }
      var fact := Stamp(start, facts, f, now);
      NextIsInRange(Reg(), start, facts, f);
      GrownNext(Reg(), start, facts, f, now);
      Publish(fact);
      stored := Some(fact);
    }

    /** Takes the next unit of a request's model budget. The count and the append see the same reservations: the unit is taken
        exactly when the request has no unit for this invocation and none under another limit, one is left, the unit is
        admissible and its commit succeeds; and the budget is reported as exhausted exactly when none is left. */
    method ReserveModelCall(ref: string, claim: string, id: string, limit: int, now: int) returns (outcome: Reservation, committed: bool)
      requires Valid() && now != 0
      modifies this`facts, this`ids, this`invocations, this`progress, this`backends, this`backendOwners
      ensures Valid()
      ensures var units := old(Reservations(facts, ref));
              var asked := id != "" && 1 <= limit <= 1000 && forall unit | unit in units :: unit.invocationID != id && unit.callLimit == limit;
              (outcome.Exhausted? <==> asked && |units| >= limit) &&
              (outcome.Taken? <==> asked && |units| < limit && committed && old(Admissible(Reg(), start, facts, Unit(ref, claim, id, |Reservations(facts, ref)| + 1, limit))))
      ensures outcome.Taken? ==> |facts| == |old(facts)| + 1 && facts == old(facts) + [facts[|facts| - 1]] &&
                                 Bare(facts[|facts| - 1]) == Unit(ref, claim, id, |old(Reservations(facts, ref))| + 1, limit)
      ensures !outcome.Taken? ==> unchanged(this)
    {
      hide Admissible, Grown, ClaimsPaired, Reservations;
      committed := false;
      if id == "" || limit < 1 || limit > 1000 { return Refused, false; }
      var count := CountUnits(ref, id, limit);
      if count.None? { return Refused, false; }
      if count.value >= limit { return Exhausted, false; }
      var stored;
      stored, committed := Append(Unit(ref, claim, id, count.value + 1, limit), now);
      outcome := if stored.Some? then Taken else Refused;
    }

    /** Counts the units already taken, unless one of them is for the same invocation or under another limit. */
    method CountUnits(ref: string, id: string, limit: int) returns (count: Option<nat>)
      ensures count.Some? <==> forall unit | unit in Reservations(facts, ref) :: unit.invocationID != id && unit.callLimit == limit
      ensures count.Some? ==> count.value == |Reservations(facts, ref)|
    {
      var view := ForRequest(ref);
      ViewReservations(facts, ref);
      ViewBelongs(facts, ref);
      var n := 0;
      for i := 0 to |view|
        invariant n == |Reservations(view[..i], ref)|
        invariant forall unit | unit in Reservations(view[..i], ref) :: unit.invocationID != id && unit.callLimit == limit
      {
        assert view[..i + 1][..i] == view[..i];
        if view[i].kind.ModelBudgetReservation? {
          if view[i].invocationID == id || view[i].callLimit != limit {
            ReservationKept(view, i, ref);
            return None;
          }
          n := n + 1;
        }
      }
      assert view[..|view|] == view;
      count := Some(n);
    }

    method ForRequest(ref: string) returns (result: seq<Fact>)
      ensures result == ForRequestOf(facts, ref)
    {
      result := [];
      for i := 0 to |facts|
        invariant result == ForRequestOf(facts[..i], ref)
      {
        assert facts[..i + 1][..i] == facts[..i];
        if facts[i].requestRef == ref { result := result + [facts[i]]; }
      }
      assert facts[..|facts|] == facts;
    }

    method ForClaim(id: string) returns (result: seq<Fact>)
      ensures result == ForClaimOf(facts, id)
    {
      result := [];
      for i := 0 to |facts|
        invariant result == ForClaimOf(facts[..i], id)
      {
        assert facts[..i + 1][..i] == facts[..i];
        if facts[i].claimID == id { result := result + [facts[i]]; }
      }
      assert facts[..|facts|] == facts;
    }
  }

  /** A reservation recorded at `i` stays among the reservations of its request. */
  lemma {:induction false} ReservationKept(facts: seq<Fact>, i: nat, ref: string)
    requires i < |facts| && facts[i].kind.ModelBudgetReservation? && facts[i].requestRef == ref
    ensures exists j | 0 <= j < |Reservations(facts, ref)| :: Reservations(facts, ref)[j] == facts[i]
    decreases |facts|
  {
    var n := |facts| - 1;
    var all := Reservations(facts, ref);
    if i == n {
      assert all[|all| - 1] == facts[i];
    } else {
      ReservationKept(facts[..n], i, ref);
      var j :| 0 <= j < |Reservations(facts[..n], ref)| && Reservations(facts[..n], ref)[j] == facts[..n][i];
      assert all[j] == facts[i];
    }
  }

  lemma NextIsInRange(reg: Registry, start: nat, facts: seq<Fact>, f: Fact)
    requires Admissible(reg, start, facts, f) && start + |facts| < SEQUENCES
    ensures start + |facts| + 1 < SEQUENCES
  {
  }

  lemma StampedIsAdmissible(reg: Registry, start: nat, facts: seq<Fact>, f: Fact, now: int)
    requires Admissible(reg, start, facts, f) && now != 0
    ensures var fact := Stamp(start, facts, f, now);
            Admissible(reg, start, facts, fact) && fact.id == NextID(start, facts, fact) && fact.id != "" && fact.timestamp != 0 &&
            fact.sequence == start + |facts| + 1 && fact.invocationID == f.invocationID && fact.identity == f.identity && fact.claimID == f.claimID
  {
    hide Reservations, Decimal;
  }

  lemma GrownNext(reg: Registry, start: nat, facts: seq<Fact>, f: Fact, now: int)
    requires Grown(reg, start, facts) && Admissible(reg, start, facts, f) && now != 0
    ensures Grown(reg, start, facts + [Stamp(start, facts, f, now)])
  {
    hide Admissible, NextID;
    StampedIsAdmissible(reg, start, facts, f, now);
    assert (facts + [Stamp(start, facts, f, now)])[..|facts|] == facts;
  }

  lemma IndexesGrow(facts: seq<Fact>, f: Fact)
    ensures var all := facts + [f];
            IDs(all) == IDs(facts) + {f.id} &&
            InvocationOwners(all) == (if f.invocationID == "" then InvocationOwners(facts) else InvocationOwners(facts)[f.invocationID := f.claimID]) &&
            ProgressOf(all) == (if f.invocationID == "" then ProgressOf(facts)
                                else ProgressOf(facts)[f.invocationID := NextProgress(Lookup(ProgressOf(facts), f.invocationID), f)]) &&
            Backends(all) == (if f.identity.None? then Backends(facts) else Backends(facts)[f.claimID := f.identity.value]) &&
            BackendOwners(all) == (if f.identity.None? then BackendOwners(facts) else BackendOwners(facts)[f.identity.value := f.claimID])
  {
    assert (facts + [f])[..|facts|] == facts;
  }

  // ---------------------------------------------------------------- the log of one journal

  /** No two facts share an identity, positions have no gaps, and every fact is attributed as registered. */
  lemma {:induction false} FactAt(reg: Registry, start: nat, facts: seq<Fact>, i: nat)
    requires Grown(reg, start, facts) && i < |facts|
    ensures facts[i].sequence == start + i + 1 && facts[i].id in IDs(facts) && facts[i].id != "" && facts[i].timestamp != 0
    ensures facts[i].requestRef in reg.requests && (facts[i].claimID != "" ==> facts[i].claimID in reg.claims && reg.claims[facts[i].claimID] == facts[i].requestRef)
    ensures facts[i].invocationID != "" ==> facts[i].claimID != "" && facts[i].invocationID in InvocationOwners(facts) && InvocationOwners(facts)[facts[i].invocationID] == facts[i].claimID
  {
    hide NextID, ActionFits, ActionRefFits, BudgetFits, IdentityFits, DecisionFits, AuthorityFits, ProgressFits;
    var n := |facts| - 1;
    if i < n { FactAt(reg, start, facts[..n], i); }
  }

  lemma {:induction false} IDsDistinct(reg: Registry, start: nat, facts: seq<Fact>, i: nat, j: nat)
    requires Grown(reg, start, facts) && i < j < |facts|
    ensures facts[i].id != facts[j].id
  {
    hide NextID, ActionFits, ActionRefFits, BudgetFits, IdentityFits, DecisionFits, AuthorityFits, ProgressFits, InvocationFits;
    var n := |facts| - 1;
    if j < n { IDsDistinct(reg, start, facts[..n], i, j); }
    else { FactAt(reg, start, facts[..n], i); }
  }

  /** Claims and backend identities seen in the log name each other. */
  lemma {:induction false} BackendsPaired(reg: Registry, start: nat, facts: seq<Fact>)
    requires Grown(reg, start, facts)
    ensures forall c | c in Backends(facts) :: Backends(facts)[c] in BackendOwners(facts) && BackendOwners(facts)[Backends(facts)[c]] == c
    ensures forall id | id in BackendOwners(facts) :: BackendOwners(facts)[id] in Backends(facts) && Backends(facts)[BackendOwners(facts)[id]] == id
  {
    hide NextID, ActionFits, ActionRefFits, BudgetFits, DecisionFits, AuthorityFits, ProgressFits, InvocationFits;
    if facts != [] { BackendsPaired(reg, start, facts[..|facts| - 1]); }
  }

  /** What a fact carries belongs to its request and claim: the decision to the registered principal, the authority to the bound
      claim, and a reference to an action to an earlier validated call of this very tool. */
  lemma {:induction false} CarriedAt(reg: Registry, start: nat, facts: seq<Fact>, i: nat)
    requires Grown(reg, start, facts) && i < |facts| && facts[i].requestRef in reg.requests
    ensures var f := facts[i];
            (f.decision.Some? ==>
               f.decision.value.id != "" && f.decision.value.principalRef == reg.requests[f.requestRef].subject && f.decision.value.reason != "" &&
               ValidResult(f.decision.value.result) && (!f.result.NoResult? ==> f.result == f.decision.value.result) &&
               (f.policyRef.Some? ==> f.policyRef.value == f.decision.value.policyRef)) &&
            (f.authority.Some? ==> f.claimID in reg.authorities && f.authority.value.id == reg.authorities[f.claimID]) &&
            (f.identity.Some? ==> f.claimID != "" && f.identity.value.backend != "" && f.identity.value.worker != "") &&
            (!f.kind.ModelBudgetReservation? ==> f.callCount == 0 && f.callLimit == 0)
    ensures var f := facts[i];
            f.actionRef != "" ==>
              f.kind.ToolDecision? &&
              exists j | 0 <= j < i ::
                facts[j].id == f.actionRef && facts[j].requestRef == f.requestRef && facts[j].claimID == f.claimID && facts[j].operation.ActionValidated? &&
                facts[j].actionTool == f.target && facts[j].turn == f.turn
  {
    hide NextID, ActionFits, BudgetFits, InvocationFits, ProgressFits, HasNext;
    var n := |facts| - 1;
    if i < n {
      CarriedAt(reg, start, facts[..n], i);
      if facts[i].actionRef != "" {
        var j :| 0 <= j < i && facts[..n][j].id == facts[i].actionRef && facts[..n][j].requestRef == facts[i].requestRef &&
                 facts[..n][j].claimID == facts[i].claimID && facts[..n][j].operation.ActionValidated? && facts[..n][j].actionTool == facts[i].target &&
                 facts[..n][j].turn == facts[i].turn;
        assert facts[j].id == facts[i].actionRef;
      }
    } else {
      LastCarries(reg, start, facts[..n], facts[n]);
      if facts[n].actionRef != "" {
        var j :| 0 <= j < n && ActsOn(facts[..n][j], facts[n]);
        assert facts[j].id == facts[n].actionRef;
      }
    }
  }

  lemma LastCarries(reg: Registry, start: nat, facts: seq<Fact>, f: Fact)
    requires Admissible(reg, start, facts, f)
    ensures DecisionFits(reg, f) && AuthorityFits(reg, f) && IdentityFits(Backends(facts), BackendOwners(facts), f) && ActionRefFits(facts, f)
    ensures !f.kind.ModelBudgetReservation? ==> f.callCount == 0 && f.callLimit == 0
  {
    hide NextID, ActionFits, InvocationFits, ProgressFits, HasNext, DecisionFits, AuthorityFits, IdentityFits, ActionRefFits;
  }

  // ---------------------------------------------------------------- the calls of one log

  predicate Decides(f: Fact) { f.kind.ModelDecision? || f.kind.ToolDecision? }

  lemma NextLookup(facts: seq<Fact>, id: string)
    requires facts != [] && id != ""
    ensures var before, f := Lookup(ProgressOf(facts[..|facts| - 1]), id), facts[|facts| - 1];
            Lookup(ProgressOf(facts), id) == if f.invocationID == id then NextProgress(before, f) else before
  {
  }

  lemma {:induction false} ProvidersTraced(facts: seq<Fact>, id: string)
    requires id != ""
    ensures var p := Lookup(ProgressOf(facts), id);
            (p.attempted <==> exists j | 0 <= j < |facts| :: facts[j].kind.ProviderAttempt? && facts[j].invocationID == id) &&
            (p.completed <==> exists j | 0 <= j < |facts| :: facts[j].kind.ProviderOutcome? && facts[j].invocationID == id)
  {
    if facts != [] {
      hide ProgressOf, Lookup;
      var n := |facts| - 1;
      ProvidersTraced(facts[..n], id);
      NextLookup(facts, id);
      assert forall j | 0 <= j < n :: facts[..n][j] == facts[j];
    }
  }

  predicate Decided(facts: seq<Fact>, id: string) { exists j | 0 <= j < |facts| :: Decides(facts[j]) && facts[j].invocationID == id }

  predicate Allowed(facts: seq<Fact>, id: string) {
    exists j | 0 <= j < |facts| :: Decides(facts[j]) && facts[j].result.Allow? && facts[j].invocationID == id
  }

  lemma DecisionGrows(facts: seq<Fact>, f: Fact, id: string)
    ensures Decided(facts + [f], id) <==> Decided(facts, id) || (Decides(f) && f.invocationID == id)
    ensures Allowed(facts + [f], id) <==> Allowed(facts, id) || (Decides(f) && f.result.Allow? && f.invocationID == id)
  {
    var all, n := facts + [f], |facts|;
    assert all[n] == f && forall j | 0 <= j < n :: all[j] == facts[j];
    if Decided(facts, id) {
      var j :| 0 <= j < n && Decides(facts[j]) && facts[j].invocationID == id;
      assert Decides(all[j]);
    }
    if Allowed(facts, id) {
      var j :| 0 <= j < n && Decides(facts[j]) && facts[j].result.Allow? && facts[j].invocationID == id;
      assert Decides(all[j]);
    }
  }

  lemma {:induction false} DecisionsTraced(reg: Registry, start: nat, facts: seq<Fact>, id: string)
    requires Grown(reg, start, facts) && id != ""
    ensures !Lookup(ProgressOf(facts), id).result.NoResult? <==> Decided(facts, id)
    ensures Lookup(ProgressOf(facts), id).result.Allow? <==> Allowed(facts, id)
  {
    if facts != [] {
      hide ProgressOf, Lookup, Admissible, NextID, Decided, Allowed, NextProgress, ProgressFits;
      var n := |facts| - 1;
      DecisionsTraced(reg, start, facts[..n], id);
      NextLookup(facts, id);
      DecisionGrows(facts[..n], facts[n], id);
      assert facts == facts[..n] + [facts[n]];
      LastProgresses(reg, start, facts[..n], facts[n]);
      ResultStep(Lookup(ProgressOf(facts[..n]), facts[n].invocationID), facts[n]);
    } else {
      assert !Decided([], id) && !Allowed([], id);
    }
  }

  lemma ResultStep(p: Progress, f: Fact)
    requires ProgressFits(p, f)
    ensures NextProgress(p, f).result == if Decides(f) then f.result else p.result
    ensures Decides(f) ==> p.result.NoResult? && ValidResult(f.result)
  {
  }

  lemma LastProgresses(reg: Registry, start: nat, facts: seq<Fact>, f: Fact)
    requires Admissible(reg, start, facts, f)
    ensures ProgressFits(Lookup(ProgressOf(facts), f.invocationID), f)
  {
    hide NextID, ActionFits, ActionRefFits, BudgetFits, IdentityFits, DecisionFits, AuthorityFits, InvocationFits, HasNext, ProgressFits;
  }

  /** In one log a provider attempt follows an Allow decision of its own invocation, a provider outcome follows an attempt of its
      own, and no invocation is decided, attempted or answered twice. */
  lemma CallsInOrder(reg: Registry, start: nat, facts: seq<Fact>, i: nat)
    requires Grown(reg, start, facts) && i < |facts|
    ensures var f := facts[i];
            (f.kind.ProviderAttempt? ==>
               (exists j | 0 <= j < i :: (facts[j].kind.ModelDecision? || facts[j].kind.ToolDecision?) && facts[j].result.Allow? && facts[j].invocationID == f.invocationID) &&
               forall j | 0 <= j < i && facts[j].kind.ProviderAttempt? :: facts[j].invocationID != f.invocationID) &&
            (f.kind.ProviderOutcome? ==>
               (exists j | 0 <= j < i :: facts[j].kind.ProviderAttempt? && facts[j].invocationID == f.invocationID) &&
               forall j | 0 <= j < i && facts[j].kind.ProviderOutcome? :: facts[j].invocationID != f.invocationID) &&
            (f.kind.ModelDecision? || f.kind.ToolDecision? ==>
               forall j | 0 <= j < i && (facts[j].kind.ModelDecision? || facts[j].kind.ToolDecision?) :: facts[j].invocationID != f.invocationID)
  {
    hide ProgressOf, Lookup, Admissible, Grown;
    GrownAt(reg, start, facts, i);
    var before, f := facts[..i], facts[i];
    LastProgresses(reg, start, before, f);
    if Decides(f) || f.kind.ProviderAttempt? || f.kind.ProviderOutcome? {
      ProvidersTraced(before, f.invocationID);
      DecisionsTraced(reg, start, before, f.invocationID);
      assert forall j | 0 <= j < i :: before[j] == facts[j];
    }
  }

  /** A fact of a call that carries nothing else. */
  predicate OfCall(f: Fact) {
    (Decides(f) || f.kind.ProviderAttempt? || f.kind.ProviderOutcome?) && f.id == "" && f.decision.None? && f.authority.None? && f.identity.None? &&
    f.actionRef == "" && !DeclaresAction(f) && f.callCount == 0 && f.callLimit == 0 && 0 <= f.turn <= 1000
  }

  /** The request is registered, the claim bound to it, the invocation no other claim's, and a position and identity unused. */
  predicate Placed(reg: Registry, start: nat, facts: seq<Fact>, f: Fact) {
    f.requestRef in reg.requests && f.claimID != "" && f.claimID in reg.claims && reg.claims[f.claimID] == f.requestRef && f.invocationID != "" &&
    (f.invocationID in InvocationOwners(facts) ==> InvocationOwners(facts)[f.invocationID] == f.claimID) &&
    start + |facts| + 1 < SEQUENCES && FactID(start + |facts| + 1) !in IDs(facts)
  }

  /** And such a fact is admissible exactly when it is due: a complete decision of an undecided invocation, the first attempt of an allowed
      one, or the first outcome of an attempted one. */
  lemma CallIsAdmissible(reg: Registry, start: nat, facts: seq<Fact>, f: Fact)
    requires Grown(reg, start, facts) && start + |facts| < SEQUENCES && OfCall(f)
    ensures Admissible(reg, start, facts, f) <==>
              Placed(reg, start, facts, f) && (f.result.NoResult? || f.result.Allow? || f.result.Deny? || f.result.ApprovalRequired?) &&
              (f.kind.ModelDecision? || f.kind.ToolDecision? ==>
                 !f.result.NoResult? && !f.code.NoCode? && f.policyRef.Some? && f.policyRef.value.id != "" && f.policyRef.value.version != "" &&
                 !Decided(facts, f.invocationID)) &&
              (f.kind.ProviderAttempt? ==> Allowed(facts, f.invocationID) && !AttemptedIn(facts, f.invocationID)) &&
              (f.kind.ProviderOutcome? ==>
                 (f.status.Succeeded? || f.status.Failed? || f.status.Cancelled?) && AttemptedIn(facts, f.invocationID) && !AnsweredIn(facts, f.invocationID))
  {
    hide Grown, ProgressOf, Lookup, InvocationOwners, IDs, FactID, Decided, Allowed, AttemptedIn, AnsweredIn, Reservations, ActsOn, Backends, BackendOwners;
    if f.invocationID != "" {
      ProviderSeen(facts, f.invocationID);
      DecisionsTraced(reg, start, facts, f.invocationID);
    }
  }

  predicate AttemptedIn(facts: seq<Fact>, id: string) { exists j | 0 <= j < |facts| :: facts[j].kind.ProviderAttempt? && facts[j].invocationID == id }

  predicate AnsweredIn(facts: seq<Fact>, id: string) { exists j | 0 <= j < |facts| :: facts[j].kind.ProviderOutcome? && facts[j].invocationID == id }

  lemma ProviderSeen(facts: seq<Fact>, id: string)
    requires id != ""
    ensures Lookup(ProgressOf(facts), id).attempted <==> AttemptedIn(facts, id)
    ensures Lookup(ProgressOf(facts), id).completed <==> AnsweredIn(facts, id)
  {
    hide ProgressOf, Lookup;
    ProvidersTraced(facts, id);
  }

  /** Every fact was admissible after the facts before it. */
  lemma {:induction false} GrownAt(reg: Registry, start: nat, facts: seq<Fact>, i: nat)
    requires Grown(reg, start, facts) && i < |facts|
    ensures Grown(reg, start, facts[..i]) && Admissible(reg, start, facts[..i], facts[i])
    decreases |facts|
  {
    hide Admissible, NextID;
    var n := |facts| - 1;
    if i < n {
      GrownAt(reg, start, facts[..n], i);
      assert facts[..n][..i] == facts[..i];
    }
  }

  // ---------------------------------------------------------------- views of one request

  lemma {:induction false} ViewBelongs(facts: seq<Fact>, ref: string)
    ensures forall i | 0 <= i < |ForRequestOf(facts, ref)| :: ForRequestOf(facts, ref)[i] in facts && ForRequestOf(facts, ref)[i].requestRef == ref
    ensures forall f | f in facts && f.requestRef == ref :: f in ForRequestOf(facts, ref)
  {
    if facts != [] { ViewBelongs(facts[..|facts| - 1], ref); }
  }

  lemma {:induction false} ViewIDs(facts: seq<Fact>, ref: string)
    ensures IDs(ForRequestOf(facts, ref)) <= IDs(facts)
  {
    if facts != [] {
      ViewIDs(facts[..|facts| - 1], ref);
      var view := ForRequestOf(facts[..|facts| - 1], ref);
      assert (view + [facts[|facts| - 1]])[..|view|] == view;
    }
  }

  /** The facts of one request, cut from the journal, keep their order and stay stamped. */
  lemma {:induction false} ViewIsStamped(reg: Registry, start: nat, facts: seq<Fact>, ref: string)
    requires Grown(reg, start, facts)
    ensures Stamped(ForRequestOf(facts, ref)) && LastSequence(ForRequestOf(facts, ref)) <= start + |facts|
  {
    hide NextID, ActionFits, ActionRefFits, BudgetFits, IdentityFits, DecisionFits, AuthorityFits, ProgressFits, InvocationFits, HasNext;
    if facts != [] {
      var n := |facts| - 1;
      ViewIsStamped(reg, start, facts[..n], ref);
      var view := ForRequestOf(facts[..n], ref);
      ViewIDs(facts[..n], ref);
      assert (view + [facts[n]])[..|view|] == view;
    }
  }

  /** Views of different requests share no fact, no position and no invocation. */
  lemma RequestsAreIsolated(reg: Registry, start: nat, facts: seq<Fact>, a: string, b: string, f: Fact, g: Fact)
    requires Grown(reg, start, facts) && ClaimsPaired(reg) && a != b && f in ForRequestOf(facts, a) && g in ForRequestOf(facts, b)
    ensures f.id != g.id && f.sequence != g.sequence
    ensures f.invocationID != "" ==> f.invocationID != g.invocationID
  {
    hide Admissible, ClaimsPaired, ForRequestOf;
    ViewBelongs(facts, a);
    ViewBelongs(facts, b);
    var i :| 0 <= i < |facts| && facts[i] == f;
    var j :| 0 <= j < |facts| && facts[j] == g;
    FactAt(reg, start, facts, i);
    FactAt(reg, start, facts, j);
    if i < j { IDsDistinct(reg, start, facts, i, j); } else { IDsDistinct(reg, start, facts, j, i); }
  }

  /** The facts of a claim are the facts of its request that name the claim. */
  lemma {:induction false} ClaimWithinRequest(reg: Registry, start: nat, facts: seq<Fact>, claim: string)
    requires Grown(reg, start, facts) && claim != "" && claim in reg.claims
    ensures ForClaimOf(facts, claim) == ForClaimOf(ForRequestOf(facts, reg.claims[claim]), claim)
  {
    hide NextID, ActionFits, ActionRefFits, BudgetFits, IdentityFits, DecisionFits, AuthorityFits, ProgressFits, InvocationFits, HasNext;
    if facts != [] {
      var n := |facts| - 1;
      ClaimWithinRequest(reg, start, facts[..n], claim);
      var view := ForRequestOf(facts[..n], reg.claims[claim]);
      assert (view + [facts[n]])[..|view|] == view;
    }
  }

  // ---------------------------------------------------------------- the budget of one request

  lemma {:induction false} ViewReservations(facts: seq<Fact>, ref: string)
    ensures Reservations(ForRequestOf(facts, ref), ref) == Reservations(facts, ref)
  {
    if facts != [] {
      ViewReservations(facts[..|facts| - 1], ref);
      var view := ForRequestOf(facts[..|facts| - 1], ref);
      assert (view + [facts[|facts| - 1]])[..|view|] == view;
    }
  }

  /** A unit that is left is admissible exactly when its request is registered, its claim bound to it, its invocation not another
      claim's, and the journal has an unused position and identity. */
  lemma UnitIsAdmissible(reg: Registry, start: nat, facts: seq<Fact>, ref: string, claim: string, id: string, limit: int)
    requires Grown(reg, start, facts) && start + |facts| < SEQUENCES && id != "" && 1 <= limit <= 1000 && |Reservations(facts, ref)| < limit
    requires forall unit | unit in Reservations(facts, ref) :: unit.invocationID != id && unit.callLimit == limit
    ensures Admissible(reg, start, facts, Unit(ref, claim, id, |Reservations(facts, ref)| + 1, limit)) <==>
            ref in reg.requests && claim != "" && claim in reg.claims && reg.claims[claim] == ref &&
            (id in InvocationOwners(facts) ==> InvocationOwners(facts)[id] == claim) &&
            start + |facts| + 1 < SEQUENCES && FactID(start + |facts| + 1) !in IDs(facts)
  {
    hide Reservations, InvocationOwners, IDs, FactID, Grown, ActsOn;
  }

  predicate UnitsNumbered(units: seq<Fact>) {
    (forall i | 0 <= i < |units| :: units[i].callCount == i + 1 && units[i].callLimit == units[0].callLimit) &&
    (forall i, j | 0 <= i < j < |units| :: units[i].invocationID != units[j].invocationID) &&
    (units != [] ==> |units| <= units[0].callLimit <= 1000)
  }

  lemma BudgetGrows(units: seq<Fact>, f: Fact)
    requires UnitsNumbered(units) && f.callCount == |units| + 1 && 1 <= f.callCount <= f.callLimit <= 1000
    requires forall i | 0 <= i < |units| :: units[i].invocationID != f.invocationID && units[i].callLimit == f.callLimit
    ensures UnitsNumbered(units + [f])
  {
  }

  /** The units of a request's budget are numbered from one, under one limit, never beyond it, each for an
      invocation of its own. */
  lemma {:induction false} BudgetIsNumbered(reg: Registry, start: nat, facts: seq<Fact>, ref: string)
    requires Grown(reg, start, facts)
    ensures UnitsNumbered(Reservations(facts, ref))
  {
    hide NextID, ActionFits, ActionRefFits, IdentityFits, DecisionFits, AuthorityFits, ProgressFits, InvocationFits, HasNext;
    if facts != [] {
      var before, f := facts[..|facts| - 1], facts[|facts| - 1];
      BudgetIsNumbered(reg, start, before, ref);
      if f.kind.ModelBudgetReservation? && f.requestRef == ref { BudgetGrows(Reservations(before, ref), f); }
    }
  }
}
