/** What an accepted view says, fact by fact: to whom every fact belongs, what it carries, and which facts must stand before it.
    Everything is stated over the facts and the state of the view. */
module AcceptedViews {
  import opened Evidence
  import opened ClientAuthority
  import opened Checker
  import CheckerSoundness
  import Numbering
  import Resolver

  // ---------------------------------------------------------------- one fact of a pass

  /** What the checker demanded of fact `i`, after the facts before it. */
  lemma PassAt(s: Subject, facts: seq<Fact>, i: nat)
    requires Fold(s, facts).Some? && i < |facts|
    ensures Fold(s, facts[..i]).Some?
    ensures var c, f := Fold(s, facts[..i]).value, facts[i];
            LogOk(s, c.log, f) && (f.kind.Runtime? ==> RuntimeOk(s, c.life, c.net, f)) &&
            (WorkFact(f) ==> WorkGateOk(s, NextLife(s, c.life, f), NextNet(c.net, f), f)) && CallsOk(s, c.calls, f) && AttachedOk(s, f)
  {
    hide LogOk, RuntimeOk, WorkGateOk, CallsOk, AttachedOk, Next, NextLife, NextNet;
    CheckerSoundness.FoldAt(s, facts, i);
  }

  lemma {:induction false} PrefixPasses(s: Subject, facts: seq<Fact>, n: nat)
    requires Fold(s, facts).Some? && n <= |facts|
    ensures Fold(s, facts[..n]).Some?
  {
    hide Fold;
    if n < |facts| { PassAt(s, facts, n); } else { assert facts[..n] == facts; }
  }

  lemma AcceptedPass(v: View, ref: string)
    requires Accepts(v, ref)
    ensures v.request.Some? && v.state.Some? && v.requestRef == ref && v.state.value.requestRef == ref && ValidIssuedState(v.state.value)
    ensures Fold(SubjectOf(v), v.facts).Some? && FinalOk(SubjectOf(v), v.facts, Fold(SubjectOf(v), v.facts).value)
  {
    hide ValidIssuedState, ValidClaimRequest, Fold, FinalOk, AuthorityWithinRequest;
  }

  /** The state of an accepted view is about its request, and its parts name each other. */
  lemma StateIsConsistent(v: View, ref: string)
    requires Accepts(v, ref)
    ensures v.version == VERSION && v.requestRef == ref && v.request.Some? && v.request.value.name == ref && v.state.Some? && v.state.value.requestRef == ref
    ensures var st, r := v.state.value, v.request.value;
            st.action.name.ClaimCreate? && st.action.project == r.projectRef && st.action.templateRef == r.templateRef &&
            st.decision.principalRef == st.principal.subject && st.decision.action == st.action.name && st.decision.policyRef == st.policyRef &&
            !Blank(st.principal.subject) && !Blank(st.principal.team) && !Blank(st.principal.context) &&
            st.evidence.requestRef == ref && st.decision.id in st.evidence.decisionIDs &&
            (st.decision.result.Allow? <==> st.claim.Some?) && (st.claim.Some? <==> st.authority.Some?)
    ensures v.state.value.claim.Some? ==>
              var st, claim, authority := v.state.value, v.state.value.claim.value, v.state.value.authority.value;
              claim.requestRef == ref && claim.templateRef == st.action.templateRef && claim.authorityRef == authority.id &&
              (st.evidence.claimID != "" ==> st.evidence.claimID == claim.id) && authority.runtime.timeout > 0 && 0 <= authority.runtime.maxModelCalls <= 1000 &&
              (claim.phase.Pending? ==> claim.identity.None?) && (claim.phase.Bound? || claim.phase.Running? || claim.phase.Succeeded? ==> claim.identity.Some?)
  {
    hide ValidClaimRequest, Blank, AuthorityWithinRequest, AcceptsFacts, ValidNetworkProfiles, ValidIdentity;
  }

  /** The request of an accepted view is a valid one: its lists name something, each value once, and its needs are within bounds. */
  lemma RequestIsValid(v: View, ref: string)
    requires Accepts(v, ref)
    ensures v.request.Some?
    ensures var r := v.request.value;
            r.envelopeValid && !Blank(r.name) && !Blank(r.templateRef) && !Blank(r.runtime.profileRef) && r.runtime.timeout > 0 &&
            (r.runtime.maxModelCalls.Some? ==> 1 <= r.runtime.maxModelCalls.value <= 1000) &&
            (forall list | list == r.access.tools || list == r.access.resources || list == r.access.memory ::
               (forall i | 0 <= i < |list| :: !Blank(list[i])) && forall i, j | 0 <= i < j < |list| :: list[i] != list[j]) &&
            |r.access.network| <= 1 && forall p | p in r.access.network :: p == PUBLIC_WEB
  {
    hide AcceptsFacts, Blank, ValidIssuedState, AuthorityWithinRequest;
  }

  /** What an accepted view grants was asked for; no dimension that was asked for was dropped. */
  lemma AuthorityIsRequested(v: View, ref: string)
    requires Accepts(v, ref) && v.state.value.authority.Some?
    ensures v.request.Some?
    ensures var g, a, r := v.state.value.authority.value, v.request.value.access, v.request.value.runtime;
            (forall x | x in g.tools :: x in a.tools) && (forall x | x in g.resources :: x in a.resources) && (forall x | x in g.memory :: x in a.memory) &&
            (forall x | x in g.network :: x in a.network) && g.model == a.model && g.runtime.profileRef == r.profileRef && g.runtime.timeout <= r.timeout &&
            (a.tools != [] ==> g.tools != []) && (a.resources != [] ==> g.resources != []) && (a.memory != [] ==> g.memory != []) &&
            (a.network != [] ==> g.network != [])
  {
    hide ValidClaimRequest, ValidIssuedState, AcceptsFacts;
  }

  // ---------------------------------------------------------------- order and admission

  /** The counters of a pass never fall. */
  lemma {:induction false} CountersGrow(s: Subject, facts: seq<Fact>, n: nat)
    requires Fold(s, facts).Some? && n <= |facts|
    ensures Fold(s, facts[..n]).Some?
    ensures var early, late := Fold(s, facts[..n]).value.log, Fold(s, facts).value.log;
            early.received <= late.received && early.resolutions <= late.resolutions && early.authorityResolved <= late.authorityResolved
    decreases |facts|
  {
    hide StepOk, NextLife, NextNet, NextCalls;
    if n == |facts| {
      assert facts[..n] == facts;
    } else {
      CountersGrow(s, facts[..|facts| - 1], n);
      assert facts[..|facts| - 1][..n] == facts[..n];
    }
  }

  lemma CountedAt(s: Subject, facts: seq<Fact>, i: nat)
    requires Fold(s, facts).Some? && i < |facts|
    ensures Fold(s, facts[..i]).Some? && LogOk(s, Fold(s, facts[..i]).value.log, facts[i])
    ensures var before, after, f := Fold(s, facts[..i]).value.log, Fold(s, facts).value.log, facts[i];
            (f.kind.RequestReceived? ==> before.received < after.received) && (f.kind.RequestResolution? ==> before.resolutions < after.resolutions) &&
            (f.kind.AuthorityResolved? ==> before.authorityResolved < after.authorityResolved)
  {
    hide StepOk, LogOk, NextLife, NextNet, NextCalls, Fold;
    PassAt(s, facts, i);
    CheckerSoundness.FoldAt(s, facts, i);
    FoldStep(s, facts, i);
    CountersGrow(s, facts, i + 1);
  }

  lemma {:induction false} LogStamped(s: Subject, facts: seq<Fact>)
    requires Fold(s, facts).Some?
    ensures Numbering.Stamped(facts)
    ensures Fold(s, facts).value.log.ids == Numbering.IDs(facts) && Fold(s, facts).value.log.lastSequence == Numbering.LastSequence(facts)
  {
    hide RuntimeOk, CallsOk, WorkGateOk, AttachedOk, NextLife, NextCalls, NextNet, AttributionOk, RunOutcomeOk, ReceivedOk, ResolutionOk, AuthorityOk;
    if facts != [] { LogStamped(s, facts[..|facts| - 1]); }
  }

  lemma {:induction false} StampedInOrder(facts: seq<Fact>, i: nat, j: nat)
    requires Numbering.Stamped(facts) && i < j < |facts|
    ensures facts[i].id != facts[j].id && facts[i].sequence < facts[j].sequence
    ensures facts[i].id in Numbering.IDs(facts[..j]) && facts[i].sequence <= Numbering.LastSequence(facts[..j])
    decreases |facts|, j - i
  {
    var n := |facts| - 1;
    if j < n {
      StampedInOrder(facts[..n], i, j);
      assert facts[..n][..j] == facts[..j];
    } else if i < n - 1 {
      StampedInOrder(facts[..n], i, n - 1);
      assert facts[..n][..n - 1] == facts[..n - 1];
    } else {
      assert facts[..n] != [];
    }
  }

  /** An accepted view begins with the receipt of its request and then its decision, each once; identities are distinct and positions
      increase. */
  lemma AdmissionComesFirst(v: View, ref: string)
    requires Accepts(v, ref)
    ensures |v.facts| >= 2 && v.facts[0].kind.RequestReceived? && v.facts[1].kind.RequestResolution?
    ensures forall i | 2 <= i < |v.facts| :: !v.facts[i].kind.RequestReceived? && !v.facts[i].kind.RequestResolution?
    ensures forall i, j | 0 <= i < j < |v.facts| :: v.facts[i].id != v.facts[j].id && v.facts[i].sequence < v.facts[j].sequence
  {
    hide StepOk, Next, LogOk, Fold, OutcomeOk, Accepts;
    AcceptedPass(v, ref);
    var s, facts := SubjectOf(v), v.facts;
    FirstIsReceived(s, facts);
    LogStamped(s, facts);
    forall i, j | 0 <= i < j < |facts| ensures facts[i].id != facts[j].id && facts[i].sequence < facts[j].sequence { StampedInOrder(facts, i, j); }
    forall i | 2 <= i < |facts| ensures !facts[i].kind.RequestReceived? && !facts[i].kind.RequestResolution? {
      CountedAt(s, facts, i);
      CountersGrow(s, facts[..i], 2);
      assert facts[..i][..2] == facts[..2];
    }
  }

  /** Whatever is accepted with one receipt and one decision begins with them. */
  lemma FirstIsReceived(s: Subject, facts: seq<Fact>)
    requires Fold(s, facts).Some? && Fold(s, facts).value.log.received == 1 && Fold(s, facts).value.log.resolutions == 1
    ensures |facts| >= 2 && facts[0].kind.RequestReceived? && facts[1].kind.RequestResolution?
    ensures Fold(s, facts[..2]).Some? && Fold(s, facts[..2]).value.log.received == 1 && Fold(s, facts[..2]).value.log.resolutions == 1
  {
    hide RuntimeOk, CallsOk, WorkGateOk, AttachedOk, NextLife, NextCalls, NextNet, AttributionOk, RunOutcomeOk, ReceivedOk, ResolutionOk, AuthorityOk;
    assert facts != [];
    CountedAt(s, facts, 0);
    assert facts[..0] == [];
    FoldStep(s, facts, 0);
    CountedAt(s, facts, 1);
    FoldStep(s, facts, 1);
    CountersGrow(s, facts, 2);
  }

  // ---------------------------------------------------------------- what a fact carries

  /** Every fact of an accepted view is about this request and its claim, and what is attached to it is what the state holds. */
  lemma FactBelongs(v: View, ref: string, i: nat)
    requires Accepts(v, ref) && i < |v.facts|
    ensures v.state.Some?
    ensures var f, st := v.facts[i], v.state.value;
            f.id != "" && f.timestamp != 0 && f.requestRef == ref && !f.kind.NoKind? && !f.kind.OtherKind? &&
            (f.claimID != "" || f.invocationID != "" || i >= 2 ==> st.claim.Some? && f.claimID == st.claim.value.id) &&
            (f.decision.Some? ==> f.decision.value == st.decision && (!f.result.NoResult? ==> f.result == st.decision.result)) &&
            (f.authority.Some? ==> f.authority == st.authority && st.claim.Some? && f.authority.value.id == st.claim.value.authorityRef) &&
            (f.policyRef.Some? ==> f.policyRef.value == st.policyRef) &&
            (f.identity.Some? ==> st.claim.Some? && f.identity == st.claim.value.identity) &&
            (!f.result.NoResult? ==> f.result.Allow? || f.result.Deny? || f.result.ApprovalRequired?) && 0 <= f.turn <= 1000
  {
    hide Accepts, RuntimeOk, WorkGateOk, ReservationOk, ModelDecisionOk, DecisionOk, WorkerOk, ProviderOk, Next, NextLife, NextNet, FinalOk, Fold;
    AcceptedPass(v, ref);
    if i >= 2 { AdmissionComesFirst(v, ref); }
    PassAt(SubjectOf(v), v.facts, i);
  }

  /** The fact is of no call and no worker. */
  predicate Plain(f: Fact) { f.invocationID == "" && f.identity.None? && f.operation.NoOp? && f.target == "" && f.status.NoStatus? }

  /** What the two admission facts and the record of the resolved authority carry. */
  lemma AdmissionCarries(v: View, ref: string, i: nat)
    requires Accepts(v, ref) && i < |v.facts|
    ensures v.state.Some? && v.request.Some?
    ensures var f, st := v.facts[i], v.state.value;
            (f.kind.RequestReceived? ==>
               Plain(f) && f.claimID == "" && f.decision.None? && f.result.NoResult? && f.authority.None? && f.policyRef.None? && f.changes == []) &&
            (f.kind.RequestResolution? ==>
               Plain(f) && f.claimID == "" && f.decision == Some(st.decision) && f.result == st.decision.result && f.policyRef == Some(st.policyRef) &&
               f.authority.None? && f.changes == []) &&
            (f.kind.AuthorityResolved? ==>
               Plain(f) && st.authority.Some? && f.authority == st.authority && f.policyRef == Some(st.policyRef) && f.decision.None? && f.result.NoResult?)
    ensures v.facts[i].kind.AuthorityResolved? ==>
              forall field: Field, value: string | field.Tools? || field.ResourceScopes? || field.MemoryScopes? || field.NetworkProfiles? ::
                Resolver.RecordsRemoval(v.facts[i].changes, field, value) <==>
                value in Resolver.DimensionOf(v.request.value, field) && value !in Resolver.GrantedOf(v.state.value.authority.value, field)
  {
    hide RuntimeOk, WorkGateOk, CallsOk, Next, NextLife, NextNet, FinalOk, Fold, ValidAuthorityChanges, ValidIssuedState, ValidClaimRequest, AuthorityWithinRequest,
         AttachedAuthorityOk, Resolver.RecordsRemoval, Resolver.DimensionOf, Resolver.GrantedOf;
    PassAt(SubjectOf(v), v.facts, i);
    var f := v.facts[i];
    if f.kind.AuthorityResolved? {
      forall field: Field, value: string | field.Tools? || field.ResourceScopes? || field.MemoryScopes? || field.NetworkProfiles?
        ensures Resolver.RecordsRemoval(f.changes, field, value) <==>
                value in Resolver.DimensionOf(v.request.value, field) && value !in Resolver.GrantedOf(v.state.value.authority.value, field)
      {
        Resolver.RequestSplits(v.request.value, v.state.value.authority.value, f.changes, field, value);
      }
    }
  }

  lemma {:induction false} ResolvedTraced(s: Subject, facts: seq<Fact>)
    requires Fold(s, facts).Some?
    ensures Fold(s, facts).value.log.authorityResolved <= 1
    ensures Fold(s, facts).value.log.authorityResolved == 1 <==> exists j | 0 <= j < |facts| :: facts[j].kind.AuthorityResolved?
  {
    hide RuntimeOk, CallsOk, WorkGateOk, AttachedOk, NextLife, NextCalls, NextNet, AttributionOk, RunOutcomeOk, ReceivedOk, ResolutionOk, EnvelopeOk, ValidAuthorityChanges;
    if facts != [] {
      var n := |facts| - 1;
      ResolvedTraced(s, facts[..n]);
      assert forall j | 0 <= j < n :: facts[..n][j] == facts[j];
    }
  }

  /** Authority is recorded once, and before every fact of the run and its work. */
  lemma AuthorityComesFirst(v: View, ref: string, i: nat)
    requires Accepts(v, ref) && i < |v.facts|
    ensures v.facts[i].kind.Runtime? || v.facts[i].kind.WorkerActivity? || v.facts[i].invocationID != "" ==>
              exists j | 0 <= j < i :: v.facts[j].kind.AuthorityResolved?
    ensures v.facts[i].kind.AuthorityResolved? ==> forall j | 0 <= j < i :: !v.facts[j].kind.AuthorityResolved?
  {
    hide Accepts, RuntimeOk, WorkGateOk, CallsOk, Next, NextLife, NextNet, FinalOk, Fold, AttachedOk, EnvelopeOk, ValidAuthorityChanges;
    AcceptedPass(v, ref);
    var s := SubjectOf(v);
    PassAt(s, v.facts, i);
    ResolvedTraced(s, v.facts[..i]);
    assert forall j | 0 <= j < i :: v.facts[..i][j] == v.facts[j];
  }

  // ---------------------------------------------------------------- the runtime facts

  predicate SeenTerminal(facts: seq<Fact>) {
    facts != [] && (SeenTerminal(facts[..|facts| - 1]) || (facts[|facts| - 1].kind.Runtime? && RuntimeTerminal(facts[|facts| - 1].operation)))
  }

  predicate SeenTermination(facts: seq<Fact>) { CheckerSoundness.Seen(facts, TerminateSucceeded) || CheckerSoundness.Seen(facts, TerminateFailed) }

  predicate SeenCleanup(facts: seq<Fact>) { CheckerSoundness.Seen(facts, CleanupSucceeded) || CheckerSoundness.Seen(facts, CleanupFailed) }

  /** The last revocation that was attempted has no recorded answer. */
  predicate Unanswered(facts: seq<Fact>) {
    facts != [] &&
    var f := facts[|facts| - 1];
    if f.kind.Runtime? && f.operation.NetworkRevocationAttempt? then true
    else if f.kind.Runtime? && (f.operation.NetworkRevoked? || f.operation.NetworkRevocationFailed?) then false
    else Unanswered(facts[..|facts| - 1])
  }

  /** The last recorded answer to a revocation confirmed it. */
  predicate Confirmed(facts: seq<Fact>) {
    facts != [] &&
    var f := facts[|facts| - 1];
    if f.kind.Runtime? && f.operation.NetworkRevoked? then true
    else if f.kind.Runtime? && f.operation.NetworkRevocationFailed? then false
    else Confirmed(facts[..|facts| - 1])
  }

  /** The operations of the runtime facts after Pending, in order. */
  function RuntimeEvents(facts: seq<Fact>): seq<Op> {
    if facts == [] then [] else
    var before, f := RuntimeEvents(facts[..|facts| - 1]), facts[|facts| - 1];
    if f.kind.Runtime? && !f.operation.Pending? then before + [f.operation] else before
  }

  /** The lifecycle of a cursor is what the facts say. */
  ghost predicate LifeTraced(facts: seq<Fact>, life: Life) {
    (life.pending <==> CheckerSoundness.Seen(facts, Op.Pending)) && (life.bound <==> CheckerSoundness.Seen(facts, Op.Bound)) &&
    (life.ready <==> CheckerSoundness.Seen(facts, BackendReady)) && (life.running <==> CheckerSoundness.Seen(facts, Op.Running)) &&
    (life.terminal <==> SeenTerminal(facts)) && (life.terminal ==> CheckerSoundness.Seen(facts, life.terminalOp) && RuntimeTerminal(life.terminalOp)) &&
    (life.terminated <==> SeenTermination(facts)) && (life.cleaned <==> SeenCleanup(facts)) && life.events == RuntimeEvents(facts)
  }

  lemma LifeGrows(s: Subject, facts: seq<Fact>, life: Life, net: Net)
    requires facts != [] && LifeTraced(facts[..|facts| - 1], life)
    requires var f := facts[|facts| - 1];
             (f.kind.Runtime? ==> RuntimeOk(s, life, net, f)) && (f.identity.Some? ==> s.state.claim.Some? && s.state.claim.value.identity == f.identity)
    ensures LifeTraced(facts, NextLife(s, life, facts[|facts| - 1]))
  {
    hide NetworkOk, ValidRuntimeOperation;
  }

  lemma {:induction false} PassLife(s: Subject, facts: seq<Fact>)
    requires Fold(s, facts).Some?
    ensures LifeTraced(facts, Fold(s, facts).value.life)
    ensures forall op | RuntimeTerminal(op) && CheckerSoundness.Seen(facts, op) :: SeenTerminal(facts) && Fold(s, facts).value.life.terminalOp == op
  {
    hide LogOk, RuntimeOk, CallsOk, WorkGateOk, NextLife, NextLog, NextCalls, NextNet, LifeTraced, AttachedDecisionOk, AttachedAuthorityOk, RuntimeTerminal;
    if facts == [] {
      NoLife();
    } else {
      var n := |facts| - 1;
      PassLife(s, facts[..n]);
      var c := Fold(s, facts[..n]).value;
      LifeGrows(s, facts, c.life, c.net);
      assert c.life.terminal <==> SeenTerminal(facts[..n]) by { TracedTerminal(facts[..n], c.life); }
      TerminalStays(s, facts, c.life, c.net);
    }
  }

  lemma TracedTerminal(facts: seq<Fact>, life: Life)
    requires LifeTraced(facts, life)
    ensures life.terminal <==> SeenTerminal(facts)
  {
  }

  lemma NoLife()
    ensures LifeTraced([], START.life)
  {
  }

  lemma OneTerminal(s: Subject, life: Life, net: Net, f: Fact)
    requires RuntimeOk(s, life, net, f)
    ensures RuntimeTerminal(f.operation) ==> !life.terminal
  {
    hide NetworkOk, ValidRuntimeOperation;
  }

  lemma NextTerminal(s: Subject, life: Life, f: Fact)
    ensures NextLife(s, life, f).terminalOp == if f.kind.Runtime? && RuntimeTerminal(f.operation) then f.operation else life.terminalOp
    ensures NextLife(s, life, f).terminal <==> life.terminal || (f.kind.Runtime? && RuntimeTerminal(f.operation))
  {
  }

  lemma TerminalStays(s: Subject, facts: seq<Fact>, life: Life, net: Net)
    requires facts != [] && (life.terminal <==> SeenTerminal(facts[..|facts| - 1]))
    requires facts[|facts| - 1].kind.Runtime? ==> RuntimeOk(s, life, net, facts[|facts| - 1])
    requires forall op | RuntimeTerminal(op) && CheckerSoundness.Seen(facts[..|facts| - 1], op) :: SeenTerminal(facts[..|facts| - 1]) && life.terminalOp == op
    ensures forall op | RuntimeTerminal(op) && CheckerSoundness.Seen(facts, op) ::
              SeenTerminal(facts) && NextLife(s, life, facts[|facts| - 1]).terminalOp == op
  {
    hide RuntimeOk, NextLife, RuntimeTerminal;
    var f := facts[|facts| - 1];
    NextTerminal(s, life, f);
    if f.kind.Runtime? { OneTerminal(s, life, net, f); }
  }

  lemma RuntimeAt(v: View, ref: string, i: nat)
    requires Accepts(v, ref) && i < |v.facts|
    ensures v.request.Some? && v.state.Some? && Fold(SubjectOf(v), v.facts[..i]).Some?
    ensures var s, f := SubjectOf(v), v.facts[i];
            var c := Fold(s, v.facts[..i]).value;
            LifeTraced(v.facts[..i], c.life) && (f.kind.Runtime? ==> RuntimeOk(s, c.life, c.net, f))
  {
    hide Accepts, RuntimeOk, LogOk, WorkGateOk, CallsOk, AttachedOk, Next, NextLife, NextNet, FinalOk, Fold, LifeTraced, RuntimeTerminal;
    AcceptedPass(v, ref);
    PassAt(SubjectOf(v), v.facts, i);
    PassLife(SubjectOf(v), v.facts[..i]);
  }

  /** A runtime fact of an accepted view fits the claim the state shows: only the operation that made the claim's phase ends it, and a
      claim without a worker has no facts of one. */
  lemma RuntimeFitsClaim(v: View, ref: string, i: nat)
    requires Accepts(v, ref) && i < |v.facts| && v.facts[i].kind.Runtime?
    ensures v.state.Some? && v.state.value.claim.Some?
    ensures var op, claim := v.facts[i].operation, v.state.value.claim.value;
            (op.Succeeded? ==> claim.phase.Succeeded? && claim.identity.Some?) && (op.Expired? ==> claim.phase.Expired?) &&
            (op.AllocationFailed? ==> claim.phase.Failed? && claim.identity.None?) && (op.Cancelled? ==> claim.phase.Failed?) &&
            (op.StartFailed? || op.NetworkActivationFailed? || op.Failed? ==> claim.phase.Failed? && claim.identity.Some?) &&
            (claim.identity.None? ==> op.Pending? || op.AllocationFailed? || op.Expired? || op.Cancelled?)
  {
    hide Accepts, NetworkOk, Next, NextLife, NextNet, CallsOk, WorkGateOk, AttachedOk, EnvelopeOk, RunOutcomeOk, ReceivedOk, ResolutionOk, AuthorityOk, FinalOk, Fold;
    AcceptedPass(v, ref);
    PassAt(SubjectOf(v), v.facts, i);
  }

  /** The lifecycle of an accepted view, fact by fact: what must have been recorded before each operation, and what must not. */
  lemma RuntimeInOrder(v: View, ref: string, i: nat)
    requires Accepts(v, ref) && i < |v.facts| && v.facts[i].kind.Runtime?
    ensures var op, before := v.facts[i].operation, v.facts[..i];
            (op.Pending? ==> !CheckerSoundness.Seen(before, Op.Pending) && !CheckerSoundness.Seen(before, Op.Bound)) &&
            (op.Bound? ==> v.facts[i].identity.Some? && !CheckerSoundness.Seen(before, Op.Bound)) &&
            (op.BackendReady? ==> CheckerSoundness.Seen(before, Op.Bound) && !CheckerSoundness.Seen(before, BackendReady)) &&
            (op.Running? ==> CheckerSoundness.Seen(before, BackendReady) && !CheckerSoundness.Seen(before, Op.Running)) &&
            (op.Succeeded? || op.NetworkActivationFailed? ==> CheckerSoundness.Seen(before, Op.Running)) &&
            (op.StartFailed? ==> CheckerSoundness.Seen(before, BackendReady) && !CheckerSoundness.Seen(before, Op.Running)) &&
            (op.AllocationFailed? ==> CheckerSoundness.Seen(before, Op.Pending) && !CheckerSoundness.Seen(before, Op.Bound)) &&
            (op.Failed? ==> CheckerSoundness.Seen(before, Op.Bound)) &&
            (op.Expired? || op.Cancelled? ==> CheckerSoundness.Seen(before, Op.Bound) || CheckerSoundness.Seen(before, Op.Pending)) &&
            (op.TerminateSucceeded? || op.TerminateFailed? ==> SeenTerminal(before) && !SeenTermination(before) && !SeenCleanup(before)) &&
            (op.CleanupSucceeded? || op.CleanupFailed? ==> SeenTermination(before) && !SeenCleanup(before)) &&
            (SeenTerminal(before) ==>
               op.TerminateSucceeded? || op.TerminateFailed? || op.CleanupSucceeded? || op.CleanupFailed? ||
               op.NetworkRevocationAttempt? || op.NetworkRevoked? || op.NetworkRevocationFailed?)
  {
    hide Accepts, NetworkOk, Fold, Next, NextLife, NextNet, SeenTerminal, SeenTermination, SeenCleanup, CheckerSoundness.Seen;
    RuntimeAt(v, ref, i);
  }

  /** The runtime operations of an accepted view are the ones its state lists. */
  lemma EventsAreRecorded(v: View, ref: string)
    requires Accepts(v, ref)
    ensures v.state.Some? && v.state.value.evidence.events == RuntimeEvents(v.facts)
  {
    hide Accepts, Fold, OutcomeOk, Next, NextLife, RuntimeTerminal;
    AcceptedPass(v, ref);
    PassLife(SubjectOf(v), v.facts);
  }

  // ---------------------------------------------------------------- the network

  /** The network flags of a cursor are what the facts say. */
  predicate NetTraced(facts: seq<Fact>, net: Net) {
    (net.activationRecorded <==> CheckerSoundness.Seen(facts, NetworkActivationAttempt)) && (net.active <==> CheckerSoundness.Seen(facts, NetworkActive)) &&
    (net.activationPending <==>
       CheckerSoundness.Seen(facts, NetworkActivationAttempt) && !CheckerSoundness.Seen(facts, NetworkActive) && !CheckerSoundness.Seen(facts, NetworkActivationFailed)) &&
    (net.releaseStarted <==> CheckerSoundness.Seen(facts, NetworkRevocationAttempt)) && (net.releasePending <==> Unanswered(facts)) &&
    (net.released <==> Confirmed(facts))
  }

  lemma NetworkMoves(s: Subject, life: Life, net: Net, f: Fact)
    requires f.kind.Runtime? && RuntimeOk(s, life, net, f)
    ensures f.operation.NetworkActivationAttempt? ==> life.running && !net.activationRecorded && !net.releaseStarted
    ensures f.operation.NetworkActive? || f.operation.NetworkActivationFailed? ==> net.activationPending && !net.releaseStarted
    ensures f.operation.NetworkRevoked? || f.operation.NetworkRevocationFailed? ==> net.releasePending
    ensures f.operation.NetworkRevocationAttempt? && (net.releasePending || net.released) ==> f.code == RecoveryCode(f.operation)
    ensures f.operation.Succeeded? && RequiresNetwork(s) ==> net.active
  {
    hide ValidNetworkFact, ValidRuntimeOperation;
  }

  lemma NetGrows(s: Subject, facts: seq<Fact>, life: Life, net: Net)
    requires facts != [] && NetTraced(facts[..|facts| - 1], net)
    requires facts[|facts| - 1].kind.Runtime? ==> RuntimeOk(s, life, net, facts[|facts| - 1])
    requires CheckerSoundness.Seen(facts[..|facts| - 1], NetworkActive) || CheckerSoundness.Seen(facts[..|facts| - 1], NetworkActivationFailed) ==> net.activationRecorded
    ensures NetTraced(facts, NextNet(net, facts[|facts| - 1]))
    ensures CheckerSoundness.Seen(facts, NetworkActive) || CheckerSoundness.Seen(facts, NetworkActivationFailed) ==> NextNet(net, facts[|facts| - 1]).activationRecorded
  {
    hide RuntimeOk;
    var f := facts[|facts| - 1];
    if f.kind.Runtime? { NetworkMoves(s, life, net, f); }
  }

  lemma {:induction false} PassNet(s: Subject, facts: seq<Fact>)
    requires Fold(s, facts).Some?
    ensures var net := Fold(s, facts).value.net;
            NetTraced(facts, net) &&
            (CheckerSoundness.Seen(facts, NetworkActive) || CheckerSoundness.Seen(facts, NetworkActivationFailed) ==> net.activationRecorded)
  {
    hide LogOk, RuntimeOk, CallsOk, WorkGateOk, AttachedOk, NextLife, NextLog, NextCalls, NextNet, NetTraced;
    if facts == [] {
      assert NetTraced([], START.net) by { NoNet(); }
    } else {
      var n := |facts| - 1;
      PassNet(s, facts[..n]);
      var c := Fold(s, facts[..n]).value;
      NetGrows(s, facts, c.life, c.net);
    }
  }

  lemma NoNet()
    ensures NetTraced([], START.net)
  {
  }

  /** The network facts of an accepted view are of its own worker, and come in order: one activation is attempted while the work runs and
      before any release, it is answered once, and a release is answered only while it is asked for. A success under a network grant was
      activated. */
  lemma NetworkInOrder(v: View, ref: string, i: nat)
    requires Accepts(v, ref) && i < |v.facts| && v.facts[i].kind.Runtime?
    ensures v.state.Some?
    ensures var f, st, before := v.facts[i], v.state.value, v.facts[..i];
            var op := f.operation;
            (op.NetworkActivationAttempt? ==>
               CheckerSoundness.Seen(before, Op.Running) && !CheckerSoundness.Seen(before, NetworkActivationAttempt) &&
               !CheckerSoundness.Seen(before, NetworkRevocationAttempt)) &&
            (op.NetworkActive? || op.NetworkActivationFailed? ==>
               CheckerSoundness.Seen(before, NetworkActivationAttempt) && !CheckerSoundness.Seen(before, NetworkActive) &&
               !CheckerSoundness.Seen(before, NetworkActivationFailed) && !CheckerSoundness.Seen(before, NetworkRevocationAttempt)) &&
            (op.NetworkRevoked? || op.NetworkRevocationFailed? ==> Unanswered(before)) &&
            (op.NetworkRevocationAttempt? && (Unanswered(before) || Confirmed(before)) ==> f.code == RecoveryCode(op)) &&
            (op.Succeeded? && st.authority.Some? && st.authority.value.network != [] ==> CheckerSoundness.Seen(before, NetworkActive))
    ensures var f, st := v.facts[i], v.state.value;
            NetworkOp(f.operation) ==>
              st.claim.Some? && f.identity.Some? && f.identity == st.claim.value.identity && f.policyRef == Some(st.policyRef) && f.target == "work-network" &&
              f.invocationID == "" && f.decision.None? && f.result.NoResult? && f.authority.None? && f.changes == [] && f.status.NoStatus? &&
              PlainReason(f.reason) && CheckerSoundness.Seen(v.facts[..i], Op.Bound) &&
              (f.code == RuntimeCode(f.operation) || (NetworkRevocation(f.operation) && f.code == RecoveryCode(f.operation))) &&
              (SeenTermination(v.facts[..i]) ==> f.code == RecoveryCode(f.operation))
  {
    hide Accepts, Fold, Next, NextLife, NextNet, RuntimeOk, LogOk, CallsOk, WorkGateOk, AttachedOk, FinalOk, CheckerSoundness.Seen, Unanswered, Confirmed, SeenTerminal,
         SeenTermination, SeenCleanup, NetworkOp, NetworkRevocation, PlainReason;
    AcceptedPass(v, ref);
    var s := SubjectOf(v);
    RuntimeAt(v, ref, i);
    PassNet(s, v.facts[..i]);
    var c := Fold(s, v.facts[..i]).value;
    NetworkMoves(s, c.life, c.net, v.facts[i]);
    if NetworkOp(v.facts[i].operation) { NetworkFactOf(s, c.life, c.net, v.facts[i]); }
  }

  lemma NetworkFactOf(s: Subject, life: Life, net: Net, f: Fact)
    requires f.kind.Runtime? && RuntimeOk(s, life, net, f) && NetworkOp(f.operation)
    ensures s.state.claim.Some? && f.identity.Some? && f.identity == s.state.claim.value.identity && f.policyRef == Some(s.state.policyRef)
    ensures f.target == "work-network" && f.invocationID == "" && f.decision.None? && f.result.NoResult? && f.authority.None? && f.changes == [] &&
            f.status.NoStatus? && PlainReason(f.reason) && life.bound
    ensures f.code == RuntimeCode(f.operation) || (NetworkRevocation(f.operation) && f.code == RecoveryCode(f.operation))
    ensures life.terminated ==> f.code == RecoveryCode(f.operation)
  {
    hide ValidRuntimeOperation, PlainReason;
  }

  // ---------------------------------------------------------------- work in time

  /** Worker facts and calls of an accepted view are recorded while the work runs, and not while an activation is undecided. Once the run has ended, only the outcomes of calls that
      an expiry or a cancellation cut off may follow. */
  lemma WorkIsTimely(v: View, ref: string, i: nat)
    requires Accepts(v, ref) && i < |v.facts| && (v.facts[i].kind.WorkerActivity? || v.facts[i].invocationID != "")
    ensures CheckerSoundness.Seen(v.facts[..i + 1], Op.Running)
    ensures CheckerSoundness.Seen(v.facts[..i + 1], NetworkActivationAttempt) ==>
              CheckerSoundness.Seen(v.facts[..i + 1], NetworkActive) || CheckerSoundness.Seen(v.facts[..i + 1], NetworkRevocationAttempt)
    ensures forall op | RuntimeTerminal(op) && CheckerSoundness.Seen(v.facts[..i + 1], op) ::
              v.facts[i].kind.ProviderOutcome? && v.facts[i].status.Cancelled? && (op.Cancelled? || op.Expired?)
  {
    hide Accepts, Fold, RuntimeOk, LogOk, CallsOk, AttachedOk, FinalOk, CheckerSoundness.Seen, RuntimeTerminal, NextLife, NextNet, NextCalls, NextLog, SeenTerminal,
         SeenTermination, SeenCleanup;
    AcceptedPass(v, ref);
    var s := SubjectOf(v);
    PassAt(s, v.facts, i);
    CheckerSoundness.FoldAt(s, v.facts, i);
    FoldStep(s, v.facts, i);
    PassLife(s, v.facts[..i + 1]);
    PassNet(s, v.facts[..i + 1]);
  }

  // ---------------------------------------------------------------- governed calls

  predicate Decides(f: Fact) { f.kind.ModelDecision? || f.kind.ToolDecision? }

  /** Some fact decides the invocation. */
  predicate DecidedIn(facts: seq<Fact>, id: string) {
    facts != [] && var f := facts[|facts| - 1]; (Decides(f) && f.invocationID == id) || DecidedIn(facts[..|facts| - 1], id)
  }

  /** Some fact decides the invocation as the cursor remembers it. */
  predicate DecidedAs(facts: seq<Fact>, id: string, operation: Op, target: string, allowed: bool) {
    facts != [] &&
    var f := facts[|facts| - 1];
    (Decides(f) && f.invocationID == id && f.operation == operation && f.target == target && f.result.Allow? == allowed) ||
    DecidedAs(facts[..|facts| - 1], id, operation, target, allowed)
  }

  predicate AttemptedIn(facts: seq<Fact>, id: string) {
    facts != [] && var f := facts[|facts| - 1]; (f.kind.ProviderAttempt? && f.invocationID == id) || AttemptedIn(facts[..|facts| - 1], id)
  }

  predicate AttemptedAs(facts: seq<Fact>, id: string, target: string) {
    facts != [] &&
    var f := facts[|facts| - 1]; (f.kind.ProviderAttempt? && f.invocationID == id && f.target == target) || AttemptedAs(facts[..|facts| - 1], id, target)
  }

  predicate AnsweredIn(facts: seq<Fact>, id: string) {
    facts != [] && var f := facts[|facts| - 1]; (f.kind.ProviderOutcome? && f.invocationID == id) || AnsweredIn(facts[..|facts| - 1], id)
  }

  predicate AnsweredAs(facts: seq<Fact>, id: string, status: Status) {
    facts != [] &&
    var f := facts[|facts| - 1]; (f.kind.ProviderOutcome? && f.invocationID == id && f.status == status) || AnsweredAs(facts[..|facts| - 1], id, status)
  }

  /** What the cursor remembers of one invocation is what the facts say. */
  predicate CallTraced(facts: seq<Fact>, stages: map<string, Invocation>, id: string) {
    if id !in stages then !DecidedIn(facts, id) && !AttemptedIn(facts, id) && !AnsweredIn(facts, id)
    else
      var p := stages[id];
      DecidedIn(facts, id) && DecidedAs(facts, id, p.operation, p.target, p.stage >= 1) && (p.stage >= 2 <==> AttemptedIn(facts, id)) &&
      (p.stage >= 2 ==> AttemptedAs(facts, id, p.providerTarget)) && (p.stage >= 3 <==> AnsweredIn(facts, id)) &&
      (p.stage >= 3 ==> AnsweredAs(facts, id, p.status))
  }

  /** One more fact changes what is remembered of its own invocation only. */
  lemma CallStep(s: Subject, calls: Calls, f: Fact, id: string)
    requires CallsOk(s, calls, f)
    ensures var now := NextCalls(calls, f).stages;
            if f.invocationID != id || !(Decides(f) || f.kind.ProviderAttempt? || f.kind.ProviderOutcome? || f.kind.WorkerActivity?) || id == ""
            then (id in now <==> id in calls.stages) && (id in now ==> now[id] == calls.stages[id])
            else if Decides(f) then id !in calls.stages && id in now && now[id] == Invocation(f.operation, f.target, "", NoStatus, if f.result.Allow? then 1 else 0)
            else
              id in calls.stages && id in now &&
              var p := calls.stages[id];
              if f.kind.ProviderAttempt? then p.stage == 1 && now[id] == p.(providerTarget := f.target, stage := 2)
              else if f.kind.ProviderOutcome? then p.stage == 2 && now[id] == p.(status := f.status, stage := 3)
              else p.stage == 3 && now[id] == p.(stage := 4)
  {
    hide ActionOk, ReservationOk, ModelDecisionOk;
  }

  lemma {:induction false} CallGrows(s: Subject, facts: seq<Fact>, calls: Calls, id: string)
    requires facts != [] && id != "" && CallTraced(facts[..|facts| - 1], calls.stages, id) && CallsOk(s, calls, facts[|facts| - 1])
    ensures CallTraced(facts, NextCalls(calls, facts[|facts| - 1]).stages, id)
  {
    hide CallsOk, NextCalls;
    var n := |facts| - 1;
    var f := facts[n];
    CallStep(s, calls, f, id);
  }

  lemma {:induction false} PassCalls(s: Subject, facts: seq<Fact>, id: string)
    requires Fold(s, facts).Some? && id != ""
    ensures CallTraced(facts, Fold(s, facts).value.calls.stages, id)
  {
    hide LogOk, RuntimeOk, CallsOk, WorkGateOk, AttachedOk, NextLife, NextLog, NextCalls, NextNet, CallTraced;
    if facts == [] {
      assert CallTraced([], map[], id) by { NoCalls(id); }
    } else {
      var n := |facts| - 1;
      PassCalls(s, facts[..n], id);
      CallGrows(s, facts, Fold(s, facts[..n]).value.calls, id);
    }
  }

  lemma NoCalls(id: string)
    ensures CallTraced([], map[], id)
  {
  }

  lemma {:induction false} DecisionFact(facts: seq<Fact>, id: string, operation: Op, target: string, allowed: bool)
    requires DecidedAs(facts, id, operation, target, allowed)
    ensures exists j | 0 <= j < |facts| ::
              Decides(facts[j]) && facts[j].invocationID == id && facts[j].operation == operation && facts[j].target == target && facts[j].result.Allow? == allowed
  {
    var n := |facts| - 1;
    if DecidedAs(facts[..n], id, operation, target, allowed) {
      DecisionFact(facts[..n], id, operation, target, allowed);
      var j :| 0 <= j < n && Decides(facts[..n][j]) && facts[..n][j].invocationID == id && facts[..n][j].operation == operation &&
               facts[..n][j].target == target && facts[..n][j].result.Allow? == allowed;
      assert Decides(facts[j]);
    } else {
      assert Decides(facts[n]);
    }
  }

  lemma {:induction false} AttemptFact(facts: seq<Fact>, id: string, target: string)
    requires AttemptedAs(facts, id, target)
    ensures exists j | 0 <= j < |facts| :: facts[j].kind.ProviderAttempt? && facts[j].invocationID == id && facts[j].target == target
  {
    var n := |facts| - 1;
    if AttemptedAs(facts[..n], id, target) {
      AttemptFact(facts[..n], id, target);
      var j :| 0 <= j < n && facts[..n][j].kind.ProviderAttempt? && facts[..n][j].invocationID == id && facts[..n][j].target == target;
      assert facts[j].kind.ProviderAttempt?;
    } else {
      assert facts[n].kind.ProviderAttempt?;
    }
  }

  lemma {:induction false} AnswerFact(facts: seq<Fact>, id: string, status: Status)
    requires AnsweredAs(facts, id, status)
    ensures exists j | 0 <= j < |facts| :: facts[j].kind.ProviderOutcome? && facts[j].invocationID == id && facts[j].status == status
  {
    var n := |facts| - 1;
    if AnsweredAs(facts[..n], id, status) {
      AnswerFact(facts[..n], id, status);
      var j :| 0 <= j < n && facts[..n][j].kind.ProviderOutcome? && facts[..n][j].invocationID == id && facts[..n][j].status == status;
      assert facts[j].kind.ProviderOutcome?;
    } else {
      assert facts[n].kind.ProviderOutcome?;
    }
  }

  lemma {:induction false} NoneBefore(facts: seq<Fact>, id: string)
    ensures !DecidedIn(facts, id) ==> forall j | 0 <= j < |facts| && Decides(facts[j]) :: facts[j].invocationID != id
    ensures !AttemptedIn(facts, id) ==> forall j | 0 <= j < |facts| && facts[j].kind.ProviderAttempt? :: facts[j].invocationID != id
    ensures !AnsweredIn(facts, id) ==> forall j | 0 <= j < |facts| && facts[j].kind.ProviderOutcome? :: facts[j].invocationID != id
  {
    if facts != [] {
      var n := |facts| - 1;
      NoneBefore(facts[..n], id);
      assert forall j | 0 <= j < n :: facts[..n][j] == facts[j];
    }
  }

  /** What is allowed in an accepted view was granted: every allowed tool is one of the authority's, every allowed model is its model.
      Every decision is of its own invocation, under the policy of the state. */
  lemma DecisionsAreGranted(v: View, ref: string, i: nat)
    requires Accepts(v, ref) && i < |v.facts|
    ensures v.state.Some?
    ensures var f, authority := v.facts[i], v.state.value.authority;
            (f.kind.ToolDecision? && f.result.Allow? ==> authority.Some? && f.target in authority.value.tools) &&
            (f.kind.ModelDecision? && f.result.Allow? ==> authority.Some? && f.target == authority.value.model && f.target != "")
    ensures var f := v.facts[i];
            f.kind.ToolDecision? || f.kind.ModelDecision? ==>
              f.invocationID != "" && f.operation == (if f.kind.ToolDecision? then ToolInvoke else ModelInvoke) && f.policyRef == Some(v.state.value.policyRef) &&
              (f.result.Allow? || f.result.Deny? || f.result.ApprovalRequired?) &&
              forall j | 0 <= j < i && (v.facts[j].kind.ToolDecision? || v.facts[j].kind.ModelDecision?) :: v.facts[j].invocationID != f.invocationID
  {
    hide Accepts, Fold, LogOk, RuntimeOk, WorkGateOk, AttachedOk, NextLife, NextNet, FinalOk, ActionOk, ReservationOk, CallTraced;
    AcceptedPass(v, ref);
    var s, f := SubjectOf(v), v.facts[i];
    PassAt(s, v.facts, i);
    if Decides(f) {
      PassCalls(s, v.facts[..i], f.invocationID);
      NoneBefore(v.facts[..i], f.invocationID);
      assert !DecidedIn(v.facts[..i], f.invocationID) by { NotYetDecided(v.facts[..i], Fold(s, v.facts[..i]).value.calls.stages, f.invocationID); }
      assert forall j | 0 <= j < i :: v.facts[..i][j] == v.facts[j];
    }
  }

  lemma NotYetDecided(facts: seq<Fact>, stages: map<string, Invocation>, id: string)
    requires CallTraced(facts, stages, id) && id !in stages
    ensures !DecidedIn(facts, id)
  {
  }

  lemma ProviderStep(s: Subject, facts: seq<Fact>, calls: Calls, f: Fact)
    requires CallsOk(s, calls, f) && (f.kind.ProviderAttempt? || f.kind.ProviderOutcome?) && CallTraced(facts, calls.stages, f.invocationID)
    ensures f.invocationID != ""
    ensures f.kind.ProviderAttempt? ==>
              f.status.Attempted? && f.target != "" && !AttemptedIn(facts, f.invocationID) &&
              exists target :: DecidedAs(facts, f.invocationID, f.operation, target, true) && (f.operation.ModelInvoke? ==> target == f.target)
    ensures f.kind.ProviderOutcome? ==>
              (f.status.Succeeded? || f.status.Failed? || f.status.Cancelled?) && !AnsweredIn(facts, f.invocationID) &&
              AttemptedAs(facts, f.invocationID, f.target)
  {
    hide ActionOk, DecidedIn, AttemptedIn, AnsweredIn, DecidedAs, AttemptedAs, AnsweredAs;
    var p := calls.stages[f.invocationID];
    if f.kind.ProviderAttempt? { assert DecidedAs(facts, f.invocationID, f.operation, p.target, true); }
  }

  /** The calls of an accepted view, fact by fact: an attempt follows an Allow decision of its own invocation for the same operation and,
      for a model, the same target; an outcome follows an attempt of its own at the same target; neither comes twice. */
  lemma CallsInOrder(v: View, ref: string, i: nat)
    requires Accepts(v, ref) && i < |v.facts|
    ensures var f := v.facts[i];
            f.kind.ProviderAttempt? ==>
              f.status.Attempted? && (forall j | 0 <= j < i && v.facts[j].kind.ProviderAttempt? :: v.facts[j].invocationID != f.invocationID) &&
              exists j | 0 <= j < i ::
                (v.facts[j].kind.ToolDecision? || v.facts[j].kind.ModelDecision?) && v.facts[j].invocationID == f.invocationID && v.facts[j].result.Allow? &&
                v.facts[j].operation == f.operation && (f.operation.ModelInvoke? ==> v.facts[j].target == f.target)
    ensures var f := v.facts[i];
            f.kind.ProviderOutcome? ==>
              (f.status.Succeeded? || f.status.Failed? || f.status.Cancelled?) &&
              (forall j | 0 <= j < i && v.facts[j].kind.ProviderOutcome? :: v.facts[j].invocationID != f.invocationID) &&
              exists j | 0 <= j < i :: v.facts[j].kind.ProviderAttempt? && v.facts[j].invocationID == f.invocationID && v.facts[j].target == f.target
  {
    hide Accepts, Fold, LogOk, RuntimeOk, WorkGateOk, AttachedOk, CallsOk, NextLife, NextNet, FinalOk, CallTraced, DecidedIn, AttemptedIn, AnsweredIn, DecidedAs, AttemptedAs;
    AcceptedPass(v, ref);
    var s, f, before := SubjectOf(v), v.facts[i], v.facts[..i];
    PassAt(s, v.facts, i);
    if f.kind.ProviderAttempt? || f.kind.ProviderOutcome? {
      assert CallTraced(before, Fold(s, before).value.calls.stages, f.invocationID) by { ProviderIsNamed(s, before, f); }
      ProviderStep(s, before, Fold(s, before).value.calls, f);
      NoneBefore(before, f.invocationID);
      assert forall j | 0 <= j < i :: before[j] == v.facts[j];
      if f.kind.ProviderAttempt? {
        var target :| DecidedAs(before, f.invocationID, f.operation, target, true) && (f.operation.ModelInvoke? ==> target == f.target);
        DecisionFact(before, f.invocationID, f.operation, target, true);
      } else {
        AttemptFact(before, f.invocationID, f.target);
      }
    }
  }

  lemma ProviderIsNamed(s: Subject, facts: seq<Fact>, f: Fact)
    requires Fold(s, facts).Some? && CallsOk(s, Fold(s, facts).value.calls, f) && (f.kind.ProviderAttempt? || f.kind.ProviderOutcome?)
    ensures CallTraced(facts, Fold(s, facts).value.calls.stages, f.invocationID)
  {
    hide Fold, CallTraced, ActionOk;
    PassCalls(s, facts, f.invocationID);
  }

  // ---------------------------------------------------------------- what the worker says

  ghost predicate ActionsTraced(facts: seq<Fact>, actions: map<string, Fact>) {
    forall k | k in actions :: actions[k].id == k && actions[k] in facts && DeclaresAction(actions[k])
  }

  lemma {:induction false} PassActions(s: Subject, facts: seq<Fact>)
    requires Fold(s, facts).Some?
    ensures ActionsTraced(facts, Fold(s, facts).value.calls.actions)
  {
    hide StepOk, NextLife, NextLog, NextStages, NextNet, DeclaresAction;
    if facts != [] {
      var n := |facts| - 1;
      PassActions(s, facts[..n]);
      assert facts == facts[..n] + [facts[n]];
    }
  }

  lemma ValidatedStep(s: Subject, facts: seq<Fact>, calls: Calls, f: Fact)
    requires CallsOk(s, calls, f) && f.kind.WorkerActivity? && (f.invocationID != "" ==> CallTraced(facts, calls.stages, f.invocationID))
    ensures f.operation.ActionValidated? <==> f.invocationID != ""
    ensures f.operation.ToolRequestRejected? ==> f.target == "tool.invoke" && f.code.ToolArgumentsRejected? && f.policyRef.None? && f.identity.None?
    ensures f.operation.TurnStarted? || f.operation.ActionReceived? || f.operation.ActionValidated? || f.operation.ObservationReceived? ||
            f.operation.ToolRequestRejected? || f.operation.FinalAnswer? || f.operation.AgentFeedback? || f.operation.NativeAttempt? || f.operation.NativeObservation?
    ensures f.operation.ActionValidated? ==> AnsweredAs(facts, f.invocationID, Status.Succeeded) && exists target :: DecidedAs(facts, f.invocationID, ModelInvoke, target, true)
  {
    hide ActionOk, DecidedIn, AttemptedIn, AnsweredIn, DecidedAs, AttemptedAs, AnsweredAs;
    if f.operation.ActionValidated? { assert DecidedAs(facts, f.invocationID, ModelInvoke, calls.stages[f.invocationID].target, true); }
  }

  /** The worker's facts of an accepted view: a validated action follows the successful answer of the model call it names, and no other
      worker fact names a call. */
  lemma ActionsFollowAnswers(v: View, ref: string, i: nat)
    requires Accepts(v, ref) && i < |v.facts| && v.facts[i].kind.WorkerActivity?
    ensures v.facts[i].operation.ActionValidated? <==> v.facts[i].invocationID != ""
    ensures var op := v.facts[i].operation;
            op.TurnStarted? || op.ActionReceived? || op.ActionValidated? || op.ObservationReceived? || op.ToolRequestRejected? || op.FinalAnswer? ||
            op.AgentFeedback? || op.NativeAttempt? || op.NativeObservation?
    ensures v.facts[i].operation.ToolRequestRejected? ==> v.facts[i].target == "tool.invoke" && v.facts[i].code.ToolArgumentsRejected?
    ensures v.facts[i].operation.ActionValidated? ==>
              (exists j | 0 <= j < i ::
                 v.facts[j].kind.ProviderOutcome? && v.facts[j].invocationID == v.facts[i].invocationID && v.facts[j].status.Succeeded?) &&
              exists j | 0 <= j < i ::
                v.facts[j].kind.ModelDecision? && v.facts[j].invocationID == v.facts[i].invocationID && v.facts[j].result.Allow?
  {
    hide Accepts, Fold, LogOk, RuntimeOk, WorkGateOk, AttachedOk, CallsOk, NextLife, NextNet, FinalOk, CallTraced, DecidedIn, AttemptedIn, AnsweredIn, DecidedAs, AttemptedAs,
         AnsweredAs;
    AcceptedPass(v, ref);
    var s, f, before := SubjectOf(v), v.facts[i], v.facts[..i];
    PassAt(s, v.facts, i);
    if f.invocationID != "" { PassCalls(s, before, f.invocationID); }
    ValidatedStep(s, before, Fold(s, before).value.calls, f);
    if f.operation.ActionValidated? {
      AnswerFact(before, f.invocationID, Status.Succeeded);
      var target :| DecidedAs(before, f.invocationID, ModelInvoke, target, true);
      DecisionFact(before, f.invocationID, ModelInvoke, target, true);
      var j :| 0 <= j < |before| && Decides(before[j]) && before[j].invocationID == f.invocationID && before[j].operation == ModelInvoke && before[j].result.Allow?;
      assert v.facts[j] == before[j];
      DecisionsAreGranted(v, ref, j);
    }
  }

  /** Only a validated action declares what the agent chose: a tool with its resource, or an end without either, within bounds. */
  lemma DeclarationsAreBounded(v: View, ref: string, i: nat)
    requires Accepts(v, ref) && i < |v.facts| && (!v.facts[i].actionKind.NoAction? || v.facts[i].actionTool != "" || v.facts[i].actionResource != "")
    ensures var f := v.facts[i];
            f.kind.WorkerActivity? && f.operation.ActionValidated? && 1 <= f.turn <= 1000 && |f.actionTool| <= 128 && |f.actionResource| <= 256 &&
            (f.actionKind.ToolAction? || f.actionKind.FinishAction? || f.actionKind.NativeAction?) &&
            (f.actionKind.ToolAction? <==> f.actionTool != "") && (f.actionKind.ToolAction? <==> f.actionResource != "")
  {
    hide Accepts, Fold, LogOk, RuntimeOk, WorkGateOk, AttachedOk, NextLife, NextNet, FinalOk, ReservationOk, ModelDecisionOk, DecisionOk, WorkerOk, ProviderOk;
    AcceptedPass(v, ref);
    PassAt(SubjectOf(v), v.facts, i);
  }

  /** A decision that names an action follows the validated tool action it names: of the same claim and turn, and for this tool. */
  lemma NamedActionsAreDeclared(v: View, ref: string, i: nat)
    requires Accepts(v, ref) && i < |v.facts| && v.facts[i].actionRef != ""
    ensures v.facts[i].kind.ToolDecision?
    ensures exists j | 0 <= j < i ::
              v.facts[j].id == v.facts[i].actionRef && v.facts[j].kind.WorkerActivity? && v.facts[j].operation.ActionValidated? && v.facts[j].actionKind.ToolAction? &&
              v.facts[j].actionTool == v.facts[i].target && v.facts[j].turn == v.facts[i].turn && v.facts[j].claimID == v.facts[i].claimID
  {
    hide Accepts, Fold, LogOk, RuntimeOk, WorkGateOk, AttachedOk, NextLife, NextNet, FinalOk, ReservationOk, ModelDecisionOk, DecisionOk, WorkerOk, ProviderOk;
    AcceptedPass(v, ref);
    var s, f, before := SubjectOf(v), v.facts[i], v.facts[..i];
    PassAt(s, v.facts, i);
    PassActions(s, before);
    var a := Fold(s, before).value.calls.actions[f.actionRef];
    var j :| 0 <= j < |before| && before[j] == a;
    PassAt(s, v.facts, j);
    assert v.facts[j] == a;
  }

  // ---------------------------------------------------------------- the budget

  function ReservationCount(facts: seq<Fact>): nat {
    if facts == [] then 0 else ReservationCount(facts[..|facts| - 1]) + (if facts[|facts| - 1].kind.ModelBudgetReservation? then 1 else 0)
  }

  lemma {:induction false} PassBudget(s: Subject, facts: seq<Fact>)
    requires Fold(s, facts).Some?
    ensures Fold(s, facts).value.calls.budget == ReservationCount(facts)
    ensures forall id :: id in Fold(s, facts).value.calls.budgetIDs <==> CheckerSoundness.Reserved(facts, id)
  {
    hide StepOk, NextLife, NextLog, NextStages, NextNet;
    if facts != [] { PassBudget(s, facts[..|facts| - 1]); }
  }

  /** Reservations of an accepted view are numbered from one under the decoded limit of its authority, each for a new invocation; where a
      limit is stated or a call was reserved, an allowed model call was reserved first; and the budget is reported as exhausted
      only when it is. */
  lemma BudgetIsKept(v: View, ref: string, i: nat)
    requires Accepts(v, ref) && i < |v.facts|
    ensures v.state.Some? && v.request.Some?
    ensures var f, authority, before := v.facts[i], v.state.value.authority, v.facts[..i];
            (f.kind.ModelBudgetReservation? ==>
               authority.Some? && f.operation.ModelInvoke? && f.code.ModelCallReserved? && f.callCount == ReservationCount(before) + 1 && f.callCount <= f.callLimit && f.invocationID != "" &&
               f.callLimit == (if authority.value.runtime.maxModelCalls == 0 then 6 else authority.value.runtime.maxModelCalls) &&
               !CheckerSoundness.Reserved(before, f.invocationID)) &&
            (f.kind.ModelDecision? && f.result.Allow? &&
             (ReservationCount(before) > 0 || v.request.value.runtime.maxModelCalls.Some? || (authority.Some? && authority.value.runtime.maxModelCalls > 0)) ==>
               CheckerSoundness.Reserved(before, f.invocationID)) &&
            (f.kind.ModelDecision? && f.code.ModelCallLimitReached? ==>
               f.result.Deny? && authority.Some? &&
               ReservationCount(before) == (if authority.value.runtime.maxModelCalls == 0 then 6 else authority.value.runtime.maxModelCalls)) &&
            (!f.kind.ModelBudgetReservation? ==> f.callCount == 0 && f.callLimit == 0)
  {
    hide Accepts, Fold, LogOk, RuntimeOk, WorkGateOk, AttachedOk, NextLife, NextNet, FinalOk, ActionOk, DecisionOk, WorkerOk, ProviderOk;
    AcceptedPass(v, ref);
    PassAt(SubjectOf(v), v.facts, i);
    PassBudget(SubjectOf(v), v.facts[..i]);
  }

  // ---------------------------------------------------------------- the outcome

  lemma {:induction false} OutcomeCodeIs(s: Subject, facts: seq<Fact>)
    requires Fold(s, facts).Some?
    ensures Fold(s, facts).value.log.outcomeCode == if facts != [] && facts[|facts| - 1].kind.RunOutcome? then facts[|facts| - 1].code else NoCode
  {
    hide RuntimeOk, CallsOk, WorkGateOk, AttachedOk, NextLife, NextCalls, NextNet, RunOutcomeOk, AuthorityOk, ResolutionOk, ReceivedOk, AttributionOk;
    if facts != [] {
      OutcomeCodeIs(s, facts[..|facts| - 1]);
      CheckerSoundness.OutcomeIsLast(s, facts[..|facts| - 1]);
    }
  }

  /** The outcome of an accepted view says what its state says: a request that was not allowed ends with its decision and without a claim,
      and a claim ends as its phase says, where a failed one may have been cancelled. Only a success has a text, and only a claim that
      did not succeed must say why. */
  lemma OutcomeFitsState(v: View, ref: string)
    requires Accepts(v, ref) && v.outcome.Some?
    ensures v.state.Some? && v.recovery.None?
    ensures var o, st := v.outcome.value, v.state.value;
            (st.decision.result.Deny? ==> o.status.Denied? && st.claim.None? && st.authority.None?) &&
            (st.decision.result.ApprovalRequired? ==> o.status.NeedsApproval? && st.claim.None? && st.authority.None?) &&
            (st.decision.result.Allow? ==>
               st.claim.Some? &&
               var phase := st.claim.value.phase;
               (phase.Succeeded? || phase.Failed? || phase.Expired?) && (phase.Succeeded? ==> o.status.Succeeded?) && (phase.Expired? ==> o.status.Expired?) &&
               (phase.Failed? ==> o.status.Failed? || o.status.Cancelled?) && (!phase.Succeeded? ==> !Blank(o.failure) && |o.failure| <= 4096)) &&
            (!o.status.Succeeded? ==> o.text == "" && o.model.None?)
  {
    hide Fold, OutcomeReleaseOk, OutcomeLifeOk, OutcomeCallsOk, OutcomeCompletionOk, SuccessfulModelInvocation, ValidClaimRequest, Blank, ValidTrail, AuthorityWithinRequest;
  }

  /** A run outcome is the last fact; it names the phase of the claim and, where an outcome is shown, that outcome's status and failure. */
  lemma OutcomeFactFits(v: View, ref: string, i: nat)
    requires Accepts(v, ref) && i < |v.facts| && v.facts[i].kind.RunOutcome?
    ensures i == |v.facts| - 1 && v.state.Some? && v.state.value.claim.Some?
    ensures var op, phase := v.facts[i].operation, v.state.value.claim.value.phase;
            (op.Succeeded? && phase.Succeeded?) || ((op.Failed? || op.Cancelled?) && phase.Failed?) || (op.Expired? && phase.Expired?)
    ensures v.outcome.Some? ==> v.facts[i].operation == v.outcome.value.status && v.facts[i].reason == v.outcome.value.failure
  {
    hide Accepts, Fold, RuntimeOk, WorkGateOk, CallsOk, Next, NextLife, NextNet, FinalOk, AttachedOk, EnvelopeOk, ValidTrail;
    AcceptedPass(v, ref);
    var s := SubjectOf(v);
    CheckerSoundness.OutcomeIsLast(s, v.facts);
    PassAt(s, v.facts, i);
  }

  /** A claim that an accepted view shows as finished ends with its run outcome. */
  lemma OutcomeIsRecorded(v: View, ref: string)
    requires Accepts(v, ref) && v.outcome.Some? && v.state.value.decision.result.Allow?
    ensures v.facts != [] && v.facts[|v.facts| - 1].kind.RunOutcome?
  {
    hide Accepts, Fold, Next, StepOk, OutcomeReleaseOk, OutcomeCallsOk, OutcomeModelOk, OutcomeCompletionOk, OutcomeTextOk, ValidOutcomeState;
    AcceptedPass(v, ref);
    CheckerSoundness.OutcomeIsLast(SubjectOf(v), v.facts);
  }

  /** The run was cut short by a crash, as its recovered outcome says. */
  predicate Interrupted(v: View) {
    v.facts != [] && v.facts[|v.facts| - 1].kind.RunOutcome? && v.facts[|v.facts| - 1].code.RecoveredInterruption? && v.outcome.Some? &&
    (v.outcome.value.status.Failed? || v.outcome.value.status.Expired? || v.outcome.value.status.Cancelled?)
  }

  /** In a finished accepted view every allowed call has its outcome, unless the run was cut short by a crash. */
  lemma CallsAreClosed(v: View, ref: string, i: nat)
    requires Accepts(v, ref) && v.outcome.Some? && i < |v.facts| && v.facts[i].result.Allow? && (v.facts[i].kind.ToolDecision? || v.facts[i].kind.ModelDecision?)
    ensures Interrupted(v) || exists k | i < k < |v.facts| :: v.facts[k].kind.ProviderOutcome? && v.facts[k].invocationID == v.facts[i].invocationID
  {
    hide Accepts, Fold, OutcomeReleaseOk, OutcomeLifeOk, OutcomeModelOk, OutcomeCompletionOk, OutcomeTextOk, ValidOutcomeState, DecidedIn, AttemptedIn, AnsweredIn, DecidedAs,
         AttemptedAs, AnsweredAs;
    AcceptedPass(v, ref);
    var s, id := SubjectOf(v), v.facts[i].invocationID;
    var c := Fold(s, v.facts).value;
    DecisionsAreGranted(v, ref, i);
    PassCalls(s, v.facts, id);
    OutcomeCodeIs(s, v.facts);
    NoneBefore(v.facts, id);
    assert id in c.calls.stages;
    var p := c.calls.stages[id];
    if p.stage == 0 {
      DecisionFact(v.facts, id, p.operation, p.target, false);
      var j :| 0 <= j < |v.facts| && Decides(v.facts[j]) && v.facts[j].invocationID == id && !v.facts[j].result.Allow?;
      if j < i { DecisionsAreGranted(v, ref, i); } else { DecisionsAreGranted(v, ref, j); }
    } else if p.stage <= 2 {
      assert OpenCall(c.calls, id);
    } else {
      AnswerFact(v.facts, id, p.status);
      var k :| 0 <= k < |v.facts| && v.facts[k].kind.ProviderOutcome? && v.facts[k].invocationID == id;
      AnswerFollows(v, ref, i, k);
    }
  }

  /** An outcome of a call comes after its decision. */
  lemma AnswerFollows(v: View, ref: string, i: nat, k: nat)
    requires Accepts(v, ref) && i < |v.facts| && k < |v.facts| && v.facts[k].kind.ProviderOutcome? && v.facts[k].invocationID == v.facts[i].invocationID
    requires v.facts[i].kind.ToolDecision? || v.facts[i].kind.ModelDecision?
    ensures i < k
  {
    hide Accepts;
    CallsInOrder(v, ref, k);
    var a :| 0 <= a < k && v.facts[a].kind.ProviderAttempt? && v.facts[a].invocationID == v.facts[k].invocationID;
    CallsInOrder(v, ref, a);
    var d :| 0 <= d < a && (v.facts[d].kind.ToolDecision? || v.facts[d].kind.ModelDecision?) && v.facts[d].invocationID == v.facts[a].invocationID;
    if d < i { DecisionsAreGranted(v, ref, i); }
  }

  /** The invocation of the last model call that was answered well. */
  function LastAnswered(facts: seq<Fact>): string {
    if facts == [] then "" else
    var f := facts[|facts| - 1];
    if f.kind.ProviderOutcome? && f.operation.ModelInvoke? && f.status.Succeeded? then f.invocationID else LastAnswered(facts[..|facts| - 1])
  }

  lemma {:induction false} LastModelIs(s: Subject, facts: seq<Fact>)
    requires Fold(s, facts).Some?
    ensures Fold(s, facts).value.calls.lastModel == LastAnswered(facts)
  {
    hide StepOk, NextLife, NextLog, NextStages, NextNet;
    if facts != [] { LastModelIs(s, facts[..|facts| - 1]); }
  }

  /** A result is shown only of a success and only of the last model call that was answered well, for the granted profile; and only the
      platform's own report of a spent budget may end a run without the agent's: the budget is spent, a call was denied for
      it, and no answer was given. */
  lemma ResultsAreBacked(v: View, ref: string)
    requires Accepts(v, ref) && v.outcome.Some?
    ensures v.state.Some?
    ensures v.outcome.value.model.Some? ==>
              v.outcome.value.status.Succeeded? && v.outcome.value.model.value.invocationID != "" && v.outcome.value.model.value.model != "" &&
              v.outcome.value.model.value.inputTokens >= 0 && v.outcome.value.model.value.outputTokens >= 0 &&
              v.outcome.value.model.value.invocationID == LastAnswered(v.facts) && v.state.value.authority.Some? &&
              var id, profile := v.outcome.value.model.value.invocationID, v.state.value.authority.value.model;
              exists a, b, c | 0 <= a < b < c < |v.facts| ::
                AllowsModel(v.facts[a], id, profile) && AttemptsModel(v.facts[b], id, profile) && AnswersModel(v.facts[c], id, profile)
    ensures v.outcome.value.completion.Some? && !v.outcome.value.completion.value.AgentReport? ==>
              v.outcome.value.completion.value.PlatformLimit? && v.state.value.authority.Some? &&
              var calls := v.state.value.authority.value.runtime.maxModelCalls;
              ReservationCount(v.facts) == (if calls == 0 then 6 else calls) &&
              (exists i | 0 <= i < |v.facts| :: v.facts[i].kind.ModelDecision? && v.facts[i].result.Deny? && v.facts[i].code.ModelCallLimitReached?) &&
              forall i | 0 <= i < |v.facts| :: !v.facts[i].operation.FinalAnswer?
  {
    hide Accepts, Fold, StepOk, Next, OutcomeReleaseOk, OutcomeLifeOk, OutcomeCallsOk, OutcomeTextOk, ValidOutcomeState, ModelCallStage, AllowsModel,
         AttemptsModel, AnswersModel;
    AcceptedPass(v, ref);
    PassBudget(SubjectOf(v), v.facts);
    LastModelIs(SubjectOf(v), v.facts);
    if v.outcome.value.model.Some? { SuccessfulCallIsComplete(v.facts, v.outcome.value.model.value.invocationID, v.state.value.authority.value.model); }
  }

  predicate AllowsModel(f: Fact, id: string, profile: string) {
    f.kind.ModelDecision? && f.invocationID == id && f.operation.ModelInvoke? && f.result.Allow? && f.target == profile
  }

  predicate AttemptsModel(f: Fact, id: string, profile: string) {
    f.kind.ProviderAttempt? && f.invocationID == id && f.operation.ModelInvoke? && f.status.Attempted? && f.target == profile
  }

  predicate AnswersModel(f: Fact, id: string, profile: string) {
    f.kind.ProviderOutcome? && f.invocationID == id && f.operation.ModelInvoke? && f.status.Succeeded? && f.target == profile
  }

  /** Every call the client takes for a successful one was allowed, attempted and answered for this profile, in this order. */
  lemma {:induction false} SuccessfulCallIsComplete(facts: seq<Fact>, id: string, profile: string)
    requires ModelCallStage(facts, id, profile).Some?
    ensures var stage := ModelCallStage(facts, id, profile).value;
            stage <= 3 && (stage >= 1 ==> exists a | 0 <= a < |facts| :: AllowsModel(facts[a], id, profile)) &&
            (stage >= 2 ==> exists a, b | 0 <= a < b < |facts| :: AllowsModel(facts[a], id, profile) && AttemptsModel(facts[b], id, profile)) &&
            (stage >= 3 ==> exists a, b, c | 0 <= a < b < c < |facts| ::
                              AllowsModel(facts[a], id, profile) && AttemptsModel(facts[b], id, profile) && AnswersModel(facts[c], id, profile))
  {
    if facts != [] {
      var n := |facts| - 1;
      SuccessfulCallIsComplete(facts[..n], id, profile);
      assert forall j | 0 <= j < n :: facts[..n][j] == facts[j];
    }
  }

  /** A finished accepted view shows every release answered; whatever was activated or granted network access was released, and a success
      that attempted an activation was activated. */
  lemma OutcomeIsReleased(v: View, ref: string)
    requires Accepts(v, ref) && v.outcome.Some?
    ensures v.state.Some? && !Unanswered(v.facts)
    ensures CheckerSoundness.Seen(v.facts, NetworkActivationAttempt) ==> CheckerSoundness.Seen(v.facts, NetworkRevocationAttempt)
    ensures var st := v.state.value;
            st.authority.Some? && st.authority.value.network != [] && st.claim.Some? && st.claim.value.identity.Some? ==>
              CheckerSoundness.Seen(v.facts, NetworkRevocationAttempt)
    ensures v.outcome.value.status.Succeeded? && CheckerSoundness.Seen(v.facts, NetworkActivationAttempt) ==> CheckerSoundness.Seen(v.facts, NetworkActive)
  {
    hide Accepts, Fold, StepOk, Next, OutcomeLifeOk, OutcomeCallsOk, OutcomeTextOk, ValidOutcomeState, OutcomeModelOk, OutcomeCompletionOk, CheckerSoundness.Seen, Unanswered,
         Confirmed;
    AcceptedPass(v, ref);
    PassNet(SubjectOf(v), v.facts);
  }

  /** The template of the work could not be configured, as its outcome says. */
  predicate Unconfigured(v: View) { v.facts != [] && v.facts[|v.facts| - 1].kind.RunOutcome? && v.facts[|v.facts| - 1].code.TemplateConfigurationFailed? }

  /** Granted work of an accepted view either records its authority, or could not be configured, or is one that a crash left before
      anything of it began; and a finished claim without a worker was ended by a recorded operation or could not be configured. */
  lemma AuthorityIsRecorded(v: View, ref: string)
    requires Accepts(v, ref) && v.state.value.decision.result.Allow?
    ensures v.state.value.claim.Some?
    ensures (exists i | 0 <= i < |v.facts| :: v.facts[i].kind.AuthorityResolved?) || Unconfigured(v) ||
            (v.recovery.Some? && v.state.value.claim.value.phase.Pending? && RuntimeEvents(v.facts) == [] &&
             forall i | 0 <= i < |v.facts| :: !v.facts[i].kind.ToolDecision? && !v.facts[i].kind.ModelDecision?)
    ensures v.outcome.Some? && v.state.value.claim.value.identity.None? ==> SeenTerminal(v.facts) || Unconfigured(v)
  {
    hide Accepts, Fold, StepOk, Next, OutcomeReleaseOk, OutcomeCallsOk, OutcomeTextOk, ValidOutcomeState, OutcomeModelOk, OutcomeCompletionOk, SeenTerminal, ValidTrail,
         SeenTermination, SeenCleanup, CheckerSoundness.Seen, RuntimeTerminal;
    AcceptedPass(v, ref);
    var s := SubjectOf(v);
    ResolvedTraced(s, v.facts);
    OutcomeCodeIs(s, v.facts);
    PassLife(s, v.facts);
    forall i | 0 <= i < |v.facts| && Fold(s, v.facts).value.calls.stages == map[]
      ensures !v.facts[i].kind.ToolDecision? && !v.facts[i].kind.ModelDecision?
    {
      if Decides(v.facts[i]) {
        DecisionsAreGranted(v, ref, i);
        PassCalls(s, v.facts, v.facts[i].invocationID);
        NoneBefore(v.facts, v.facts[i].invocationID);
      }
    }
  }
}
