/** What the service makes of a submission before its run: it records how the request was decided, and either stores the view of
    a request that will not run or starts the work. */
module Intake {
  import opened Evidence
  import opened Numbering
  import opened ClientAuthority
  import opened Checker
  import opened Session
  import opened Producer
  import opened Issuance
  import Journal
  import Resolver

  // ---------------------------------------------------------------- what is recorded

  function ReceivedEntry(ref: string): Fact { BLANK_FACT.(kind := RequestReceived, requestRef := ref) }

  function DecisionCode(result: Result): Code {
    OtherCode(match result
              case Allow => "assignment-allow"
              case Deny => "assignment-deny"
              case _ => "assignment-approvalrequired")
  }

  function DecisionEntry(ref: string, d: Decision): Fact {
    BLANK_FACT.(kind := RequestResolution, requestRef := ref, decision := Some(d), result := d.result, code := DecisionCode(d.result),
                policyRef := Some(d.policyRef))
  }

  /** Some difference was made by the policy and not by the template. */
  predicate CappedByPolicy(changes: seq<Change>) {
    exists i | 0 <= i < |changes| :: changes[i].reason.OutsidePolicyConstraint? || changes[i].reason.PolicyTimeoutCap?
  }

  function AuthorityEntry(w: Assignment, details: string): Fact {
    BLANK_FACT.(kind := AuthorityResolved, requestRef := w.issued.requestRef, claimID := ClaimOf(w), authority := w.issued.authority, changes := w.changes,
                policyRef := Some(w.issued.decision.policyRef),
                code := OtherCode(if CappedByPolicy(w.changes) then "admitted-policy-constraint" else "admitted-template-ceiling"), reason := details)
  }

  const UNCONFIGURED := "runtime" + " template configuration failed; check the installed runtime and operator logs"

  function UnconfiguredEntry(w: Assignment): Fact {
    BLANK_FACT.(kind := RunOutcome, requestRef := w.issued.requestRef, claimID := ClaimOf(w), operation := Op.Failed, code := TemplateConfigurationFailed,
                reason := UNCONFIGURED)
  }

  /** The request was received and its decision recorded. */
  predicate Opened(ref: string, d: Decision, facts: seq<Fact>) {
    |facts| >= 2 && Bare(facts[0]) == ReceivedEntry(ref) && Bare(facts[1]) == DecisionEntry(ref, d)
  }

  // ---------------------------------------------------------------- what is stored

  /** The view of a request that was decided without an issued claim: its outcome is its decision. */
  function DecidedView(request: Request, state: Option<State>, result: Result, facts: seq<Fact>): View {
    View(VERSION, request.name, Some(request), state, facts, None,
         Some(Outcome(if result.Deny? then Op.Denied else NeedsApproval, "", "", None, None)))
  }

  function UnconfiguredView(w: Assignment, facts: seq<Fact>): View
    requires w.issued.claim.Some?
  {
    View(VERSION, w.issued.requestRef, Some(w.request), Some(w.issued.(claim := Some(w.issued.claim.value.(phase := Phase.Failed)))), facts, None,
         Some(Outcome(Op.Failed, "", UNCONFIGURED, None, None)))
  }

  /** Nothing but the first two facts of a request was seen. */
  function OpenedLog(facts: seq<Fact>): Log
    requires |facts| >= 2
  {
    Log({facts[0].id, facts[1].id}, facts[1].sequence, 1, 1, 0, false, 0, NoCode)
  }

  lemma TwoStamped(facts: seq<Fact>)
    requires Stamped(facts) && |facts| >= 2
    ensures facts[0].id != "" && facts[1].id != "" && facts[0].id != facts[1].id && facts[0].timestamp != 0 && facts[1].timestamp != 0
    ensures 0 < facts[0].sequence < facts[1].sequence
    decreases |facts|
  {
    var n := |facts| - 1;
    if n > 1 {
      TwoStamped(facts[..n]);
    } else {
      assert facts[..1][..0] == [] && IDs(facts[..1]) == {facts[0].id};
    }
  }

  lemma ReceivedTaken(s: Subject, f: Fact)
    requires Bare(f) == ReceivedEntry(s.ref) && f.id != "" && f.timestamp != 0 && f.sequence > 0
    ensures StepOk(s, START, f) && Next(s, START, f) == START.(log := Log({f.id}, f.sequence, 1, 0, 0, false, 0, NoCode))
  {
    hide ValidAuthorityChanges;
    assert Bare(f).kind == f.kind;
  }

  lemma DecisionTaken(s: Subject, f: Fact, c: Cursor)
    requires Bare(f) == DecisionEntry(s.ref, s.state.decision) && f.id != "" && f.timestamp != 0 && f.id !in c.log.ids && f.sequence > c.log.lastSequence
    requires c == START.(log := Log(c.log.ids, c.log.lastSequence, 1, 0, 0, false, 0, NoCode)) && ValidIssuedState(s.state)
    ensures StepOk(s, c, f) && Next(s, c, f) == START.(log := Log(c.log.ids + {f.id}, f.sequence, 1, 1, 0, false, 0, NoCode))
  {
    hide ValidAuthorityChanges, ValidGranted, ValidTrail;
    assert Bare(f).kind == f.kind && Bare(f).decision == f.decision;
  }

  /** The cursor after the first two facts of any request. */
  lemma OpeningTaken(s: Subject, facts: seq<Fact>)
    requires Opened(s.ref, s.state.decision, facts) && Stamped(facts) && ValidIssuedState(s.state)
    ensures Fold(s, facts[..2]) == Some(START.(log := OpenedLog(facts)))
  {
    hide StepOk, Next, ValidIssuedState, Fold;
    TwoStamped(facts);
    assert Fold(s, facts[..0]) == Some(START) by { EmptyFold(s); }
    ReceivedTaken(s, facts[0]);
    FoldStep(s, facts, 0);
    DecisionTaken(s, facts[1], Next(s, START, facts[0]));
    FoldStep(s, facts, 1);
    assert {facts[0].id} + {facts[1].id} == {facts[0].id, facts[1].id};
  }

  lemma DecidedPreamble(request: Request, principal: Principal, e: Evaluation, v: View)
    requires ValidClaimRequest(request) && ValidAsked(AskedFor(request, principal)) && Evaluates(AskedFor(request, principal), e) && !e.decision.result.Allow?
    requires !Blank(e.decision.policyRef.id) && v.version == VERSION && v.requestRef == request.name && v.request == Some(request) && v.recovery.None?
    requires v.state == Some(Unissued(request, principal, e.decision))
    ensures ValidPreamble(v, request.name) && ValidIssuedState(v.state.value)
  {
    hide ValidClaimRequest, Blank, ValidIssuedState, Evaluates;
    UnissuedIsValid(request, principal, e);
  }

  /** For every request that was decided without an issued claim, and whatever outcome is put into its view, the client accepts
      exactly the outcome that names this decision and carries no result. */
  lemma DecidedViewAccepted(request: Request, principal: Principal, e: Evaluation, facts: seq<Fact>, o: Outcome)
    requires ValidClaimRequest(request) && ValidAsked(AskedFor(request, principal)) && Evaluates(AskedFor(request, principal), e) && !e.decision.result.Allow?
    requires !Blank(e.decision.policyRef.id) && |facts| == 2 && Stamped(facts) && Opened(request.name, e.decision, facts)
    ensures Accepts(DecidedView(request, Some(Unissued(request, principal, e.decision)), e.decision.result, facts).(outcome := Some(o)), request.name) <==>
            (if e.decision.result.Deny? then o.status.Denied? else e.decision.result.ApprovalRequired? && o.status.NeedsApproval?) &&
            o.text == "" && o.model.None? && (o.completion.Some? ==> o.completion.value.AgentReport?)
  {
    hide ValidClaimRequest, Blank, ValidIssuedState, Evaluates, ValidAsked, ValidPreamble, Opened, Fold, Stamped;
    var v := DecidedView(request, Some(Unissued(request, principal, e.decision)), e.decision.result, facts).(outcome := Some(o));
    DecidedPreamble(request, principal, e, v);
    OpeningTaken(SubjectOf(v), facts);
    assert facts[..2] == facts;
  }

  /** Without a state no view is accepted. */
  lemma NoStateIsRefused(v: View, ref: string)
    requires v.state.None?
    ensures !Accepts(v, ref)
  {
  }

  lemma OutcomeTaken(w: Assignment, s: Subject, f: Fact, c: Cursor)
    requires AdmittedWork(w) && s.ref == w.issued.requestRef && s.state == UnconfiguredView(w, []).state.value && s.outcome == UnconfiguredView(w, []).outcome
    requires Bare(f) == UnconfiguredEntry(w) && f.id != "" && f.timestamp != 0 && f.id !in c.log.ids && f.sequence > c.log.lastSequence
    requires c == START.(log := Log(c.log.ids, c.log.lastSequence, 1, 1, 0, false, 0, NoCode))
    ensures StepOk(s, c, f) && Next(s, c, f) == c.(log := Log(c.log.ids + {f.id}, f.sequence, 1, 1, 0, true, 1, TemplateConfigurationFailed))
  {
    hide ValidAuthorityChanges, ValidClaimRequest, AuthorityWithinRequest, ValidTrail;
    assert Bare(f).kind == f.kind && Bare(f).operation == f.operation && Bare(f).reason == f.reason;
  }

  lemma UnconfiguredPreamble(w: Assignment, facts: seq<Fact>)
    requires AdmittedWork(w)
    ensures ValidPreamble(UnconfiguredView(w, facts), w.issued.requestRef)
  {
    hide ValidAuthorityChanges, ValidClaimRequest, AuthorityWithinRequest, Blank;
  }

  lemma UnconfiguredText()
    ensures !Blank(UNCONFIGURED) && |UNCONFIGURED| <= 4096
  {
    assert UNCONFIGURED[0] == "runtime"[0] == 'r';
  }

  lemma LastStamped(facts: seq<Fact>)
    requires Stamped(facts) && |facts| == 3
    ensures facts[2].id != "" && facts[2].timestamp != 0 && facts[2].id !in {facts[0].id, facts[1].id} && facts[2].sequence > facts[1].sequence
  {
    var one, two := facts[..1], facts[..2];
    assert IDs(one) == {facts[0].id} by { assert one[..0] == []; }
    assert IDs(two) == IDs(one) + {facts[1].id} by { assert two[..1] == one; }
    assert two == facts[..|facts| - 1];
  }

  /** Work whose template could not be configured: its view is accepted exactly when the journal took its outcome. */
  lemma UnconfiguredViewAccepted(w: Assignment, facts: seq<Fact>)
    requires AdmittedWork(w) && 2 <= |facts| <= 3 && Stamped(facts) && Opened(w.issued.requestRef, w.issued.decision, facts)
    requires |facts| == 3 ==> Bare(facts[2]) == UnconfiguredEntry(w)
    ensures Accepts(UnconfiguredView(w, facts), w.issued.requestRef) <==> |facts| == 3
  {
    hide ValidPreamble, Opened, Fold, Stamped, StepOk, Next, Blank, ValidIssuedState, ValidClaimRequest, AuthorityWithinRequest, ValidAuthorityChanges;
    var v := UnconfiguredView(w, facts);
    var s := SubjectOf(v);
    UnconfiguredPreamble(w, facts);
    assert ValidIssuedState(s.state) by { PreambleHasState(v, w.issued.requestRef); }
    OpeningTaken(s, facts);
    UnconfiguredText();
    IssuedIsFresh(w);
    assert facts[..|facts|] == facts;
    if |facts| == 3 {
      LastStamped(facts);
      OutcomeTaken(w, s, facts[2], START.(log := OpenedLog(facts)));
      FoldStep(s, facts, 2);
    }
  }

  lemma PreambleHasState(v: View, ref: string)
    requires ValidPreamble(v, ref)
    ensures ValidIssuedState(v.state.value)
  {
    hide ValidIssuedState, ValidClaimRequest;
  }

  lemma IssuedIsFresh(w: Assignment)
    requires AdmittedWork(w)
    ensures w.issued.decision.result.Allow? && w.issued.claim.Some? && w.issued.claim.value.identity.None? && w.issued.evidence.events == []
  {
    hide ValidIssuedState, ValidClaimRequest, AuthorityWithinRequest, ValidAuthorityChanges;
  }

  // ---------------------------------------------------------------- a submission

  /** Nothing is recorded of a request before it is registered. */
  lemma NothingRecorded(reg: Journal.Registry, start: nat, facts: seq<Fact>, ref: string)
    requires Journal.Grown(reg, start, facts) && ref !in reg.requests
    ensures Journal.ForRequestOf(facts, ref) == []
  {
    hide Journal.Grown, Journal.ForRequestOf;
    Journal.ViewBelongs(facts, ref);
    var view := Journal.ForRequestOf(facts, ref);
    if view != [] {
      assert view[0] in facts;
      var i :| 0 <= i < |facts| && facts[i] == view[0];
      Journal.FactAt(reg, start, facts, i);
    }
  }

  lemma ViewGrows(facts: seq<Fact>, f: Fact, ref: string)
    ensures Journal.ForRequestOf(facts + [f], ref) == if f.requestRef == ref then Journal.ForRequestOf(facts, ref) + [f] else Journal.ForRequestOf(facts, ref)
  {
    assert (facts + [f])[..|facts|] == facts;
  }

  /** A position and an identity are left for one more fact. */
  predicate Unused(start: nat, facts: seq<Fact>) { start + |facts| + 1 < Journal.SEQUENCES && FactID(start + |facts| + 1) !in IDs(facts) }

  /** The entries of a submission are admissible exactly when their request is registered, a position and identity unused, and the decision
      complete and the registered principal's, or the authority the bound claim's. */
  lemma DecisionIsAdmissible(reg: Journal.Registry, start: nat, facts: seq<Fact>, ref: string, d: Decision)
    requires start + |facts| < Journal.SEQUENCES
    ensures Journal.Admissible(reg, start, facts, ReceivedEntry(ref)) <==> ref in reg.requests && Unused(start, facts)
    ensures Journal.Admissible(reg, start, facts, DecisionEntry(ref, d)) <==>
              ref in reg.requests && Unused(start, facts) && d.id != "" && d.reason != "" && !d.action.NoActionName? && ValidResult(d.result) &&
              d.policyRef.id != "" && d.policyRef.version != "" && d.principalRef == reg.requests[ref].subject
  {
    hide Journal.Reservations, Journal.ActsOn, Journal.Backends, Journal.BackendOwners, Journal.ProgressOf, Journal.InvocationOwners, IDs, FactID, Journal.Lookup;
  }

  lemma AuthorityIsAdmissible(reg: Journal.Registry, start: nat, facts: seq<Fact>, w: Assignment, details: string)
    requires start + |facts| < Journal.SEQUENCES && w.issued.authority.Some? && ClaimOf(w) != ""
    ensures Journal.Admissible(reg, start, facts, AuthorityEntry(w, details)) <==>
              w.issued.requestRef in reg.requests && ClaimOf(w) in reg.claims && reg.claims[ClaimOf(w)] == w.issued.requestRef &&
              ClaimOf(w) in reg.authorities && w.issued.authority.value.id == reg.authorities[ClaimOf(w)] && Unused(start, facts)
  {
    hide ClaimOf, CappedByPolicy;
    hide Journal.Reservations, Journal.ActsOn, Journal.Backends, Journal.BackendOwners, Journal.ProgressOf, Journal.InvocationOwners, IDs, FactID, Journal.Lookup;
  }

  /** Appends one entry of a request to the journal. */
  method Record(journal: Journal.Journal, entry: Fact, now: int) returns (ok: bool)
    requires journal.Valid() && now != 0 && Bare(entry) == entry
    modifies journal`facts, journal`ids, journal`invocations, journal`progress, journal`backends, journal`backendOwners
    ensures journal.Valid()
    ensures var before, view := old(Journal.ForRequestOf(journal.facts, entry.requestRef)), Journal.ForRequestOf(journal.facts, entry.requestRef);
            if ok then view != [] && view[..|view| - 1] == before && Bare(view[|view| - 1]) == entry else view == before
  {
    hide Journal.Admissible, Journal.Grown, Journal.ForRequestOf;
    ghost var before := journal.facts;
    var stored, _ := journal.Append(entry, now);
    if stored.Some? { ViewGrows(before, stored.value, entry.requestRef); }
    ok := stored.Some?;
  }

  /** Registers a request and records that it was received and how it was decided. */
  method Open(journal: Journal.Journal, ref: string, principal: Principal, decision: Decision, now: int) returns (ok: bool)
    requires journal.Valid() && now != 0
    modifies journal
    ensures journal.Valid()
    ensures ref in old(journal.requests) ==> !ok && journal.facts == old(journal.facts)
    ensures ok ==> var facts := Journal.ForRequestOf(journal.facts, ref); |facts| == 2 && Opened(ref, decision, facts) && Stamped(facts)
  {
    hide Stamped, Journal.Grown, Journal.ClaimsPaired, Journal.ForRequestOf;
    if ref !in journal.requests { NothingRecorded(journal.Reg(), journal.start, journal.facts, ref); }
    ok := journal.RegisterRequest(ref, principal);
    if !ok { return; }
    ok := Record(journal, ReceivedEntry(ref), now);
    if !ok { return; }
    ok := Record(journal, DecisionEntry(ref, decision), now);
    Journal.ViewIsStamped(journal.Reg(), journal.start, journal.facts, ref);
  }

  datatype Submitted = Rejected | Stored(view: View) | Started(work: Assignment)

  /** What the client decides about the stored view of a request with this decision. A denied request is stored with a view it
      accepts. A request that needs approval is stored without a state, and its view is refused. Work that could not be configured
      is stored as failed, with a view that is accepted exactly when the journal took its outcome. */
  predicate Decided(request: Request, principal: Principal, d: Decision, view: View) {
    view.outcome.Some? && view.request == Some(request) &&
    match d.result
    case Deny => view.state == Some(Unissued(request, principal, d)) && view.outcome.value.status.Denied? && Accepts(view, request.name)
    case ApprovalRequired => view.state.None? && view.outcome.value.status.NeedsApproval? && !Accepts(view, request.name)
    case _ => view.outcome.value.status.Failed? && (Accepts(view, request.name) <==> |view.facts| == 3)
  }

  /** Takes a submission from its decision to the start of its run; storing may fail wherever the service stores. Work that is
      started has in the journal exactly the facts its run begins with. */
  method Submit(journal: Journal.Journal, request: Request, principal: Principal, template: Resolver.Template, answer: Option<Evaluation>,
                digest: string -> string, json: Item -> string, details: seq<Change> -> string, now: int) returns (submitted: Submitted)
    requires journal.Valid() && now != 0
    modifies journal
    ensures journal.Valid()
    ensures request.name in old(journal.requests) ==> submitted.Rejected? && journal.facts == old(journal.facts)
    ensures submitted.Stored? ==>
              answer.Some? && submitted.view.facts == Journal.ForRequestOf(journal.facts, request.name) &&
              Decided(request, principal, answer.value.decision, submitted.view)
    ensures submitted.Started? ==>
              AdmittedWork(submitted.work) && submitted.work.request == request && submitted.work.issued.principal == principal &&
              answer.Some? && submitted.work.issued.decision == answer.value.decision && answer.value.decision.result.Allow? &&
              var facts := Journal.ForRequestOf(journal.facts, request.name); Journaled(submitted.work, [], facts) && Stamped(facts)
  {
    hide AdmittedWork, Evaluates, Admits, ValidAsked, ValidClaimRequest, Blank, Resolver.Grantable, Resolver.GrantOf, Stamped, Journaled, Opened, Accepts,
         Unissued, Decided, Journal.Grown, Journal.ClaimsPaired, Journal.ForRequestOf, Journal.Journal.Valid;
    var prepared := Prepare(request, principal, template, answer, digest, json);
    if prepared.Invalid? { return Rejected; }
    var decision := answer.value.decision;
    var taken := Open(journal, request.name, principal, decision, now);
    if !taken { return Rejected; }
    var stored := *;
    if !stored { return Rejected; }
    if prepared.Ready? {
      AllowedIsNamed(request, principal, answer.value, prepared.work);
      submitted := Launch(journal, prepared.work, details, now);
      if submitted.Stored? { LaunchedIsDecided(request, principal, decision, submitted.view); }
    } else {
      var facts := journal.ForRequest(request.name);
      var state := if prepared.Refused? then Some(prepared.state) else None;
      DecidedIsShown(request, principal, answer.value, state, facts);
      submitted := Stored(DecidedView(request, state, decision.result, facts));
    }
  }

  lemma AllowedIsNamed(request: Request, principal: Principal, e: Evaluation, w: Assignment)
    requires Admits(AskedFor(request, principal), Admission(e)) && AdmittedWork(w) && w.request == request
    ensures e.decision.result.Allow? && w.issued.requestRef == request.name
  {
    hide ValidAsked, Evaluates, ValidIssuedState, ValidClaimRequest, AuthorityWithinRequest, ValidAuthorityChanges;
  }

  lemma LaunchedIsDecided(request: Request, principal: Principal, d: Decision, view: View)
    requires d.result.Allow? && view.outcome.Some? && view.request == Some(request) && view.outcome.value.status.Failed?
    requires Accepts(view, request.name) <==> |view.facts| == 3
    ensures Decided(request, principal, d, view)
  {
    hide Accepts;
  }

  lemma DecidedIsShown(request: Request, principal: Principal, e: Evaluation, state: Option<State>, facts: seq<Fact>)
    requires ValidClaimRequest(request) && ValidAsked(AskedFor(request, principal)) && Evaluates(AskedFor(request, principal), e) && !e.decision.result.Allow?
    requires |facts| == 2 && Stamped(facts) && Opened(request.name, e.decision, facts)
    requires if e.decision.result.Deny? then state == Some(Unissued(request, principal, e.decision)) && !Blank(e.decision.policyRef.id) else state.None?
    ensures Decided(request, principal, e.decision, DecidedView(request, state, e.decision.result, facts))
    ensures DecidedView(request, state, e.decision.result, facts).facts == facts
  {
    hide ValidClaimRequest, Blank, ValidAsked, Opened, Stamped, Accepts, Unissued;
    var v := DecidedView(request, state, e.decision.result, facts);
    if state.Some? {
      DecidedViewAccepted(request, principal, e, facts, v.outcome.value);
      assert v == v.(outcome := Some(v.outcome.value));
    } else {
      NoStateIsRefused(v, request.name);
    }
  }

  /** Binds the claim of prepared work, configures its template and records its authority. */
  method Launch(journal: Journal.Journal, w: Assignment, details: seq<Change> -> string, now: int) returns (submitted: Submitted)
    requires journal.Valid() && now != 0 && AdmittedWork(w)
    requires var facts := Journal.ForRequestOf(journal.facts, w.request.name); |facts| == 2 && Opened(w.request.name, w.issued.decision, facts)
    modifies journal
    ensures journal.Valid()
    ensures submitted.Stored? ==>
              submitted.view.facts == Journal.ForRequestOf(journal.facts, w.request.name) && submitted.view.outcome.Some? &&
              submitted.view.request == Some(w.request) && submitted.view.outcome.value.status.Failed? &&
              (Accepts(submitted.view, w.request.name) <==> |submitted.view.facts| == 3)
    ensures submitted.Started? ==>
              submitted.work == w && var facts := Journal.ForRequestOf(journal.facts, w.request.name); Journaled(w, [], facts) && Stamped(facts)
  {
    hide AdmittedWork, Accepts, Stamped, Journaled, UnconfiguredView, Journal.Grown, Journal.ClaimsPaired, Journal.ForRequestOf, Opened;
    WorkIsNamed(w);
    var ref := w.request.name;
    var bound := journal.BindClaim(ref, w.issued.claim.value);
    if !bound { return Rejected; }
    var configured := *;
    ghost var opening := Journal.ForRequestOf(journal.facts, ref);
    var entry := if configured then AuthorityEntry(w, details(w.changes)) else UnconfiguredEntry(w);
    var ok := Record(journal, entry, now);
    var facts := journal.ForRequest(ref);
    Journal.ViewIsStamped(journal.Reg(), journal.start, journal.facts, ref);
    OpeningStays(ref, w.issued.decision, opening, facts);
    if configured {
      if !ok { return Rejected; }
      BegunIsJournaled(w, facts, details(w.changes));
      return Started(w);
    }
    var stored := *;
    if !stored { return Rejected; }
    UnconfiguredViewAccepted(w, facts);
    UnconfiguredShown(w, facts);
    submitted := Stored(UnconfiguredView(w, facts));
  }

  lemma OpeningStays(ref: string, d: Decision, opening: seq<Fact>, facts: seq<Fact>)
    requires |opening| == 2 && Opened(ref, d, opening) && (facts == opening || (|facts| == 3 && facts[..2] == opening))
    ensures Opened(ref, d, facts)
  {
    assert facts[0] == opening[0] && facts[1] == opening[1];
  }

  lemma WorkIsNamed(w: Assignment)
    requires AdmittedWork(w)
    ensures w.request.name == w.issued.requestRef && w.issued.claim.Some? && w.issued.authority.Some?
  {
    hide ValidIssuedState, ValidClaimRequest, AuthorityWithinRequest, ValidAuthorityChanges;
  }

  lemma UnconfiguredShown(w: Assignment, facts: seq<Fact>)
    requires w.issued.claim.Some?
    ensures var v := UnconfiguredView(w, facts); v.facts == facts && v.request == Some(w.request) && v.outcome.Some? && v.outcome.value.status.Failed?
  {
  }

  /** The three facts before a run are the ones its journal begins with. */
  lemma BegunIsJournaled(w: Assignment, facts: seq<Fact>, details: string)
    requires AdmittedWork(w) && |facts| == 3 && Opened(w.issued.requestRef, w.issued.decision, facts) && Bare(facts[2]) == AuthorityEntry(w, details)
    ensures Journaled(w, [], facts)
  {
    hide ValidIssuedState, ValidClaimRequest, AuthorityWithinRequest, ValidAuthorityChanges, Blank;
    assert w.issued.decision.result.Allow?;
  }
}
